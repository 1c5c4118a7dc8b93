/** The session slot of a direct session: its ticket in unpadded base64 of the URL alphabet (RFC 4648, section 5). */
module TicketSlot {
  import opened Basics
  import opened Bytes

  type sextet = n: int | 0 <= n < 64

  function Letter(n: sextet): byte {
    if n < 26 then 'A' as int + n
    else if n < 52 then 'a' as int + n - 26
    else if n < 62 then '0' as int + n - 52
    else if n == 62 then '-' as int
    else '_' as int
  }

  function ValueOf(c: byte): Option<sextet> {
    if 'A' as int <= c <= 'Z' as int then Some(c - 'A' as int)
    else if 'a' as int <= c <= 'z' as int then Some(c - 'a' as int + 26)
    else if '0' as int <= c <= '9' as int then Some(c - '0' as int + 52)
    else if c == '-' as int then Some(62)
    else if c == '_' as int then Some(63)
    else None
  }

  lemma LetterValue(n: sextet)
    ensures ValueOf(Letter(n)) == Some(n)
  {
  }

  // The four sextets of three bytes.
  function High(a: byte): sextet {
    a / 4
  }

  function Upper(a: byte, b: byte): sextet {
    a % 4 * 16 + b / 16
  }

  function Lower(b: byte, c: byte): sextet {
    b % 16 * 4 + c / 64
  }

  function Low(c: byte): sextet {
    c % 64
  }

  // One or two bytes left over make two or three.
  function Sextets(t: seq<byte>): seq<sextet> {
    if t == [] then []
    else if |t| == 1 then [High(t[0]), Upper(t[0], 0)]
    else if |t| == 2 then [High(t[0]), Upper(t[0], t[1]), Lower(t[1], 0)]
    else [High(t[0]), Upper(t[0], t[1]), Lower(t[1], t[2]), Low(t[2])] + Sextets(t[3..])
  }

  function Letters(v: seq<sextet>): seq<byte> {
    if v == [] then [] else [Letter(v[0])] + Letters(v[1..])
  }

  function Slot(t: seq<byte>): seq<byte> {
    Letters(Sextets(t))
  }

  function Values(s: seq<byte>): Option<seq<sextet>> {
    if s == [] then Some([])
    else
      match ValueOf(s[0])
      case None => None
      case Some(v) => match Values(s[1..]) case None => None case Some(vs) => Some([v] + vs)
  }

  // The three bytes that four sextets hold.
  function First(a: sextet, b: sextet): byte {
    a * 4 + b / 16
  }

  function Second(b: sextet, c: sextet): byte {
    b % 16 * 16 + c / 4
  }

  function Third(c: sextet, d: sextet): byte {
    c % 4 * 64 + d
  }

  // Two or three sextets left over hold one or two bytes; one alone holds none.
  function Packed(v: seq<sextet>): Option<seq<byte>> {
    if v == [] then Some([])
    else if |v| == 1 then None
    else if |v| == 2 then Some([First(v[0], v[1])])
    else if |v| == 3 then Some([First(v[0], v[1]), Second(v[1], v[2])])
    else
      match Packed(v[4..])
      case None => None
      case Some(more) => Some([First(v[0], v[1]), Second(v[1], v[2]), Third(v[2], v[3])] + more)
  }

  function Ticket(slot: seq<byte>): Option<seq<byte>> {
    match Values(slot) case None => None case Some(v) => Packed(v)
  }

  lemma {:induction false} SextetsLength(t: seq<byte>)
    ensures |Sextets(t)| == (4 * |t| + 2) / 3
  {
    if |t| >= 3 {
      SextetsLength(t[3..]);
    }
  }

  lemma {:induction false} LettersLength(v: seq<sextet>)
    ensures |Letters(v)| == |v|
  {
    if v != [] {
      LettersLength(v[1..]);
    }
  }

  /** The slot is a third longer than the ticket, rounded up. */
  lemma SlotLength(t: seq<byte>)
    ensures |Slot(t)| == (4 * |t| + 2) / 3
  {
    SextetsLength(t);
    LettersLength(Sextets(t));
  }

  lemma {:induction false} ValuesOfLetters(v: seq<sextet>)
    ensures Values(Letters(v)) == Some(v)
  {
    if v != [] {
      LetterValue(v[0]);
      ValuesOfLetters(v[1..]);
      assert [v[0]] + v[1..] == v;
    }
  }

  lemma BytesOfSextets(a: byte, b: byte, c: byte)
    ensures First(High(a), Upper(a, b)) == a && Second(Upper(a, b), Lower(b, c)) == b && Third(Lower(b, c), Low(c)) == c
  {
  }

  lemma PackedFour(w: sextet, x: sextet, y: sextet, z: sextet, v: seq<sextet>, t: seq<byte>)
    requires Packed(v) == Some(t)
    ensures Packed([w, x, y, z] + v) == Some([First(w, x), Second(x, y), Third(y, z)] + t)
  {
    var all := [w, x, y, z] + v;
    assert all[4..] == v && all[0] == w && all[1] == x && all[2] == y && all[3] == z;
  }

  lemma PackedPair(w: sextet, x: sextet)
    ensures Packed([w, x]) == Some([First(w, x)])
  {
  }

  lemma PackedOne(a: byte)
    ensures Packed([High(a), Upper(a, 0)]) == Some([a])
  {
    assert First(High(a), Upper(a, 0)) == a by { BytesOfSextets(a, 0, 0); }
    PackedPair(High(a), Upper(a, 0));
  }

  lemma PackedTwo(a: byte, b: byte)
    ensures Packed([High(a), Upper(a, b), Lower(b, 0)]) == Some([a, b])
  {
    BytesOfSextets(a, b, 0);
  }

  lemma PackedMore(a: byte, b: byte, c: byte, v: seq<sextet>, t: seq<byte>)
    requires Packed(v) == Some(t)
    ensures Packed([High(a), Upper(a, b), Lower(b, c), Low(c)] + v) == Some([a, b, c] + t)
  {
    PackedFour(High(a), Upper(a, b), Lower(b, c), Low(c), v, t);
    BytesOfSextets(a, b, c);
  }

  lemma {:induction false} PackedSextets(t: seq<byte>)
    ensures Packed(Sextets(t)) == Some(t)
  {
    if |t| == 0 {
    } else if |t| == 1 {
      PackedOne(t[0]);
      assert t == [t[0]];
    } else if |t| == 2 {
      PackedTwo(t[0], t[1]);
      assert t == [t[0], t[1]];
    } else {
      PackedSextets(t[3..]);
      PackedMore(t[0], t[1], t[2], Sextets(t[3..]), t[3..]);
      assert t == [t[0], t[1], t[2]] + t[3..];
    }
  }

  /** The ticket is read back from its slot. */
  lemma TicketOfSlot(t: seq<byte>)
    ensures Ticket(Slot(t)) == Some(t)
  {
    ValuesOfLetters(Sextets(t));
    PackedSextets(t);
  }
}
