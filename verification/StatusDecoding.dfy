/**
 The hand-written decoder of the error status: a walk over the fields of a message (Protocol Buffers Encoding, sections
 "Message Structure" and "Last One Wins"), varint and length-delimited ones only, with a callback that fills a record.
 */
module StatusDecoding {
  import opened Basics
  import opened Bytes
  import opened Varint

  const WIRE_VARINT: nat := 0
  const WIRE_BYTES: nat := 2

  datatype Field = Number(num: nat, value: nat) | Bytes(num: nat, data: seq<byte>)

  datatype Next = Next(field: Field, rest: seq<byte>)

  // ---------------------------------------------------------------------------------------------
  // Fields
  // ---------------------------------------------------------------------------------------------

  // The field with a given key, once the varint behind the key is read: its value, or the length of its data.
  function FieldOf(key: nat, v: Parsed, after: seq<byte>): (r: Option<Next>)
    requires v.size <= |after|
    ensures r.Some? ==> |r.value.rest| <= |after|
  {
    var num, wire, body := key / 8, key % 8, after[v.size..];
    if wire == WIRE_VARINT then Some(Next(Number(num, v.value), body))
    else if wire == WIRE_BYTES && v.value <= |body| then Some(Next(Bytes(num, body[..v.value]), body[v.value..]))
    else None
  }

  // The field in front of a message: a key, then a varint or a length and that many bytes.
  function NextField(b: seq<byte>): (r: Option<Next>)
    ensures r.Some? ==> |r.value.rest| < |b|
  {
    var key := Uvarint(b);
    if key == None then None
    else
      var after := b[key.value.size..];
      var v := Uvarint(after);
      if v == None then None else FieldOf(key.value.value, v.value, after)
  }

  // All the fields of a message, or nothing if some part of it is malformed.
  function Fields(b: seq<byte>): Option<seq<Field>>
    decreases |b|
  {
    if b == [] then Some([])
    else
      match NextField(b)
      case None => None
      case Some(n) =>
        match Fields(n.rest)
        case None => None
        case Some(fs) => Some([n.field] + fs)
  }

  // What a callback makes of a list of fields, one after the other, unless it gives up.
  function Fold<S>(fs: seq<Field>, state: S, callback: (S, Field) -> Option<S>): Option<S> {
    if fs == [] then Some(state)
    else
      match callback(state, fs[0])
      case None => None
      case Some(state') => Fold(fs[1..], state', callback)
  }

  // What a walk of the message amounts to.
  function Walk<S>(b: seq<byte>, state: S, callback: (S, Field) -> Option<S>): Option<S> {
    match Fields(b)
    case None => None
    case Some(fs) => Fold(fs, state, callback)
  }

  lemma {:induction false} StepWalk<S>(b: seq<byte>, state: S, callback: (S, Field) -> Option<S>)
    requires b != []
    ensures Walk(b, state, callback) ==
            match NextField(b)
            case None => None
            case Some(n) =>
              match callback(state, n.field)
              case None => None
              case Some(state') => Walk(n.rest, state', callback)
  {
    var n := NextField(b);
    if n.Some? && Fields(n.value.rest).Some? {
      var fs := Fields(n.value.rest).value;
      assert ([n.value.field] + fs)[1..] == fs;
    }
  }

  // Reads the field in front of the message.
  method ReadField(b: seq<byte>) returns (r: Option<Next>)
    ensures r == NextField(b)
  {
    var key, n := BinaryUvarint(b);
    if n <= 0 {
      return None;
    }
    UvarintBounds(b);
    var num, wire, after := key / 8, key % 8, b[n..];
    if wire == WIRE_VARINT {
      var v, m := BinaryUvarint(after);
      if m <= 0 {
        return None;
      }
      UvarintBounds(after);
      return Some(Next(Number(num, v), after[m..]));
    } else if wire == WIRE_BYTES {
      var l, m := BinaryUvarint(after);
      if m <= 0 || |after| - m < l {
        return None;
      }
      UvarintBounds(after);
      return Some(Next(Bytes(num, after[m..][..l]), after[m..][l..]));
    }
    r := None;
  }

  /** The walk: the callback sees each field as soon as it is parsed, and a malformed rest still fails the whole. */
  method WalkFields<S>(b: seq<byte>, init: S, callback: (S, Field) -> Option<S>) returns (r: Option<S>)
    ensures r == Walk(b, init, callback)
  {
    var rest, state := b, init;
    while rest != []
      invariant Walk(b, init, callback) == Walk(rest, state, callback)
      decreases |rest|
    {
      StepWalk(rest, state, callback);
      var next := ReadField(rest);
      if next == None {
        return None;
      }
      var state' := callback(state, next.value.field);
      if state' == None {
        return None;
      }
      state, rest := state'.value, next.value.rest;
    }
    r := Some(state);
  }

  // ---------------------------------------------------------------------------------------------
  // Messages in a row
  // ---------------------------------------------------------------------------------------------

  // A field in front of a message, from its key and the varint behind it.
  lemma NextIs(b: seq<byte>, key: Parsed, v: Parsed)
    requires key.size <= |b| && Uvarint(b) == Some(key)
    requires v.size <= |b| - key.size && Uvarint(b[key.size..]) == Some(v)
    ensures NextField(b) == FieldOf(key.value, v, b[key.size..])
  {
  }

  lemma FieldOfTail(key: nat, v: Parsed, after: seq<byte>, tail: seq<byte>)
    requires v.size <= |after| && FieldOf(key, v, after).Some?
    ensures var n := FieldOf(key, v, after).value;
            FieldOf(key, v, after + tail) == Some(Next(n.field, n.rest + tail))
  {
    var body := after[v.size..];
    assert (after + tail)[v.size..] == body + tail;
    if key % 8 == WIRE_BYTES {
      assert (body + tail)[..v.value] == body[..v.value] && (body + tail)[v.value..] == body[v.value..] + tail;
    }
  }

  lemma NextFieldTail(a: seq<byte>, b: seq<byte>)
    requires NextField(a).Some?
    ensures NextField(a + b) == Some(Next(NextField(a).value.field, NextField(a).value.rest + b))
  {
    var key := Uvarint(a).value;
    var after := a[key.size..];
    var v := Uvarint(after).value;
    UvarintTail(a, b);
    assert (a + b)[key.size..] == after + b;
    UvarintTail(after, b);
    NextIs(a + b, key, v);
    FieldOfTail(key.value, v, after, b);
  }

  lemma {:induction false} FieldsStep(b: seq<byte>, n: Next, fs: Option<seq<Field>>)
    requires b != [] && NextField(b) == Some(n) && Fields(n.rest) == fs
    ensures Fields(b) == if fs == None then None else Some([n.field] + fs.value)
  {
  }

  // What the fields of a followed by those of b come to.
  function Joined(fa: seq<Field>, fb: Option<seq<Field>>): Option<seq<Field>> {
    if fb == None then None else Some(fa + fb.value)
  }

  lemma {:induction false} JoinStep(a: seq<byte>, b: seq<byte>, n: Next)
    requires a != [] && NextField(a) == Some(n) && Fields(n.rest).Some?
    requires Fields(n.rest + b) == Joined(Fields(n.rest).value, Fields(b))
    ensures Fields(a).Some? && Fields(a + b) == Joined(Fields(a).value, Fields(b))
  {
    assert NextField(a + b) == Some(Next(n.field, n.rest + b)) by { NextFieldTail(a, b); }
    FieldsStep(a, n, Fields(n.rest));
    FieldsStep(a + b, Next(n.field, n.rest + b), Fields(n.rest + b));
    Regroup(n.field, Fields(n.rest).value, Fields(b));
  }

  /** The fields of two messages in a row are those of the first and then those of the second. */
  lemma {:induction false} FieldsConcat(a: seq<byte>, b: seq<byte>)
    requires Fields(a).Some?
    ensures Fields(a + b) == Joined(Fields(a).value, Fields(b))
    decreases |a|
  {
    if a == [] {
      assert a + b == b;
      assert Fields(b).Some? ==> [] + Fields(b).value == Fields(b).value;
    } else {
      var n := NextField(a).value;
      FieldsConcat(n.rest, b);
      JoinStep(a, b, n);
    }
  }

  lemma Regroup(f: Field, fs: seq<Field>, more: Option<seq<Field>>)
    ensures more.Some? ==> [f] + (fs + more.value) == [f] + fs + more.value
  {
  }

  lemma {:induction false} FoldConcat<S>(fs: seq<Field>, gs: seq<Field>, state: S, callback: (S, Field) -> Option<S>)
    ensures Fold(fs + gs, state, callback) ==
            match Fold(fs, state, callback) case None => None case Some(mid) => Fold(gs, mid, callback)
  {
    if fs == [] {
      assert fs + gs == gs;
    } else {
      assert (fs + gs)[1..] == fs[1..] + gs;
      if callback(state, fs[0]).Some? {
        FoldConcat(fs[1..], gs, callback(state, fs[0]).value, callback);
      }
    }
  }

  /** Walking two messages in a row is walking the second from where the first left off. */
  lemma WalkConcat<S>(a: seq<byte>, b: seq<byte>, state: S, callback: (S, Field) -> Option<S>)
    requires Fields(a).Some?
    ensures Walk(a + b, state, callback) ==
            match Walk(a, state, callback) case None => None case Some(mid) => Walk(b, mid, callback)
  {
    FieldsConcat(a, b);
    if Fields(b).Some? {
      FoldConcat(Fields(a).value, Fields(b).value, state, callback);
    }
  }

  // ---------------------------------------------------------------------------------------------
  // The status
  // ---------------------------------------------------------------------------------------------

  datatype Status = Status(code: int, reason: seq<byte>, message: seq<byte>, metadata: map<seq<byte>, seq<byte>>, class_: int)

  const ZERO := Status(0, [], [], map[], 0)

  datatype Entry = Entry(key: seq<byte>, value: seq<byte>)

  function EntryField(e: Entry, f: Field): Option<Entry> {
    match f
    case Bytes(1, data) => Some(e.(key := data))
    case Bytes(2, data) => Some(e.(value := data))
    case _ => Some(e)
  }

  // One entry of the metadata map, itself a message.
  function MapEntry(b: seq<byte>): Option<Entry> {
    Walk(b, Entry([], []), EntryField)
  }

  method DecodeMapEntry(b: seq<byte>) returns (r: Option<Entry>)
    ensures r == MapEntry(b)
  {
    r := WalkFields(b, Entry([], []), EntryField);
  }

  // The callback that fills the status: unknown fields, and known ones of the wrong wire type, are skipped.
  function StatusField(st: Status, f: Field): Option<Status> {
    match f
    case Number(1, v) => Some(st.(code := ToInt32(v)))
    case Bytes(2, data) => Some(st.(reason := data))
    case Bytes(3, data) => Some(st.(message := data))
    case Bytes(4, data) =>
      (match MapEntry(data)
       case None => None
       case Some(e) => Some(st.(metadata := st.metadata[e.key := e.value])))
    case Number(5, v) => Some(st.(class_ := ToInt32(v)))
    case _ => Some(st)
  }

  function StatusOf(b: seq<byte>): Option<Status> {
    Walk(b, ZERO, StatusField)
  }

  method DecodeStatus(b: seq<byte>) returns (r: Option<Status>)
    ensures r == StatusOf(b)
  {
    r := WalkFields(b, ZERO, StatusField);
  }

  // ---------------------------------------------------------------------------------------------
  // What the status holds: the last value of every scalar, the last value of every key
  // ---------------------------------------------------------------------------------------------

  // The last varint of a field, or a default.
  function LastNumber(fs: seq<Field>, num: nat, default: int): int {
    if fs == [] then default
    else
      var f := fs[|fs| - 1];
      if f.Number? && f.num == num then ToInt32(f.value) else LastNumber(fs[..|fs| - 1], num, default)
  }

  function LastBytes(fs: seq<Field>, num: nat, default: seq<byte>): seq<byte> {
    if fs == [] then default
    else
      var f := fs[|fs| - 1];
      if f.Bytes? && f.num == num then f.data else LastBytes(fs[..|fs| - 1], num, default)
  }

  /** An entry is its last key and its last value, each empty if there is none. */
  lemma {:induction false} EntryIsLast(fs: seq<Field>, e: Entry)
    ensures Fold(fs, e, EntryField) == Some(Entry(LastBytes(fs, 1, e.key), LastBytes(fs, 2, e.value)))
  {
    if fs != [] {
      var front, f := fs[..|fs| - 1], fs[|fs| - 1];
      var mid := Entry(LastBytes(front, 1, e.key), LastBytes(front, 2, e.value));
      assert Fold(front, e, EntryField) == Some(mid) by { EntryIsLast(front, e); }
      assert fs == front + [f];
      FoldConcat(front, [f], e, EntryField);
      assert Fold([f], mid, EntryField) == EntryField(mid, f);
    }
  }

  /** A map entry that parses yields its last key and last value, in whatever order and among whatever other fields; it
      fails exactly if it does not parse. */
  lemma MapEntryIsLast(b: seq<byte>)
    ensures MapEntry(b) ==
            match Fields(b)
            case None => None
            case Some(fs) => Some(Entry(LastBytes(fs, 1, []), LastBytes(fs, 2, [])))
  {
    if Fields(b).Some? {
      EntryIsLast(Fields(b).value, Entry([], []));
    }
  }

  predicate IsEntry(f: Field) {
    f.Bytes? && f.num == 4
  }

  predicate EntriesOk(fs: seq<Field>) {
    forall i :: 0 <= i < |fs| ==> IsEntry(fs[i]) ==> MapEntry(fs[i].data).Some?
  }

  // The map the entries among the fields build, later keys overriding earlier ones.
  function Metadata(fs: seq<Field>): map<seq<byte>, seq<byte>>
    requires EntriesOk(fs)
  {
    if fs == [] then map[]
    else
      var f, front := fs[|fs| - 1], fs[..|fs| - 1];
      if IsEntry(f) then var e := MapEntry(f.data).value; Metadata(front)[e.key := e.value] else Metadata(front)
  }

  // A status overlaid with what a list of fields says.
  function Overlaid(st: Status, fs: seq<Field>): Status
    requires EntriesOk(fs)
  {
    Status(LastNumber(fs, 1, st.code), LastBytes(fs, 2, st.reason), LastBytes(fs, 3, st.message),
           st.metadata + Metadata(fs), LastNumber(fs, 5, st.class_))
  }

  /** Filling a status from fields overlays it with the last value of each, and fails exactly on a malformed map entry. */
  lemma {:induction false} FoldOverlays(fs: seq<Field>, st: Status)
    ensures Fold(fs, st, StatusField) == if EntriesOk(fs) then Some(Overlaid(st, fs)) else None
  {
    if fs == [] {
      assert st.metadata + map[] == st.metadata;
    } else {
      var front, f := fs[..|fs| - 1], fs[|fs| - 1];
      assert fs == front + [f];
      FoldOverlays(front, st);
      FoldConcat(front, [f], st, StatusField);
      assert EntriesOk(fs) <==> EntriesOk(front) && (IsEntry(f) ==> MapEntry(f.data).Some?);
      if EntriesOk(front) {
        LastStep(front, f, Overlaid(st, front), st);
      }
    }
  }

  // One map entry more.
  lemma EntryStep(front: seq<Field>, f: Field, st: Status)
    requires EntriesOk(front) && IsEntry(f) && MapEntry(f.data).Some?
    ensures EntriesOk(front + [f]) && StatusField(Overlaid(st, front), f) == Some(Overlaid(st, front + [f]))
  {
    var fs, e := front + [f], MapEntry(f.data).value;
    assert fs[..|fs| - 1] == front && fs[|fs| - 1] == f;
    assert EntriesOk(fs);
    Overrides(st.metadata, Metadata(front), e);
  }

  // One other field more.
  lemma ScalarStep(front: seq<Field>, f: Field, st: Status)
    requires EntriesOk(front) && !IsEntry(f)
    ensures EntriesOk(front + [f]) && StatusField(Overlaid(st, front), f) == Some(Overlaid(st, front + [f]))
  {
    var fs := front + [f];
    assert fs[..|fs| - 1] == front && fs[|fs| - 1] == f;
    assert EntriesOk(fs);
  }

  lemma LastStep(front: seq<Field>, f: Field, mid: Status, st: Status)
    requires EntriesOk(front) && mid == Overlaid(st, front)
    ensures Fold([f], mid, StatusField) == StatusField(mid, f)
    ensures IsEntry(f) && MapEntry(f.data) == None ==> StatusField(mid, f) == None
    ensures (IsEntry(f) ==> MapEntry(f.data).Some?) ==>
              EntriesOk(front + [f]) && StatusField(mid, f) == Some(Overlaid(st, front + [f]))
  {
    if !IsEntry(f) {
      ScalarStep(front, f, st);
    } else if MapEntry(f.data).Some? {
      EntryStep(front, f, st);
    }
  }

  /** Decoding is a homomorphism: a message followed by another decodes to the first status overlaid with the second's
      fields, so later scalars win and later map keys override. */
  lemma StatusMerges(a: seq<byte>, b: seq<byte>)
    requires StatusOf(a).Some?
    ensures StatusOf(a + b) ==
            match Fields(b)
            case None => None
            case Some(fs) => if EntriesOk(fs) then Some(Overlaid(StatusOf(a).value, fs)) else None
  {
    WalkConcat(a, b, ZERO, StatusField);
    if Fields(b).Some? {
      FoldOverlays(Fields(b).value, StatusOf(a).value);
    }
  }

  // A field the status does not know.
  predicate Unknown(f: Field) {
    match f
    case Number(n, _) => n !in {1, 5}
    case Bytes(n, _) => n !in {2, 3, 4}
  }

  /** Inserting an unknown field anywhere between fields changes nothing, not even whether the message decodes. */
  lemma UnknownFieldsAreSkipped(a: seq<byte>, field: seq<byte>, b: seq<byte>)
    requires Fields(a).Some? && Fields(field).Some? && (forall i :: 0 <= i < |Fields(field).value| ==> Unknown(Fields(field).value[i]))
    ensures StatusOf(a + field + b) == StatusOf(a + b)
  {
    FieldsConcat(a, field);
    WalkConcat(a + field, b, ZERO, StatusField);
    WalkConcat(a, field, ZERO, StatusField);
    WalkConcat(a, b, ZERO, StatusField);
    if StatusOf(a).Some? {
      FoldUnknown(Fields(field).value, StatusOf(a).value);
    }
  }

  lemma {:induction false} FoldUnknown(fs: seq<Field>, st: Status)
    requires forall i :: 0 <= i < |fs| ==> Unknown(fs[i])
    ensures Fold(fs, st, StatusField) == Some(st)
  {
    if fs != [] {
      assert Unknown(fs[0]);
      FoldUnknown(fs[1..], st);
    }
  }

  // ---------------------------------------------------------------------------------------------
  // The encoder the decoder inverts
  // ---------------------------------------------------------------------------------------------

  predicate Encodable(f: Field) {
    f.num < UINT64 / 8 && match f case Number(_, v) => v < UINT64 case Bytes(_, data) => |data| < UINT64
  }

  function EncodeField(f: Field): seq<byte> {
    match f
    case Number(n, v) => EncodeUvarint(n * 8 + WIRE_VARINT) + EncodeUvarint(v)
    case Bytes(n, data) => EncodeUvarint(n * 8 + WIRE_BYTES) + EncodeUvarint(|data|) + data
  }

  function EncodeFields(fs: seq<Field>): seq<byte> {
    if fs == [] then [] else EncodeField(fs[0]) + EncodeFields(fs[1..])
  }

  lemma Dropped(s: seq<byte>, tail: seq<byte>)
    ensures (s + tail)[|s|..] == tail && (s + tail)[..|s|] == s
  {
  }

  lemma NumberBehind(k: nat, n: nat, v: nat, value: seq<byte>, rest: seq<byte>)
    requires k == n * 8 + WIRE_VARINT
    ensures FieldOf(k, Parsed(v, |value|), value + rest) == Some(Next(Number(n, v), rest))
  {
    Dropped(value, rest);
  }

  lemma BytesBehind(k: nat, n: nat, length: seq<byte>, data: seq<byte>, rest: seq<byte>)
    requires k == n * 8 + WIRE_BYTES
    ensures FieldOf(k, Parsed(|data|, |length|), length + (data + rest)) == Some(Next(Bytes(n, data), rest))
  {
    Dropped(length, data + rest);
    Dropped(data, rest);
  }

  // A key and a varint in front of a message.
  lemma EncodedFront(k: nat, v: nat, tail: seq<byte>, s: seq<byte>, next: Next)
    requires k < UINT64 && v < UINT64 && s == EncodeUvarint(k) + (EncodeUvarint(v) + tail)
    requires FieldOf(k, Parsed(v, |EncodeUvarint(v)|), EncodeUvarint(v) + tail) == Some(next)
    ensures NextField(s) == Some(next)
  {
    var key, value := EncodeUvarint(k), EncodeUvarint(v);
    DecodeOfEncoded(k, value + tail);
    DecodeOfEncoded(v, tail);
    Dropped(key, value + tail);
    NextIs(s, Parsed(k, |key|), Parsed(v, |value|));
  }

  lemma GroupRight(a: seq<byte>, b: seq<byte>, c: seq<byte>, d: seq<byte>)
    ensures (a + b) + c == a + (b + c)
    ensures (a + b + c) + d == a + (b + (c + d))
  {
  }

  lemma NextOfEncoded(f: Field, rest: seq<byte>)
    requires Encodable(f)
    ensures NextField(EncodeField(f) + rest) == Some(Next(f, rest))
  {
    match f
    case Number(n, v) =>
      var k := n * 8 + WIRE_VARINT;
      NumberBehind(k, n, v, EncodeUvarint(v), rest);
      GroupRight(EncodeUvarint(k), EncodeUvarint(v), rest, []);
      EncodedFront(k, v, rest, EncodeField(f) + rest, Next(f, rest));
    case Bytes(n, data) =>
      var k := n * 8 + WIRE_BYTES;
      BytesBehind(k, n, EncodeUvarint(|data|), data, rest);
      GroupRight(EncodeUvarint(k), EncodeUvarint(|data|), data, rest);
      EncodedFront(k, |data|, data + rest, EncodeField(f) + rest, Next(f, rest));
  }

  lemma EncodedStep(f: Field, rest: seq<byte>, fs: seq<Field>)
    requires Encodable(f) && Fields(rest) == Some(fs)
    ensures Fields(EncodeField(f) + rest) == Some([f] + fs)
  {
    NextOfEncoded(f, rest);
    assert |EncodeField(f)| > 0;
    FieldsStep(EncodeField(f) + rest, Next(f, rest), Some(fs));
  }

  /** Every list of fields is read back from its encoding. */
  lemma {:induction false} FieldsOfEncoded(fs: seq<Field>)
    requires forall i :: 0 <= i < |fs| ==> Encodable(fs[i])
    ensures Fields(EncodeFields(fs)) == Some(fs)
  {
    if fs != [] {
      var f, tail := fs[0], fs[1..];
      assert fs == [f] + tail;
      assert Fields(EncodeFields(tail)) == Some(tail) by { FieldsOfEncoded(tail); }
      EncodedStep(f, EncodeFields(tail), tail);
    }
  }

  function EntryFields(e: Entry): seq<Field> {
    [Bytes(1, e.key), Bytes(2, e.value)]
  }

  predicate EntryFits(e: Entry) {
    |e.key| < 0x8000_0000 && |e.value| < 0x8000_0000
  }

  lemma EntryFieldsFold(e: Entry)
    ensures Fold(EntryFields(e), Entry([], []), EntryField) == Some(e)
  {
    var fs := EntryFields(e);
    assert fs[1..] == [Bytes(2, e.value)] && fs[1..][1..] == [];
    assert Fold(fs[1..], Entry(e.key, []), EntryField) == Some(e);
  }

  lemma EntryRoundTrip(e: Entry)
    requires EntryFits(e)
    ensures MapEntry(EncodeFields(EntryFields(e))) == Some(e)
  {
    EntryFieldsFold(e);
    assert Fields(EncodeFields(EntryFields(e))) == Some(EntryFields(e)) by { FieldsOfEncoded(EntryFields(e)); }
  }

  // The map a list of entries stands for.
  function MapOf(es: seq<Entry>): map<seq<byte>, seq<byte>> {
    if es == [] then map[] else var e := es[|es| - 1]; MapOf(es[..|es| - 1])[e.key := e.value]
  }

  function EntryList(es: seq<Entry>): seq<Field> {
    if es == [] then [] else EntryList(es[..|es| - 1]) + [EntryWire(es[|es| - 1])]
  }

  function HeadFields(st: Status): seq<Field>
    requires StatusFits(st)
  {
    [Number(1, SignExtended(st.code)), Bytes(2, st.reason), Bytes(3, st.message)]
  }

  // The fields a status is sent as, its metadata in some order.
  function StatusFields(st: Status, es: seq<Entry>): seq<Field>
    requires StatusFits(st)
  {
    HeadFields(st) + EntryList(es) + [Number(5, SignExtended(st.class_))]
  }

  lemma EntryEncodable(e: Entry)
    requires EntryFits(e)
    ensures Encodable(EntryWire(e))
  {
    var fs := EntryFields(e);
    assert EncodeFields(fs) == EncodeField(fs[0]) + (EncodeField(fs[1]) + EncodeFields(fs[1..][1..]));
    assert fs[1..][1..] == [];
    DecodeOfEncoded(10, []);
    DecodeOfEncoded(18, []);
    DecodeOfEncoded(|e.key|, []);
    DecodeOfEncoded(|e.value|, []);
  }

  // One metadata entry on the wire.
  function EntryWire(e: Entry): Field {
    Bytes(4, EncodeFields(EntryFields(e)))
  }

  lemma {:induction false} EntryListEncodable(es: seq<Entry>)
    requires forall i :: 0 <= i < |es| ==> EntryFits(es[i])
    ensures forall i :: 0 <= i < |EntryList(es)| ==> Encodable(EntryList(es)[i])
  {
    if es != [] {
      EntryListEncodable(es[..|es| - 1]);
      EntryEncodable(es[|es| - 1]);
    }
  }

  lemma {:induction false} FoldOne(f: Field, st: Status)
    ensures Fold([f], st, StatusField) == StatusField(st, f)
  {
  }

  lemma {:induction false} EntryFolds(e: Entry, st: Status)
    requires EntryFits(e)
    ensures Fold([EntryWire(e)], st, StatusField) == Some(st.(metadata := st.metadata[e.key := e.value]))
  {
    EntryRoundTrip(e);
    FoldOne(EntryWire(e), st);
  }

  lemma {:induction false} FoldEntries(st: Status, es: seq<Entry>)
    requires forall i :: 0 <= i < |es| ==> EntryFits(es[i])
    ensures Fold(EntryList(es), st, StatusField) == Some(st.(metadata := st.metadata + MapOf(es)))
  {
    if es == [] {
      assert st.metadata + map[] == st.metadata;
    } else {
      var front, e := es[..|es| - 1], es[|es| - 1];
      var mid := st.(metadata := st.metadata + MapOf(front));
      assert Fold(EntryList(front), st, StatusField) == Some(mid) by { FoldEntries(st, front); }
      FoldConcat(EntryList(front), [EntryWire(e)], st, StatusField);
      assert Fold([EntryWire(e)], mid, StatusField) == Some(mid.(metadata := mid.metadata[e.key := e.value])) by {
        EntryFolds(e, mid);
      }
      Overrides(st.metadata, MapOf(front), e);
    }
  }

  lemma Overrides(a: map<seq<byte>, seq<byte>>, b: map<seq<byte>, seq<byte>>, e: Entry)
    ensures (a + b)[e.key := e.value] == a + b[e.key := e.value]
  {
  }

  predicate StatusFits(st: Status) {
    && -0x8000_0000 <= st.code < 0x8000_0000 && -0x8000_0000 <= st.class_ < 0x8000_0000
    && |st.reason| < UINT64 && |st.message| < UINT64
  }

  lemma {:induction false} FoldHead(st: Status)
    requires StatusFits(st)
    ensures Fold(HeadFields(st), ZERO, StatusField) == Some(Status(st.code, st.reason, st.message, map[], 0))
  {
    var a, b, c := Number(1, SignExtended(st.code)), Bytes(2, st.reason), Bytes(3, st.message);
    FoldConcat([a, b], [c], ZERO, StatusField);
    FoldConcat([a], [b], ZERO, StatusField);
    assert [a, b] == [a] + [b] && [a, b, c] == [a, b] + [c];
    FoldOne(a, ZERO);
    FoldOne(b, Status(st.code, [], [], map[], 0));
    FoldOne(c, Status(st.code, st.reason, [], map[], 0));
  }

  lemma {:induction false} FoldThree<S>(a: seq<Field>, b: seq<Field>, c: seq<Field>, s0: S, s1: S, s2: S, s3: S,
                                        callback: (S, Field) -> Option<S>)
    requires Fold(a, s0, callback) == Some(s1) && Fold(b, s1, callback) == Some(s2) && Fold(c, s2, callback) == Some(s3)
    ensures Fold(a + b + c, s0, callback) == Some(s3)
  {
    FoldConcat(a, b, s0, callback);
    FoldConcat(a + b, c, s0, callback);
  }

  lemma {:induction false} FoldStatus(st: Status, es: seq<Entry>)
    requires StatusFits(st) && MapOf(es) == st.metadata && forall i :: 0 <= i < |es| ==> EntryFits(es[i])
    ensures Fold(StatusFields(st, es), ZERO, StatusField) == Some(st)
  {
    var last := Number(5, SignExtended(st.class_));
    var started := Status(st.code, st.reason, st.message, map[], 0);
    var filled := started.(metadata := st.metadata);
    FoldHead(st);
    assert Fold(EntryList(es), started, StatusField) == Some(filled) by {
      FoldEntries(started, es);
      assert map[] + MapOf(es) == st.metadata;
    }
    assert Fold([last], filled, StatusField) == Some(st) by { FoldOne(last, filled); }
    FoldThree(HeadFields(st), EntryList(es), [last], ZERO, started, filled, st, StatusField);
  }

  /** Every status is read back from its encoding, whatever the order its metadata was written in. */
  lemma {:induction false} StatusRoundTrip(st: Status, es: seq<Entry>)
    requires StatusFits(st) && MapOf(es) == st.metadata && forall i :: 0 <= i < |es| ==> EntryFits(es[i])
    ensures StatusOf(EncodeFields(StatusFields(st, es))) == Some(st)
  {
    EntryListEncodable(es);
    FieldsOfEncoded(StatusFields(st, es));
    FoldStatus(st, es);
  }
}
