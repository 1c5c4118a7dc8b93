/**
 Frames: a 16-byte header followed by a body, parsed by two disciplines. `Decode` reads a datagram and tolerates trailing
 bytes; `DecodeMessage` reads a message whose boundary is known, so its length must be exact.
 */
module FrameCodec {
  import opened Basics
  import opened Bytes

  const HEADER_SIZE: nat := 16
  const MAGIC: u32 := 0x41544C53
  const VERSION: byte := 1
  const MAX_BODY_SIZE: nat := 2097152
  const REQUEST: byte := 1
  const RESPONSE: byte := 2
  const NOTIFY: byte := 3
  const FLAG_SESSION: byte := 1
  const FLAG_REQUEST_ID: byte := 2

  type u32 = x: int | 0 <= x < 0x1_0000_0000

  datatype Header = Header(magic: u32, version: byte, kind: byte, flags: byte, number: u32, length: u32)

  datatype CodecError =
    | Incomplete            // more bytes may still arrive
    | BadMagic
    | BadNumber
    | BadKind
    | BadVersion
    | BadFlags
    | BodyTooLarge
    | ShortMessage
    | LengthMismatch

  datatype Frame = Frame(header: Header, body: seq<byte>)

  // ---------------------------------------------------------------------------------------------
  // Header
  // ---------------------------------------------------------------------------------------------

  function Limit(maxBodySize: int): nat {
    if maxBodySize <= 0 then MAX_BODY_SIZE else maxBodySize
  }

  // The first check the header fails, if any.
  function CheckHeader(h: Header, maxBodySize: int): Option<CodecError> {
    if h.magic != MAGIC then Some(BadMagic)
    else if h.number == 0 then Some(BadNumber)
    else if h.kind !in {REQUEST, RESPONSE, NOTIFY} then Some(BadKind)
    else if h.version !in {1, 2, 3} then Some(BadVersion)
    else if h.flags / 4 != 0 then Some(BadFlags)
    else if h.length > Limit(maxBodySize) then Some(BodyTooLarge)
    else None
  }

  // The 16 bytes of a header on the wire.
  function HeaderBytes(h: Header): (s: seq<byte>)
    ensures |s| == HEADER_SIZE
  {
    Put(4, h.magic) + [h.version, h.kind, h.flags, 0] + Put(4, h.number) + Put(4, h.length)
  }

  function RawHeader(s: seq<byte>): Header
    requires |s| >= HEADER_SIZE
  {
    U32Fits(s);
    Header(Get(s[0..4]), s[4], s[5], s[6], Get(s[8..12]), Get(s[12..16]))
  }

  lemma U32Fits(s: seq<byte>)
    requires |s| >= HEADER_SIZE
    ensures Get(s[0..4]) < 0x1_0000_0000 && Get(s[8..12]) < 0x1_0000_0000 && Get(s[12..16]) < 0x1_0000_0000
  {
    Widths();
    PutGet(s[0..4]);
    PutGet(s[8..12]);
    PutGet(s[12..16]);
  }

  /** Reading a header back: every field, whatever bytes follow it. */
  lemma RawHeaderOfBytes(h: Header, rest: seq<byte>)
    ensures RawHeader(HeaderBytes(h) + rest) == h
  {
    var s := HeaderBytes(h) + rest;
    Widths();
    assert s[0..4] == Put(4, h.magic) && s[8..12] == Put(4, h.number) && s[12..16] == Put(4, h.length);
    GetPut(4, h.magic);
    GetPut(4, h.number);
    GetPut(4, h.length);
  }

  /** Writing back the header read: only the padding byte is lost. */
  lemma BytesOfRawHeader(s: seq<byte>)
    requires |s| >= HEADER_SIZE
    ensures HeaderBytes(RawHeader(s)) == s[..HEADER_SIZE][7 := 0]
  {
    PutGet(s[0..4]);
    PutGet(s[8..12]);
    PutGet(s[12..16]);
  }

  /** PutHeader fills the first 16 bytes of the buffer and leaves the rest. */
  method PutHeader(out: array<byte>, h: Header)
    requires out.Length >= HEADER_SIZE
    modifies out
    ensures out[..] == HeaderBytes(h) + old(out[HEADER_SIZE..])
  {
    ghost var before := out[..];
    PutBigEndian(out, 0, 4, h.magic);
    out[4], out[5], out[6], out[7] := h.version, h.kind, h.flags, 0;
    PutBigEndian(out, 8, 4, h.number);
    PutBigEndian(out, 12, 4, h.length);
    assert out[16..] == before[16..];
    assert out[..16] == HeaderBytes(h);
    assert out[..] == out[..16] + out[16..];
  }

  // ---------------------------------------------------------------------------------------------
  // Encoding
  // ---------------------------------------------------------------------------------------------

  // The header as sent: zero magic and version stand for the defaults, and the length is that of the body in 32 bits.
  function Filled(h: Header, body: seq<byte>): Header {
    h.(magic := if h.magic == 0 then MAGIC else h.magic,
       version := if h.version == 0 then VERSION else h.version,
       length := |body| % 0x1_0000_0000)
  }

  function Message(h: Header, body: seq<byte>): (s: seq<byte>)
    ensures |s| == HEADER_SIZE + |body|
  {
    HeaderBytes(Filled(h, body)) + body
  }

  method Encode(h: Header, body: seq<byte>, maxBodySize: int) returns (r: Result<seq<byte>, CodecError>)
    ensures r == if |body| > Limit(maxBodySize) then Err(BodyTooLarge) else Ok(Message(h, body))
  {
    if |body| > Limit(maxBodySize) {
      return Err(BodyTooLarge);
    }
    var sent := h;
    if sent.magic == 0 {
      sent := sent.(magic := MAGIC);
    }
    if sent.version == 0 {
      sent := sent.(version := VERSION);
    }
    sent := sent.(length := |body| % 0x1_0000_0000);
    var out := new byte[HEADER_SIZE + |body|];
    PutHeader(out, sent);
    assert out[..HEADER_SIZE] == HeaderBytes(sent);
    Copy(out, HEADER_SIZE, body);
    assert sent == Filled(h, body);
    assert out[..] == HeaderBytes(sent) + body;
    r := Ok(out[..]);
  }

  // ---------------------------------------------------------------------------------------------
  // Decoding
  // ---------------------------------------------------------------------------------------------

  function DecodeHeader(datagram: seq<byte>, maxBodySize: int): (r: Result<Header, CodecError>)
    ensures r.Ok? ==> |datagram| >= HEADER_SIZE && r.value == RawHeader(datagram)
  {
    if |datagram| < HEADER_SIZE then Err(Incomplete)
    else
      match CheckHeader(RawHeader(datagram), maxBodySize)
      case Some(e) => Err(e)
      case None => Ok(RawHeader(datagram))
  }

  function Decode(datagram: seq<byte>, maxBodySize: int): Result<Frame, CodecError> {
    match DecodeHeader(datagram, maxBodySize)
    case Err(e) => Err(e)
    case Ok(h) =>
      if h.length > 0 && |datagram| < HEADER_SIZE + h.length then Err(Incomplete)
      else if h.length == 0 then Ok(Frame(h, []))
      else Ok(Frame(h, datagram[HEADER_SIZE..HEADER_SIZE + h.length]))
  }

  function DecodeMessage(message: seq<byte>, maxBodySize: int): Result<Frame, CodecError> {
    if |message| < HEADER_SIZE then Err(ShortMessage)
    else
      match DecodeHeader(message, maxBodySize)
      case Err(e) => Err(e)
      case Ok(h) =>
        if |message| - HEADER_SIZE != h.length then Err(LengthMismatch)
        else if h.length == 0 then Ok(Frame(h, []))
        else Ok(Frame(h, message[HEADER_SIZE..]))
  }

  // ---------------------------------------------------------------------------------------------
  // Round trips
  // ---------------------------------------------------------------------------------------------

  // The condition under which a frame that was sent can be read back: a header that passes the checks, and a body whose
  // length fits its 32-bit field.
  predicate Sendable(h: Header, body: seq<byte>, maxBodySize: int) {
    |body| < 0x1_0000_0000 && CheckHeader(Filled(h, body), maxBodySize) == None
  }

  /** A frame is read back, defaults filled in, exactly when it is sendable: the encoder itself checks only the length. */
  lemma DecodeMessageOfEncoded(h: Header, body: seq<byte>, maxBodySize: int)
    ensures DecodeMessage(Message(h, body), maxBodySize) == Ok(Frame(Filled(h, body), body)) <==> Sendable(h, body, maxBodySize)
    ensures DecodeMessage(Message(h, body), maxBodySize).Ok? <==> Sendable(h, body, maxBodySize)
  {
    RawHeaderOfBytes(Filled(h, body), body);
    assert Message(h, body)[HEADER_SIZE..] == body;
  }

  /** An accepted message is the encoding of what it was decoded to, up to the padding byte. */
  lemma EncodeOfDecodedMessage(message: seq<byte>, maxBodySize: int)
    requires DecodeMessage(message, maxBodySize).Ok?
    ensures var f := DecodeMessage(message, maxBodySize).value;
            Message(f.header, f.body) == message[7 := 0] && |f.body| <= Limit(maxBodySize)
  {
    var f := DecodeMessage(message, maxBodySize).value;
    assert f.body == message[HEADER_SIZE..];
    assert Filled(f.header, f.body) == f.header;
    BytesOfRawHeader(message);
    assert message == message[..HEADER_SIZE] + message[HEADER_SIZE..];
  }

  /** `DecodeMessage` accepts exactly what `Decode` accepts without trailing bytes, and reads the same frame. */
  lemma MessageIsExactDatagram(s: seq<byte>, maxBodySize: int)
    ensures DecodeMessage(s, maxBodySize).Ok? <==>
            Decode(s, maxBodySize).Ok? && |s| == HEADER_SIZE + |Decode(s, maxBodySize).value.body|
    ensures DecodeMessage(s, maxBodySize).Ok? ==> DecodeMessage(s, maxBodySize) == Decode(s, maxBodySize)
  {
    if DecodeMessage(s, maxBodySize).Ok? {
      assert s[HEADER_SIZE..HEADER_SIZE + RawHeader(s).length] == s[HEADER_SIZE..];
    }
  }

  /** Every verdict of `Decode` but `Incomplete` is settled by the bytes seen: what follows them changes nothing. */
  lemma DecodeIgnoresTail(s: seq<byte>, tail: seq<byte>, maxBodySize: int)
    requires Decode(s, maxBodySize) != Err(Incomplete)
    ensures Decode(s + tail, maxBodySize) == Decode(s, maxBodySize)
  {
    var t := s + tail;
    assert t[0..4] == s[0..4] && t[8..12] == s[8..12] && t[12..16] == s[12..16];
    var h := RawHeader(s);
    if Decode(s, maxBodySize).Ok? && h.length > 0 {
      assert t[HEADER_SIZE..HEADER_SIZE + h.length] == s[HEADER_SIZE..HEADER_SIZE + h.length];
    }
  }

  /** A strict prefix of a message is incomplete as a datagram and malformed as a message. */
  lemma PrefixIsNoFrame(message: seq<byte>, n: nat, maxBodySize: int)
    requires DecodeMessage(message, maxBodySize).Ok? && n < |message|
    ensures Decode(message[..n], maxBodySize) == Err(Incomplete)
    ensures DecodeMessage(message[..n], maxBodySize) == Err(if n < HEADER_SIZE then ShortMessage else LengthMismatch)
  {
    if n >= HEADER_SIZE {
      var p := message[..n];
      assert p[0..4] == message[0..4] && p[8..12] == message[8..12] && p[12..16] == message[12..16];
      assert RawHeader(p) == RawHeader(message);
    }
  }
}
