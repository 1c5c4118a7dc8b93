/**
 The body of a request frame: the operation's name, an optional session slot, an optional idempotency key and the payload.
 Each part but the payload is preceded by its length in two bytes; which optional parts are there is told by the header's
 flags, not by the body.
 */
module RequestBody {
  import opened Basics
  import opened Bytes

  const MAX_OPERATION: nat := 4096
  const MAX_SESSION: nat := 256
  const MAX_REQUEST_ID: nat := 128

  datatype BuildError = EmptyOperation | OperationTooLong | SessionTooLong | RequestIdTooLong

  datatype ParseError =
    | NoOperationLength
    | OperationOverLimit
    | OperationCut
    | NoSessionLength
    | SessionCut
    | NoRequestIdLength
    | RequestIdCut

  datatype Parts = Parts(operation: seq<byte>, session: seq<byte>, requestId: seq<byte>, payload: seq<byte>)

  predicate HasSession(flags: byte) {
    flags % 2 == 1
  }

  predicate HasRequestId(flags: byte) {
    flags / 2 % 2 == 1
  }

  // ---------------------------------------------------------------------------------------------
  // Building
  // ---------------------------------------------------------------------------------------------

  function Segment(s: seq<byte>): (r: seq<byte>)
    ensures |r| == 2 + |s|
  {
    Put(2, |s| % 0x1_0000) + s
  }

  function Optional(part: seq<byte>, present: bool): seq<byte> {
    if present then Segment(part) else []
  }

  // The body that carries the parts, with the optional ones present as told.
  function Layout(p: Parts, session: bool, requestId: bool): seq<byte> {
    Segment(p.operation) + Optional(p.session, session) + Optional(p.requestId, requestId) + p.payload
  }

  // The body as built: an empty optional part is left out.
  function Body(p: Parts): seq<byte> {
    Layout(p, p.session != [], p.requestId != [])
  }

  function CheckParts(p: Parts): Option<BuildError> {
    if p.operation == [] then Some(EmptyOperation)
    else if |p.operation| > MAX_OPERATION then Some(OperationTooLong)
    else if |p.session| > MAX_SESSION then Some(SessionTooLong)
    else if |p.requestId| > MAX_REQUEST_ID then Some(RequestIdTooLong)
    else None
  }

  // Writes a length and a string at `at`.
  method PutSegment(out: array<byte>, at: nat, s: seq<byte>)
    requires at + 2 + |s| <= out.Length
    modifies out
    ensures out[..] == Spliced(old(out[..]), at, Segment(s))
  {
    PutBigEndian(out, at, 2, |s| % 0x1_0000);
    Copy(out, at + 2, s);
  }

  // Writes the next part and moves the offset past it.
  method AppendSegment(out: array<byte>, at: nat, s: seq<byte>) returns (next: nat)
    requires at + 2 + |s| <= out.Length
    modifies out
    ensures next == at + 2 + |s| && out[..next] == old(out[..at]) + Segment(s)
  {
    PutSegment(out, at, s);
    next := at + 2 + |s|;
  }

  method BuildRequestBody(p: Parts) returns (r: Result<seq<byte>, BuildError>)
    ensures r == match CheckParts(p) case Some(e) => Err(e) case None => Ok(Body(p))
  {
    var bad := CheckParts(p);
    if bad.Some? {
      return Err(bad.value);
    }
    var n := 2 + |p.operation| + |p.payload|;
    if p.session != [] {
      n := n + 2 + |p.session|;
    }
    if p.requestId != [] {
      n := n + 2 + |p.requestId|;
    }
    var out := new byte[n];
    PutSegment(out, 0, p.operation);
    var at := 2 + |p.operation|;
    assert out[..at] == Segment(p.operation);
    if p.session != [] {
      at := AppendSegment(out, at, p.session);
    }
    assert out[..at] == Segment(p.operation) + Optional(p.session, p.session != []);
    if p.requestId != [] {
      at := AppendSegment(out, at, p.requestId);
    }
    assert out[..at] == Segment(p.operation) + Optional(p.session, p.session != []) + Optional(p.requestId, p.requestId != []);
    ghost var front := out[..at];
    Copy(out, at, p.payload);
    assert out[..] == front + p.payload;
    r := Ok(out[..]);
  }

  // ---------------------------------------------------------------------------------------------
  // Parsing
  // ---------------------------------------------------------------------------------------------

  // A string read off the front, and what follows it.
  datatype Cut = Cut(part: seq<byte>, rest: seq<byte>)

  // An optional part: nothing when its flag is off.
  function CutOptional(s: seq<byte>, present: bool, noLength: ParseError, cut: ParseError): Result<Cut, ParseError> {
    if !present then Ok(Cut([], s))
    else if |s| < 2 then Err(noLength)
    else
      var n := Get(s[0..2]);
      if |s| < 2 + n then Err(cut) else Ok(Cut(s[2..2 + n], s[2 + n..]))
  }

  function ParseRequestBody(body: seq<byte>, flags: byte): Result<Parts, ParseError> {
    if |body| < 2 then Err(NoOperationLength)
    else
      var n := Get(body[0..2]);
      if n > MAX_OPERATION then Err(OperationOverLimit)
      else if |body| < 2 + n then Err(OperationCut)
      else
        match CutOptional(body[2 + n..], HasSession(flags), NoSessionLength, SessionCut)
        case Err(e) => Err(e)
        case Ok(session) =>
          match CutOptional(session.rest, HasRequestId(flags), NoRequestIdLength, RequestIdCut)
          case Err(e) => Err(e)
          case Ok(requestId) => Ok(Parts(body[2..2 + n], session.part, requestId.part, requestId.rest))
  }

  // ---------------------------------------------------------------------------------------------
  // What the parser accepts
  // ---------------------------------------------------------------------------------------------

  lemma CutOfSegment(part: seq<byte>, rest: seq<byte>)
    requires |part| < 0x1_0000
    ensures var s := Segment(part) + rest;
            Get(s[0..2]) == |part| && s[2..2 + |part|] == part && s[2 + |part|..] == rest
  {
    Widths();
    GetPut(2, |part|);
    assert (Segment(part) + rest)[0..2] == Put(2, |part|);
  }

  lemma SegmentOfCut(s: seq<byte>)
    requires |s| >= 2 && |s| >= 2 + Get(s[0..2])
    ensures Get(s[0..2]) < 0x1_0000
    ensures s == Segment(s[2..2 + Get(s[0..2])]) + s[2 + Get(s[0..2])..]
  {
    Widths();
    PutGet(s[0..2]);
  }

  predicate Fits(part: seq<byte>, present: bool) {
    |part| < 0x1_0000 && (present || part == [])
  }

  lemma OptionalIsCut(part: seq<byte>, rest: seq<byte>, present: bool, noLength: ParseError, cut: ParseError)
    requires Fits(part, present)
    ensures CutOptional(Optional(part, present) + rest, present, noLength, cut) == Ok(Cut(part, rest))
  {
    if present {
      CutOfSegment(part, rest);
    } else {
      assert [] + rest == rest;
    }
  }

  lemma CutIsOptional(s: seq<byte>, present: bool, noLength: ParseError, cut: ParseError)
    requires CutOptional(s, present, noLength, cut).Ok?
    ensures var c := CutOptional(s, present, noLength, cut).value;
            s == Optional(c.part, present) + c.rest && Fits(c.part, present)
  {
    if present {
      SegmentOfCut(s);
    }
  }

  // A layout, part by part.
  lemma LayoutPieces(p: Parts, session: bool, requestId: bool)
    ensures Layout(p, session, requestId)
            == Segment(p.operation) + (Optional(p.session, session) + (Optional(p.requestId, requestId) + p.payload))
  {
  }

  lemma ParseOfLayout(p: Parts, flags: byte)
    requires |p.operation| <= MAX_OPERATION && Fits(p.session, HasSession(flags)) && Fits(p.requestId, HasRequestId(flags))
    ensures ParseRequestBody(Layout(p, HasSession(flags), HasRequestId(flags)), flags) == Ok(p)
  {
    var tail := Optional(p.requestId, HasRequestId(flags)) + p.payload;
    LayoutPieces(p, HasSession(flags), HasRequestId(flags));
    CutOfSegment(p.operation, Optional(p.session, HasSession(flags)) + tail);
    OptionalIsCut(p.session, tail, HasSession(flags), NoSessionLength, SessionCut);
    OptionalIsCut(p.requestId, p.payload, HasRequestId(flags), NoRequestIdLength, RequestIdCut);
  }

  lemma LayoutOfParsed(body: seq<byte>, flags: byte)
    requires ParseRequestBody(body, flags).Ok?
    ensures var p := ParseRequestBody(body, flags).value;
            && body == Layout(p, HasSession(flags), HasRequestId(flags))
            && |p.operation| <= MAX_OPERATION && Fits(p.session, HasSession(flags)) && Fits(p.requestId, HasRequestId(flags))
  {
    var p, rest := ParseRequestBody(body, flags).value, body[2 + Get(body[0..2])..];
    var session := CutOptional(rest, HasSession(flags), NoSessionLength, SessionCut).value;
    SegmentOfCut(body);
    CutIsOptional(rest, HasSession(flags), NoSessionLength, SessionCut);
    CutIsOptional(session.rest, HasRequestId(flags), NoRequestIdLength, RequestIdCut);
    LayoutPieces(p, HasSession(flags), HasRequestId(flags));
  }

  /** The bodies the parser accepts, and what it reads from each: exactly the layouts with the parts the flags announce. */
  lemma ParseIsLayout(body: seq<byte>, flags: byte, p: Parts)
    ensures ParseRequestBody(body, flags) == Ok(p) <==>
            && body == Layout(p, HasSession(flags), HasRequestId(flags))
            && |p.operation| <= MAX_OPERATION && Fits(p.session, HasSession(flags)) && Fits(p.requestId, HasRequestId(flags))
  {
    if |p.operation| <= MAX_OPERATION && Fits(p.session, HasSession(flags)) && Fits(p.requestId, HasRequestId(flags)) {
      ParseOfLayout(p, flags);
    }
    if ParseRequestBody(body, flags).Ok? {
      LayoutOfParsed(body, flags);
    }
  }

  // The flags announce exactly the optional parts that are there.
  predicate FlagsMatch(p: Parts, flags: byte) {
    (HasSession(flags) <==> p.session != []) && (HasRequestId(flags) <==> p.requestId != [])
  }

  /** What was built is parsed back, all four parts, exactly when the flags match the parts that are not empty. */
  lemma ParseOfBuilt(p: Parts, flags: byte)
    requires CheckParts(p) == None
    ensures ParseRequestBody(Body(p), flags) == Ok(p) <==> FlagsMatch(p, flags)
  {
    ParseIsLayout(Body(p), flags, p);
  }

  /** What was parsed is built back, byte for byte, exactly when it is within the builder's limits and no part announced by
      the flags is empty. */
  lemma BuildOfParsed(body: seq<byte>, flags: byte)
    requires ParseRequestBody(body, flags).Ok?
    ensures var p := ParseRequestBody(body, flags).value;
            CheckParts(p) == None && Body(p) == body <==>
            p.operation != [] && |p.session| <= MAX_SESSION && |p.requestId| <= MAX_REQUEST_ID && FlagsMatch(p, flags)
  {
    var p := ParseRequestBody(body, flags).value;
    ParseIsLayout(body, flags, p);
  }
}
