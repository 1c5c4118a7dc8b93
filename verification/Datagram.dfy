/**
 Frames over datagrams: one frame to a datagram, behind an 8-byte flow-id unless the flow-id is 0. The reader drops what
 is not of its flow and goes on.
 */
module Datagram {
  import opened Basics
  import opened Bytes
  import opened FrameCodec
  import opened RequestBody
  import opened TicketSlot

  const FLOW_ID_SIZE: nat := 8
  const READ_BUFFER: nat := 65536

  type u64 = x: int | 0 <= x < 0x1_0000_0000_0000_0000

  // ---------------------------------------------------------------------------------------------
  // The flow-id prefix
  // ---------------------------------------------------------------------------------------------

  function WrapFlowId(id: u64, payload: seq<byte>): seq<byte> {
    Put(FLOW_ID_SIZE, id) + payload
  }

  // A received datagram without its prefix, unless it is of another flow.
  function StripFlowId(data: seq<byte>, id: u64): Option<seq<byte>> {
    if |data| < FLOW_ID_SIZE || Get(data[..FLOW_ID_SIZE]) != id then None else Some(data[FLOW_ID_SIZE..])
  }

  function Wrap(id: u64, payload: seq<byte>): seq<byte> {
    if id == 0 then payload else WrapFlowId(id, payload)
  }

  function Strip(id: u64, data: seq<byte>): Option<seq<byte>> {
    if id == 0 then Some(data) else StripFlowId(data, id)
  }

  /** A flow strips exactly what it wrapped: the only datagram that strips to a payload is the wrapped payload. */
  lemma StripInvertsWrap(id: u64, data: seq<byte>, payload: seq<byte>)
    ensures Strip(id, data) == Some(payload) <==> data == Wrap(id, payload)
  {
    if id != 0 {
      Widths();
      if data == Wrap(id, payload) {
        assert data[..FLOW_ID_SIZE] == Put(FLOW_ID_SIZE, id);
        GetPut(FLOW_ID_SIZE, id);
      }
      if Strip(id, data) == Some(payload) {
        PutGet(data[..FLOW_ID_SIZE]);
        assert data == data[..FLOW_ID_SIZE] + data[FLOW_ID_SIZE..];
      }
    }
  }

  /** A datagram of another flow is dropped. */
  lemma ForeignIsDropped(id: u64, other: u64, payload: seq<byte>)
    requires id != 0 && other != id
    ensures Strip(id, WrapFlowId(other, payload)) == None
  {
    Widths();
    assert WrapFlowId(other, payload)[..FLOW_ID_SIZE] == Put(FLOW_ID_SIZE, other);
    GetPut(FLOW_ID_SIZE, other);
  }

  // ---------------------------------------------------------------------------------------------
  // The connection
  // ---------------------------------------------------------------------------------------------

  datatype ReadError = SocketError | BadFrame(error: CodecError)

  datatype WriteError = Unencodable(error: CodecError) | DatagramTooLarge

  datatype Outcome = Outcome(result: Result<Frame, ReadError>, rest: seq<seq<byte>>)

  // What one read sees of a datagram: what fits the buffer.
  function Seen(datagram: seq<byte>): seq<byte> {
    if |datagram| <= READ_BUFFER then datagram else datagram[..READ_BUFFER]
  }

  // The verdict on the first datagram of the flow, and the datagrams left in the socket.
  function ReadOutcome(id: u64, inbox: seq<seq<byte>>, maxBodySize: int): Outcome {
    if inbox == [] then Outcome(Err(SocketError), [])
    else
      match Strip(id, Seen(inbox[0]))
      case None => ReadOutcome(id, inbox[1..], maxBodySize)
      case Some(payload) =>
        match DecodeMessage(payload, maxBodySize)
        case Err(e) => Outcome(Err(BadFrame(e)), inbox[1..])
        case Ok(f) => Outcome(Ok(f), inbox[1..])
  }

  class UdpConn {
    const flowId: u64
    var inbox: seq<seq<byte>>   // datagrams that will arrive before the socket fails
    var sent: seq<seq<byte>>

    constructor (flowId: u64, inbox: seq<seq<byte>>)
      ensures this.flowId == flowId && this.inbox == inbox && sent == []
    {
      this.flowId, this.inbox, sent := flowId, inbox, [];
    }

    method ReadFrame(maxBodySize: int) returns (r: Result<Frame, ReadError>)
      modifies this`inbox
      ensures Outcome(r, inbox) == ReadOutcome(flowId, old(inbox), maxBodySize)
    {
      while inbox != []
        invariant ReadOutcome(flowId, inbox, maxBodySize) == ReadOutcome(flowId, old(inbox), maxBodySize)
        decreases |inbox|
      {
        var data := Seen(inbox[0]);
        inbox := inbox[1..];
        var payload := Strip(flowId, data);
        if payload.Some? {
          var f := DecodeMessage(payload.value, maxBodySize);
          return if f.Err? then Err(BadFrame(f.error)) else Ok(f.value);
        }
      }
      r := Err(SocketError);
    }

    method WriteFrame(h: Header, body: seq<byte>, maxBodySize: int) returns (err: Option<WriteError>)
      modifies this`sent
      ensures err == if |body| > Limit(maxBodySize) then Some(Unencodable(BodyTooLarge))
                     else if HEADER_SIZE + |body| + FLOW_ID_SIZE > READ_BUFFER then Some(DatagramTooLarge)
                     else None
      ensures sent == old(sent) + if err == None then [Wrap(flowId, Message(h, body))] else []
    {
      var buf := Encode(h, body, maxBodySize);
      if buf.Err? {
        return Some(Unencodable(buf.error));
      }
      if |buf.value| + FLOW_ID_SIZE > READ_BUFFER {
        return Some(DatagramTooLarge);
      }
      sent := sent + [Wrap(flowId, buf.value)];
      err := None;
    }
  }

  // ---------------------------------------------------------------------------------------------
  // The whole stack
  // ---------------------------------------------------------------------------------------------

  predicate Foreign(id: u64, inbox: seq<seq<byte>>) {
    forall i :: 0 <= i < |inbox| ==> Strip(id, Seen(inbox[i])) == None
  }

  lemma {:induction false} ForeignAreSkipped(id: u64, foreign: seq<seq<byte>>, rest: seq<seq<byte>>, maxBodySize: int)
    requires Foreign(id, foreign)
    ensures ReadOutcome(id, foreign + rest, maxBodySize) == ReadOutcome(id, rest, maxBodySize)
  {
    if foreign == [] {
      assert foreign + rest == rest;
    } else {
      assert (foreign + rest)[1..] == foreign[1..] + rest;
      assert Strip(id, Seen(foreign[0])) == None;
      assert Foreign(id, foreign[1..]);
      ForeignAreSkipped(id, foreign[1..], rest, maxBodySize);
    }
  }

  // The flags of a client's request: a bit for each optional part that is not empty.
  function RequestFlags(p: Parts): byte {
    (if p.session != [] then FLAG_SESSION else 0) + (if p.requestId != [] then FLAG_REQUEST_ID else 0)
  }

  function RequestHeader(p: Parts, version: byte, number: u32): Header {
    Header(0, version, REQUEST, RequestFlags(p), number, 0)
  }

  // The request fits a datagram and the limits of both ends.
  predicate Sized(p: Parts, maxBodySize: int) {
    |Body(p)| <= Limit(maxBodySize) && HEADER_SIZE + |Body(p)| + FLOW_ID_SIZE <= READ_BUFFER
  }

  /** One frame of the flow is read behind any foreign datagrams, and nothing after it is touched. */
  lemma FrameIsRead(id: u64, h: Header, body: seq<byte>, foreign: seq<seq<byte>>, rest: seq<seq<byte>>, maxBodySize: int)
    requires Sendable(h, body, maxBodySize) && HEADER_SIZE + |body| + FLOW_ID_SIZE <= READ_BUFFER && Foreign(id, foreign)
    ensures ReadOutcome(id, foreign + ([Wrap(id, Message(h, body))] + rest), maxBodySize)
            == Outcome(Ok(Frame(Filled(h, body), body)), rest)
  {
    var datagram := Wrap(id, Message(h, body));
    var inbox := [datagram] + rest;
    ForeignAreSkipped(id, foreign, inbox, maxBodySize);
    assert Seen(datagram) == datagram;
    StripInvertsWrap(id, datagram, Message(h, body));
    DecodeMessageOfEncoded(h, body, maxBodySize);
    assert inbox[0] == datagram && inbox[1..] == rest;
  }

  /** A client's request crosses the whole stack: whatever its four parts within their limits, whatever the flow-id, and
      whatever foreign datagrams come first, the reader recovers its header and, by the header's own flags, all four parts. */
  lemma RequestCrossesTheStack(id: u64, p: Parts, version: byte, number: u32, foreign: seq<seq<byte>>, rest: seq<seq<byte>>,
                               maxBodySize: int)
    requires CheckParts(p) == None && version in {0, 1, 2, 3} && number != 0 && Sized(p, maxBodySize) && Foreign(id, foreign)
    ensures var h := RequestHeader(p, version, number);
            var out := ReadOutcome(id, foreign + ([Wrap(id, Message(h, Body(p)))] + rest), maxBodySize);
            && out == Outcome(Ok(Frame(Filled(h, Body(p)), Body(p))), rest)
            && ParseRequestBody(out.result.value.body, out.result.value.header.flags) == Ok(p)
  {
    var h := RequestHeader(p, version, number);
    FrameIsRead(id, h, Body(p), foreign, rest, maxBodySize);
    assert FlagsMatch(p, RequestFlags(p));
    ParseOfBuilt(p, RequestFlags(p));
  }

  // ---------------------------------------------------------------------------------------------
  // Requests of direct sessions
  // ---------------------------------------------------------------------------------------------

  // A ticket no longer than this has a slot within the limit of a session slot.
  const MAX_SLOT_TICKET: nat := 192

  function DirectParts(operation: seq<byte>, ticket: seq<byte>, payload: seq<byte>): Parts {
    Parts(operation, Slot(ticket), [], payload)
  }

  // A direct session announces a session slot on every request.
  function DirectHeader(version: byte, number: u32): Header {
    Header(0, version, REQUEST, FLAG_SESSION, number, 0)
  }

  /** A direct request can be built exactly if the ticket is at most 192 bytes long. A longer one, which the hello of the
      datagram transports takes up to 256 bytes, is refused on every request. */
  lemma DirectRequestIsBuilt(operation: seq<byte>, ticket: seq<byte>, payload: seq<byte>)
    requires 0 < |operation| <= MAX_OPERATION
    ensures CheckParts(DirectParts(operation, ticket, payload))
            == if |ticket| <= MAX_SLOT_TICKET then None else Some(SessionTooLong)
  {
    SlotLength(ticket);
  }

  /** Why opening a session demands a ticket: a slot is announced whatever the ticket, and the request is read back exactly
      when the slot is not empty. */
  lemma DirectRequestNeedsTicket(operation: seq<byte>, slot: seq<byte>, payload: seq<byte>)
    requires CheckParts(Parts(operation, slot, [], payload)) == None
    ensures var p := Parts(operation, slot, [], payload);
            ParseRequestBody(Body(p), FLAG_SESSION) == Ok(p) <==> slot != []
  {
    ParseOfBuilt(Parts(operation, slot, [], payload), FLAG_SESSION);
  }

  // A request with a session slot and no request id, under its header.
  lemma SlotRequestCrosses(id: u64, p: Parts, version: byte, number: u32, foreign: seq<seq<byte>>, rest: seq<seq<byte>>,
                           maxBodySize: int)
    requires CheckParts(p) == None && p.session != [] && p.requestId == []
    requires version in {1, 2} && number != 0 && Sized(p, maxBodySize) && Foreign(id, foreign)
    ensures var h := DirectHeader(version, number);
            ReadOutcome(id, foreign + ([Wrap(id, Message(h, Body(p)))] + rest), maxBodySize)
            == Outcome(Ok(Frame(Filled(h, Body(p)), Body(p))), rest)
    ensures ParseRequestBody(Body(p), FLAG_SESSION) == Ok(p)
  {
    var h := DirectHeader(version, number);
    assert Sendable(h, Body(p), maxBodySize);
    assert ReadOutcome(id, foreign + ([Wrap(id, Message(h, Body(p)))] + rest), maxBodySize)
        == Outcome(Ok(Frame(Filled(h, Body(p)), Body(p))), rest) by {
      FrameIsRead(id, h, Body(p), foreign, rest, maxBodySize);
    }
    assert FlagsMatch(p, FLAG_SESSION);
    assert ParseRequestBody(Body(p), FLAG_SESSION) == Ok(p) by { ParseOfBuilt(p, FLAG_SESSION); }
  }

  /** A direct request crosses the whole stack: for every ticket with which a session opens, up to the limit of the slot, the
      reader recovers header, operation and payload and, from the slot, the ticket itself. */
  lemma DirectRequestCrossesTheStack(id: u64, operation: seq<byte>, ticket: seq<byte>, payload: seq<byte>, version: byte,
                                     number: u32, foreign: seq<seq<byte>>, rest: seq<seq<byte>>, maxBodySize: int)
    requires 0 < |operation| <= MAX_OPERATION && 0 < |ticket| <= MAX_SLOT_TICKET
    requires version in {1, 2} && number != 0 && Sized(DirectParts(operation, ticket, payload), maxBodySize) && Foreign(id, foreign)
    ensures var h, p := DirectHeader(version, number), DirectParts(operation, ticket, payload);
            var out := ReadOutcome(id, foreign + ([Wrap(id, Message(h, Body(p)))] + rest), maxBodySize);
            && out == Outcome(Ok(Frame(Filled(h, Body(p)), Body(p))), rest)
            && ParseRequestBody(out.result.value.body, out.result.value.header.flags) == Ok(p)
            && Ticket(p.session) == Some(ticket)
  {
    DirectRequestIsBuilt(operation, ticket, payload);
    SlotLength(ticket);
    TicketOfSlot(ticket);
    SlotRequestCrosses(id, DirectParts(operation, ticket, payload), version, number, foreign, rest, maxBodySize);
  }
}
