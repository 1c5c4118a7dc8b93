/**
 Frames on a byte stream. A writer appends the bytes of each frame; a reader sees them in chunks of any size, reads exactly
 a header, checks it, and then reads exactly the body it announces.
 */
module StreamFraming {
  import opened Basics
  import opened Bytes
  import opened FrameCodec

  datatype ReadError = Eof | UnexpectedEof | Malformed(error: CodecError)

  /** The reading end of a connection: what the peer sent and we have not read yet. */
  class Source {
    var rest: seq<byte>
    var stalls: nat   // how many more times a read may come back with nothing

    constructor (stream: seq<byte>, stalls: nat)
      ensures rest == stream
    {
      this.rest, this.stalls := stream, stalls;
    }

    // One read of at most n bytes: any non-empty chunk, sometimes nothing, and the end once all is read.
    method Read(n: nat) returns (chunk: seq<byte>, eof: bool)
      requires n > 0
      modifies this
      ensures old(rest) == chunk + rest && |chunk| <= n
      ensures eof ==> rest == []
      ensures chunk == [] && !eof ==> stalls < old(stalls)
      ensures stalls <= old(stalls)
    {
      var k :| 0 <= k <= n && k <= |rest|;
      if k == 0 && rest != [] {
        if stalls > 0 {
          stalls := stalls - 1;
          return [], false;
        }
        k := 1;
      }
      chunk, rest := rest[..k], rest[k..];
      eof :| eof ==> rest == [];
      if chunk == [] {
        eof := true;
      }
    }
  }

  /** The writing end of a connection. */
  class Sink {
    var sent: seq<byte>

    constructor ()
      ensures sent == []
    {
      sent := [];
    }

    method Write(bytes: seq<byte>)
      modifies this
      ensures sent == old(sent) + bytes
    {
      sent := sent + bytes;
    }
  }

  // ---------------------------------------------------------------------------------------------
  // Reading and writing one frame
  // ---------------------------------------------------------------------------------------------

  function EndOf(got: nat): ReadError {
    if got == 0 then Eof else UnexpectedEof
  }

  /** Fills a buffer of n bytes, however the chunks fall; a stream that ends first is used up. */
  method ReadFull(src: Source, n: nat) returns (r: Result<seq<byte>, ReadError>)
    modifies src
    ensures |old(src.rest)| >= n ==> r == Ok(old(src.rest)[..n]) && src.rest == old(src.rest)[n..]
    ensures |old(src.rest)| < n ==> r == Err(EndOf(|old(src.rest)|)) && src.rest == []
  {
    var buf, eof := [], false;
    while |buf| < n && !eof
      invariant |buf| <= n && old(src.rest) == buf + src.rest
      invariant eof ==> src.rest == []
      decreases !eof, n - |buf|, src.stalls
    {
      var chunk;
      chunk, eof := src.Read(n - |buf|);
      buf := buf + chunk;
    }
    r := if |buf| == n then Ok(buf) else Err(EndOf(|buf|));
  }

  datatype Outcome = Outcome(result: Result<Frame, ReadError>, rest: seq<byte>)

  // What reading one frame off a stream yields, and what is left of the stream.
  function ReadOutcome(stream: seq<byte>, maxBodySize: int): Outcome {
    if |stream| < HEADER_SIZE then Outcome(Err(EndOf(|stream|)), [])
    else
      match DecodeHeader(stream[..HEADER_SIZE], maxBodySize)
      case Err(e) => Outcome(Err(Malformed(e)), stream[HEADER_SIZE..])
      case Ok(h) =>
        if |stream| < HEADER_SIZE + h.length then Outcome(Err(EndOf(|stream| - HEADER_SIZE)), [])
        else
          Outcome(Ok(Frame(h, stream[HEADER_SIZE..HEADER_SIZE + h.length])), stream[HEADER_SIZE + h.length..])
  }

  method ReadFrame(src: Source, maxBodySize: int) returns (r: Result<Frame, ReadError>)
    modifies src
    ensures ReadOutcome(old(src.rest), maxBodySize) == Outcome(r, src.rest)
  {
    ghost var stream := src.rest;
    var buf := ReadFull(src, HEADER_SIZE);
    if buf.Err? {
      return Err(buf.error);
    }
    var h := DecodeHeader(buf.value, maxBodySize);
    if h.Err? {
      return Err(Malformed(h.error));
    }
    if h.value.length == 0 {
      assert stream[HEADER_SIZE..HEADER_SIZE + h.value.length] == [];
      return Ok(Frame(h.value, []));
    }
    var body := ReadFull(src, h.value.length);
    if body.Err? {
      return Err(body.error);
    }
    r := Ok(Frame(h.value, body.value));
    assert stream[HEADER_SIZE..][..h.value.length] == stream[HEADER_SIZE..HEADER_SIZE + h.value.length];
    assert stream[HEADER_SIZE..][h.value.length..] == stream[HEADER_SIZE + h.value.length..];
  }

  /** Header and body go out in two writes; together they are the encoded message. */
  method WriteFrame(dst: Sink, h: Header, body: seq<byte>, maxBodySize: int) returns (err: Option<CodecError>)
    modifies dst
    ensures err == if |body| > Limit(maxBodySize) then Some(BodyTooLarge) else None
    ensures dst.sent == old(dst.sent) + if err == None then Message(h, body) else []
  {
    if |body| > Limit(maxBodySize) {
      return Some(BodyTooLarge);
    }
    var sent := h.(length := |body| % 0x1_0000_0000);
    if sent.magic == 0 {
      sent := sent.(magic := MAGIC);
    }
    if sent.version == 0 {
      sent := sent.(version := VERSION);
    }
    var buf := new byte[HEADER_SIZE];
    PutHeader(buf, sent);
    assert buf[..] == HeaderBytes(Filled(h, body));
    dst.Write(buf[..]);
    if |body| > 0 {
      dst.Write(body);
    }
    err := None;
  }

  // ---------------------------------------------------------------------------------------------
  // Whole streams
  // ---------------------------------------------------------------------------------------------

  datatype Received = Received(frames: seq<Frame>, end: ReadError)

  // The frames a stream holds, up to the error that ends it.
  function ReadStream(stream: seq<byte>, maxBodySize: int): Received
    decreases |stream|
  {
    var out := ReadOutcome(stream, maxBodySize);
    match out.result
    case Err(e) => Received([], e)
    case Ok(f) =>
      var more := ReadStream(out.rest, maxBodySize);
      Received([f] + more.frames, more.end)
  }

  /** The read loop: frame after frame until the first error. */
  method ReadLoop(src: Source, maxBodySize: int) returns (frames: seq<Frame>, end: ReadError)
    modifies src
    ensures Received(frames, end) == ReadStream(old(src.rest), maxBodySize)
  {
    frames := [];
    while true
      invariant ReadStream(old(src.rest), maxBodySize)
                == var more := ReadStream(src.rest, maxBodySize); Received(frames + more.frames, more.end)
      decreases |src.rest|
    {
      var r := ReadFrame(src, maxBodySize);
      if r.Err? {
        return frames, r.error;
      }
      frames := frames + [r.value];
    }
  }

  // What a sequence of writes puts on the stream.
  function Wire(frames: seq<Frame>): seq<byte> {
    if frames == [] then [] else Message(frames[0].header, frames[0].body) + Wire(frames[1..])
  }

  predicate AllSendable(frames: seq<Frame>, maxBodySize: int) {
    forall i :: 0 <= i < |frames| ==> Sendable(frames[i].header, frames[i].body, maxBodySize)
  }

  // Each frame with its defaults filled in.
  function AllFilled(frames: seq<Frame>): seq<Frame> {
    if frames == [] then []
    else [Frame(Filled(frames[0].header, frames[0].body), frames[0].body)] + AllFilled(frames[1..])
  }

  lemma SentHeaderIsRead(h: Header, body: seq<byte>, stream: seq<byte>, maxBodySize: int)
    requires Sendable(h, body, maxBodySize) && |stream| >= HEADER_SIZE
    requires stream[..HEADER_SIZE] == HeaderBytes(Filled(h, body))
    ensures DecodeHeader(stream[..HEADER_SIZE], maxBodySize) == Ok(Filled(h, body))
  {
    assert stream[..HEADER_SIZE] == HeaderBytes(Filled(h, body)) + [];
    RawHeaderOfBytes(Filled(h, body), []);
  }

  /** One frame in front of anything is read off whole, and nothing of what follows is touched. */
  lemma ReadOneFrame(h: Header, body: seq<byte>, tail: seq<byte>, maxBodySize: int)
    requires Sendable(h, body, maxBodySize)
    ensures ReadOutcome(Message(h, body) + tail, maxBodySize) == Outcome(Ok(Frame(Filled(h, body), body)), tail)
  {
    var stream, sent := Message(h, body) + tail, Filled(h, body);
    assert stream[..HEADER_SIZE] == HeaderBytes(sent);
    SentHeaderIsRead(h, body, stream, maxBodySize);
    assert stream[HEADER_SIZE..HEADER_SIZE + |body|] == body;
    assert stream[HEADER_SIZE + |body|..] == tail;
  }

  // The first of several frames is read, and reading goes on with the rest.
  lemma FirstIsRead(frames: seq<Frame>, tail: seq<byte>, maxBodySize: int)
    requires frames != [] && AllSendable(frames, maxBodySize)
    ensures var more := ReadStream(Wire(frames[1..]) + tail, maxBodySize);
            ReadStream(Wire(frames) + tail, maxBodySize)
            == Received([Frame(Filled(frames[0].header, frames[0].body), frames[0].body)] + more.frames, more.end)
  {
    var first, rest := frames[0], Wire(frames[1..]) + tail;
    assert Wire(frames) + tail == Message(first.header, first.body) + rest;
    ReadOneFrame(first.header, first.body, rest, maxBodySize);
  }

  /** Frames written in a row are read back in a row, and then reading goes on with whatever follows them. */
  lemma {:induction false} StreamSplits(frames: seq<Frame>, tail: seq<byte>, maxBodySize: int)
    requires AllSendable(frames, maxBodySize)
    ensures ReadStream(Wire(frames) + tail, maxBodySize).frames == AllFilled(frames) + ReadStream(tail, maxBodySize).frames
    ensures ReadStream(Wire(frames) + tail, maxBodySize).end == ReadStream(tail, maxBodySize).end
  {
    var rest := ReadStream(tail, maxBodySize);
    if frames == [] {
      assert Wire(frames) + tail == tail;
      assert AllFilled(frames) + rest.frames == rest.frames;
    } else {
      var f := Frame(Filled(frames[0].header, frames[0].body), frames[0].body);
      var whole, more := ReadStream(Wire(frames) + tail, maxBodySize), ReadStream(Wire(frames[1..]) + tail, maxBodySize);
      assert whole == Received([f] + more.frames, more.end) by { FirstIsRead(frames, tail, maxBodySize); }
      assert more.frames == AllFilled(frames[1..]) + rest.frames && more.end == rest.end by {
        StreamSplits(frames[1..], tail, maxBodySize);
      }
      assert [f] + (AllFilled(frames[1..]) + rest.frames) == AllFilled(frames) + rest.frames;
    }
  }

  /** A strict prefix of a frame yields no frame. The end looks clean when nothing was cut short, that is when the prefix is
      empty, but also when it is exactly the header of a frame whose body never came. */
  lemma CutFrameYieldsNothing(h: Header, body: seq<byte>, n: nat, maxBodySize: int)
    requires Sendable(h, body, maxBodySize) && n < |Message(h, body)|
    ensures ReadStream(Message(h, body)[..n], maxBodySize)
            == Received([], if n == 0 || n == HEADER_SIZE then Eof else UnexpectedEof)
  {
    var stream := Message(h, body)[..n];
    if n >= HEADER_SIZE {
      assert stream[..HEADER_SIZE] == HeaderBytes(Filled(h, body));
      SentHeaderIsRead(h, body, stream, maxBodySize);
    }
    assert ReadOutcome(stream, maxBodySize).result == Err(EndOf(if n < HEADER_SIZE then n else n - HEADER_SIZE));
  }

  /** A stream of frames cut inside its last one delivers all the others, exactly. */
  lemma CutStreamDeliversTheRest(frames: seq<Frame>, last: Frame, n: nat, maxBodySize: int)
    requires AllSendable(frames + [last], maxBodySize) && n < |Message(last.header, last.body)|
    ensures ReadStream(Wire(frames) + Message(last.header, last.body)[..n], maxBodySize)
            == Received(AllFilled(frames), if n == 0 || n == HEADER_SIZE then Eof else UnexpectedEof)
  {
    assert AllSendable(frames, maxBodySize) by {
      assert forall i :: 0 <= i < |frames| ==> frames[i] == (frames + [last])[i];
    }
    assert Sendable(last.header, last.body, maxBodySize) by { assert (frames + [last])[|frames|] == last; }
    CutFrameYieldsNothing(last.header, last.body, n, maxBodySize);
    StreamSplits(frames, Message(last.header, last.body)[..n], maxBodySize);
  }

  /** Reading a frame off a stream accepts exactly what decoding it as a datagram accepts, and reads the same frame. */
  lemma StreamAgreesWithDatagram(stream: seq<byte>, maxBodySize: int)
    ensures ReadOutcome(stream, maxBodySize).result.Ok? <==> Decode(stream, maxBodySize).Ok?
    ensures Decode(stream, maxBodySize).Ok? ==> ReadOutcome(stream, maxBodySize).result.value == Decode(stream, maxBodySize).value
  {
    if |stream| >= HEADER_SIZE {
      var p := stream[..HEADER_SIZE];
      assert p[0..4] == stream[0..4] && p[8..12] == stream[8..12] && p[12..16] == stream[12..16];
      assert RawHeader(p) == RawHeader(stream);
    }
  }
}
