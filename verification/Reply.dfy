/**
 The envelope of a reply: a success carries data, a failure carries a status and data. An empty status is a legal envelope
 and stands for the zero status.
 */
module Reply {
  import opened Basics
  import opened Bytes
  import opened StatusDecoding

  datatype ReplyError = TooShort | DataCut | StatusCut | BadStatus

  datatype Reply = Reply(data: seq<byte>, status: Option<Status>)

  // The data in front of s, behind its length; what follows it is ignored.
  function DataOf(s: seq<byte>): Option<seq<byte>> {
    if |s| < 4 || |s| < 4 + Get(s[0..4]) then None else Some(s[4..4 + Get(s[0..4])])
  }

  function DecodeReply(b: seq<byte>): Result<Reply, ReplyError> {
    if |b| < 5 then Err(TooShort)
    else if b[0] == 0 then
      match DataOf(b[1..])
      case None => Err(DataCut)
      case Some(data) => Ok(Reply(data, None))
    else
      var n := Get(b[1..5]);
      if |b| < 5 + n then Err(StatusCut)
      else
        var status := if n > 0 then StatusOf(b[5..5 + n]) else Some(ZERO);
        if status == None then Err(BadStatus)
        else
          match DataOf(b[5 + n..])
          case None => Err(DataCut)
          case Some(data) => Ok(Reply(data, status))
  }

  // A length in four bytes and the bytes.
  function Block(s: seq<byte>): seq<byte> {
    Put(4, |s| % 0x1_0000_0000) + s
  }

  lemma CutOfBlock(data: seq<byte>, tail: seq<byte>)
    requires |data| < 0x1_0000_0000
    ensures var s := Block(data) + tail;
            |s| >= 4 && Get(s[0..4]) == |data| && s[4..4 + |data|] == data && s[4 + |data|..] == tail
  {
    Widths();
    GetPut(4, |data|);
    assert (Block(data) + tail)[0..4] == Put(4, |data|);
  }

  lemma BlockOfCut(s: seq<byte>)
    requires |s| >= 4 && |s| >= 4 + Get(s[0..4])
    ensures Get(s[0..4]) < 0x1_0000_0000
    ensures s == Block(s[4..4 + Get(s[0..4])]) + s[4 + Get(s[0..4])..]
  {
    Widths();
    PutGet(s[0..4]);
  }

  /** The successes: exactly a zero byte and a block of data, and whatever follows. */
  lemma SuccessIsBlock(b: seq<byte>, data: seq<byte>)
    ensures DecodeReply(b) == Ok(Reply(data, None)) <==>
            |data| < 0x1_0000_0000 && |b| >= 5 + |data| && b[..5 + |data|] == [0] + Block(data)
  {
    if |data| < 0x1_0000_0000 && |b| >= 5 + |data| && b[..5 + |data|] == [0] + Block(data) {
      assert b[1..] == Block(data) + b[5 + |data|..];
      CutOfBlock(data, b[5 + |data|..]);
      assert b[0] == b[..5 + |data|][0];
    }
    if DecodeReply(b) == Ok(Reply(data, None)) {
      BlockOfCut(b[1..]);
      assert b == [0] + b[1..];
    }
  }

  // The status a block of status bytes stands for.
  function StatusBlock(bytes: seq<byte>): Option<Status> {
    if bytes == [] then Some(ZERO) else StatusOf(bytes)
  }

  lemma FailureOfBlocks(hasError: byte, bytes: seq<byte>, data: seq<byte>, tail: seq<byte>)
    requires hasError != 0 && |bytes| < 0x1_0000_0000 && |data| < 0x1_0000_0000
    ensures DecodeReply([hasError] + Block(bytes) + Block(data) + tail) ==
            if StatusBlock(bytes) == None then Err(BadStatus) else Ok(Reply(data, StatusBlock(bytes)))
  {
    var b, rest := [hasError] + Block(bytes) + Block(data) + tail, Block(data) + tail;
    assert b[1..] == Block(bytes) + rest;
    CutOfBlock(bytes, rest);
    assert b[1..5] == b[1..][0..4];
    assert b[5..5 + |bytes|] == bytes && b[5 + |bytes|..] == rest;
    CutOfBlock(data, tail);
  }

  // How an accepted failure divides: its status bytes, its data, and what follows them.
  datatype Pieces = Pieces(bytes: seq<byte>, data: seq<byte>, tail: seq<byte>)

  lemma StatusOfFailure(b: seq<byte>) returns (bytes: seq<byte>, rest: seq<byte>)
    requires DecodeReply(b).Ok? && b[0] != 0
    ensures b == [b[0]] + (Block(bytes) + rest) && |bytes| < 0x1_0000_0000
    ensures DataOf(rest).Some? && DecodeReply(b) == Ok(Reply(DataOf(rest).value, StatusBlock(bytes))) && StatusBlock(bytes).Some?
  {
    var front, n := b[1..], Get(b[1..5]);
    assert front[0..4] == b[1..5];
    bytes, rest := b[5..5 + n], b[5 + n..];
    assert front[4..4 + n] == bytes && front[4 + n..] == rest;
    BlockOfCut(front);
    assert b == [b[0]] + front;
  }

  lemma BlocksOfFailure(b: seq<byte>) returns (p: Pieces)
    requires DecodeReply(b).Ok? && b[0] != 0
    ensures b == [b[0]] + Block(p.bytes) + Block(p.data) + p.tail
    ensures |p.bytes| < 0x1_0000_0000 && |p.data| < 0x1_0000_0000
    ensures DecodeReply(b) == Ok(Reply(p.data, StatusBlock(p.bytes))) && StatusBlock(p.bytes).Some?
  {
    var bytes, rest := StatusOfFailure(b);
    var m := Get(rest[0..4]);
    p := Pieces(bytes, rest[4..4 + m], rest[4 + m..]);
    assert rest == Block(p.data) + p.tail && m < 0x1_0000_0000 by { BlockOfCut(rest); }
    Regroup([b[0]], Block(bytes), Block(p.data), p.tail);
  }

  lemma Regroup(a: seq<byte>, b: seq<byte>, c: seq<byte>, d: seq<byte>)
    ensures a + (b + (c + d)) == a + b + c + d
  {
  }

  /** The failures: exactly a non-zero byte, a block holding a decodable status (or nothing), a block of data, and whatever
      follows. A reply carries a status exactly when its first byte is not zero. */
  lemma FailureIsBlocks(b: seq<byte>)
    ensures DecodeReply(b).Ok? && b[0] != 0 <==>
            exists bytes, data, tail ::
              && |b| > 0 && b[0] != 0 && |bytes| < 0x1_0000_0000 && |data| < 0x1_0000_0000
              && b == [b[0]] + Block(bytes) + Block(data) + tail && StatusBlock(bytes).Some?
    ensures DecodeReply(b).Ok? ==> (DecodeReply(b).value.status.Some? <==> b[0] != 0)
  {
    if DecodeReply(b).Ok? && b[0] != 0 {
      var p := BlocksOfFailure(b);
      assert b == [b[0]] + Block(p.bytes) + Block(p.data) + p.tail;
    }
    forall bytes, data, tail |
      && |b| > 0 && b[0] != 0 && |bytes| < 0x1_0000_0000 && |data| < 0x1_0000_0000
      && b == [b[0]] + Block(bytes) + Block(data) + tail && StatusBlock(bytes).Some?
      ensures DecodeReply(b).Ok?
    {
      FailureOfBlocks(b[0], bytes, data, tail);
    }
  }

  /** A failure sent with a status and data is read back as both. */
  lemma FailureRoundTrip(st: Status, es: seq<Entry>, data: seq<byte>, tail: seq<byte>)
    requires StatusFits(st) && MapOf(es) == st.metadata && (forall i :: 0 <= i < |es| ==> EntryFits(es[i]))
    requires |EncodeFields(StatusFields(st, es))| < 0x1_0000_0000 && |data| < 0x1_0000_0000
    ensures DecodeReply([1] + Block(EncodeFields(StatusFields(st, es))) + Block(data) + tail) == Ok(Reply(data, Some(st)))
  {
    var bytes := EncodeFields(StatusFields(st, es));
    StatusRoundTrip(st, es);
    FailureOfBlocks(1, bytes, data, tail);
  }
}
