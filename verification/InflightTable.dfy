/**
 The bodies that run alone on the table of calls in flight: registering a call, handing a reply to the call it answers, and
 cancelling them all. A call is taken out of the table before anything is sent to it, so each gets at most one result.
 */
module InflightTable {
  import opened Basics
  import opened Bytes
  import opened Reply
  import opened StatusDecoding

  datatype Cause = ProtocolError | OtherError

  // Whether the caller may try again: a protocol error is passed on as it is, anything else becomes a network error.
  datatype Loss = NotRetryable | Retryable

  datatype CallResult = Data(data: seq<byte>) | Rejected(status: Status) | Lost(loss: Loss)

  datatype Fatal = WrongVersion | BadReply(error: ReplyError)

  /** A call in flight. Its result channel has room for one value. */
  class PendingCall {
    var result: seq<CallResult>

    constructor ()
      ensures result == []
    {
      result := [];
    }

    // A send that never blocks.
    method Send(r: CallResult)
      requires result == []
      modifies this
      ensures result == [r]
    {
      result := [r];
    }
  }

  // What a reply's body means for the call it answers.
  function ResultOf(r: Reply): CallResult {
    match r.status
    case Some(st) => Rejected(st)
    case None => Data(r.data)
  }

  function LossOf(cause: Option<Cause>): Loss {
    if cause == Some(ProtocolError) then NotRetryable else Retryable
  }

  class Inflight<K(==)> {
    var table: map<K, PendingCall>

    // Each call is registered once and has heard nothing yet.
    ghost predicate Valid()
      reads this, table.Values
    {
      && (forall k :: k in table ==> table[k].result == [])
      && forall k, l :: k in table && l in table && k != l ==> table[k] != table[l]
    }

    constructor ()
      ensures Valid() && table == map[]
    {
      table := map[];
    }

    /** Registering a call; a call under a number still in use is pushed out unanswered. */
    method Store(key: K) returns (call: PendingCall)
      requires Valid()
      modifies this
      ensures Valid() && fresh(call) && call.result == [] && table == old(table)[key := call]
    {
      call := new PendingCall();
      table := table[key := call];
    }

    method Delete(key: K)
      requires Valid()
      modifies this
      ensures Valid() && table == old(table) - {key}
    {
      table := table - {key};
    }

    /** A reply of the wrong version or shape is fatal and reaches nobody; any other reaches exactly the call registered
        under its number, if it is still there, and takes it out of the table. */
    method DispatchResponse(key: K, version: byte, expected: byte, body: seq<byte>) returns (fatal: Option<Fatal>)
      requires Valid()
      modifies this, table.Values
      ensures Valid()
      ensures fatal == if version != expected then Some(WrongVersion)
                       else if DecodeReply(body).Err? then Some(BadReply(DecodeReply(body).error))
                       else None
      ensures fatal.Some? ==> table == old(table)
      ensures fatal == None ==> table == old(table) - {key}
      ensures fatal == None && key in old(table) ==> old(table)[key].result == [ResultOf(DecodeReply(body).value)]
      ensures forall k :: k in old(table) && (k != key || fatal.Some?) ==> old(table)[k].result == []
    {
      if version != expected {
        return Some(WrongVersion);
      }
      var reply := DecodeReply(body);
      if reply.Err? {
        return Some(BadReply(reply.error));
      }
      if key in table {
        var call := table[key];
        table := table - {key};
        call.Send(ResultOf(reply.value));
      }
      fatal := None;
    }

    /** Cancelling empties the table: every call in it gets exactly the one result. The order of the visit does not matter. */
    method FailAllInflight(cause: Option<Cause>)
      requires Valid()
      modifies this, table.Values
      ensures Valid() && table == map[]
      ensures forall k :: k in old(table) ==> old(table)[k].result == [Lost(LossOf(cause))]
    {
      var r := Lost(LossOf(cause));
      ghost var all := table;
      while table.Keys != {}
        invariant table.Keys <= all.Keys && forall k :: k in table ==> table[k] == all[k]
        invariant forall k :: k in all && k in table ==> all[k].result == []
        invariant forall k :: k in all && k !in table ==> all[k].result == [r]
        decreases |table.Keys|
      {
        var key :| key in table.Keys;
        var call := table[key];
        table := table - {key};
        call.Send(r);
      }
    }
  }
}
