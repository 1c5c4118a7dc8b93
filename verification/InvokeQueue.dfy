/**
 The bodies that run alone on the reconnect queue: joining it under the lock, draining it into a fresh connection, and
 failing all of it when the channel closes. Between them stands the one-shot claim of each request.
 */
module InvokeQueue {
  import opened Basics

  datatype Outcome = ContextEnded | ClosedError | Sent | NotSent

  /** A queued request. Its result channel has room for one value. */
  class QueuedInvoke {
    const ticket: nat
    var ctxEnded: bool
    var claimed: bool
    var result: seq<Outcome>

    // Nobody sends before claiming.
    predicate Valid()
      reads this
    {
      |result| <= 1 && (!claimed ==> result == [])
    }

    constructor (ticket: nat)
      ensures Valid() && !claimed && result == [] && this.ticket == ticket
    {
      this.ticket := ticket;
      ctxEnded, claimed, result := false, false, [];
    }

    // The compare-and-swap on the claim.
    method Claim() returns (won: bool)
      modifies this`claimed
      ensures won == !old(claimed) && claimed
    {
      won := !claimed;
      claimed := true;
    }

    // A send that never blocks.
    method Send(out: Outcome)
      requires result == []
      modifies this`result
      ensures result == [out]
    {
      result := [out];
    }
  }

  // The requests a drain retransmits: those not claimed and whose context is alive, in order.
  function Live(queue: seq<QueuedInvoke>): seq<nat>
    reads queue
  {
    if queue == [] then []
    else if !queue[0].claimed && !queue[0].ctxEnded then [queue[0].ticket] + Live(queue[1..])
    else Live(queue[1..])
  }

  class Channel {
    const capacity: nat
    var queue: seq<QueuedInvoke>
    var transmitted: seq<nat>      // tickets handed to invokeOnce, in order

    predicate Valid()
      reads this, queue
    {
      && |queue| <= capacity
      && (forall q :: q in queue ==> q.Valid())
      && forall i, j :: 0 <= i < j < |queue| ==> queue[i] != queue[j]
    }

    constructor (capacity: nat)
      ensures Valid() && queue == [] && transmitted == [] && this.capacity == capacity
    {
      this.capacity := capacity;
      queue, transmitted := [], [];
    }

    /** A request joins a queue that has room, at its end; a full queue refuses it at once. */
    method Enqueue(ticket: nat) returns (q: Option<QueuedInvoke>)
      requires Valid()
      modifies this`queue
      ensures Valid() && (q.Some? <==> old(|queue|) < capacity)
      ensures q.Some? ==> fresh(q.value) && !q.value.claimed && q.value.ticket == ticket && queue == old(queue) + [q.value]
      ensures q == None ==> queue == old(queue)
    {
      if |queue| == capacity {
        return None;
      }
      var request := new QueuedInvoke(ticket);
      queue := queue + [request];
      q := Some(request);
    }

    // One transmission and its wait; how it ends is up to the connection.
    method InvokeOnce(q: QueuedInvoke) returns (out: Outcome)
      modifies this`transmitted
      ensures transmitted == old(transmitted) + [q.ticket] && out in {Sent, NotSent}
    {
      transmitted := transmitted + [q.ticket];
      out :| out in {Sent, NotSent};
    }

    // The drain's dealing with one request.
    method DrainOne(q: QueuedInvoke)
      requires q.Valid()
      modifies this`transmitted, q`claimed, q`result
      ensures q.Valid() && q.claimed
      ensures old(q.claimed) ==> q.result == old(q.result)
      ensures !old(q.claimed) ==> |q.result| == 1 && (q.result[0] == ContextEnded <==> q.ctxEnded)
      ensures transmitted == old(transmitted) + if !old(q.claimed) && !q.ctxEnded then [q.ticket] else []
    {
      if q.ctxEnded {
        var won := q.Claim();
        if won {
          q.Send(ContextEnded);
        }
        return;
      }
      var won := q.Claim();
      if !won {
        return;
      }
      var out := InvokeOnce(q);
      q.Send(out);
    }

    /** The drain empties the queue and transmits, in the order they were queued, exactly the requests nobody had claimed
        and whose context was alive. Each request is dealt with. */
    method DrainQueue()
      requires Valid()
      modifies this`queue, this`transmitted, queue
      ensures queue == []
      ensures transmitted == old(transmitted) + old(Live(queue))
      ensures forall k :: 0 <= k < |old(queue)| ==> Drained(old(queue)[k])
    {
      ghost var all, i := queue, 0;
      while queue != []
        invariant 0 <= i <= |all| && queue == all[i..]
        invariant transmitted + Live(queue) == old(transmitted) + old(Live(queue))
        invariant forall k :: i <= k < |all| ==> unchanged(all[k])
        invariant forall k :: 0 <= k < i ==> Drained(all[k])
        decreases |queue|
      {
        var q := queue[0];
        assert q == all[i] && q.Valid();
        ghost var live := Live(queue[1..]);
        queue := queue[1..];
        i := i + 1;
        DrainOne(q);
        assert q !in queue;
        assert Live(queue) == live;
        assert Drained(q);
      }
    }

    /** Closing the channel fails every queued request nobody had claimed, once, and leaves the others alone. */
    method FailAllQueued()
      requires Valid()
      modifies this`queue, queue
      ensures queue == []
      ensures forall k :: 0 <= k < |old(queue)| ==> Failed(old(queue)[k])
    {
      ghost var all, i := queue, 0;
      while queue != []
        invariant 0 <= i <= |all| && queue == all[i..]
        invariant forall k :: i <= k < |all| ==> unchanged(all[k])
        invariant forall k :: 0 <= k < i ==> Failed(all[k])
        decreases |queue|
      {
        var q := queue[0];
        assert q == all[i] && q.Valid();
        queue := queue[1..];
        i := i + 1;
        var won := q.Claim();
        if won {
          q.Send(ClosedError);
        }
        assert Failed(q);
      }
    }
  }

  // Dealt with by the drain: claimed for good; a request claimed before gets nothing more, any other exactly one result,
  // which says whether its context had ended.
  twostate predicate Drained(q: QueuedInvoke)
    reads q
  {
    && q.Valid() && q.claimed && q.ctxEnded == old(q.ctxEnded)
    && if old(q.claimed) then q.result == old(q.result)
       else |q.result| == 1 && (q.result[0] == ContextEnded <==> q.ctxEnded)
  }

  // Dealt with by the closing of the channel.
  twostate predicate Failed(q: QueuedInvoke)
    reads q
  {
    && q.Valid() && q.claimed && q.ctxEnded == old(q.ctxEnded)
    && q.result == if old(q.claimed) then old(q.result) else [ClosedError]
  }
}
