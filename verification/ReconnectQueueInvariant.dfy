/** Every step of the reconnect-queue machine keeps its invariant. */
module ReconnectQueueInvariant {
  import opened Basics
  import opened ReconnectQueue

  lemma InitInv(cfg: Config)
    ensures Inv(Init(cfg))
  {
  }

  // Caller c moves on: what the move must respect so that every other caller's facts stay.
  predicate MoveOk(lock: LockOwner, lock': LockOwner, state: ConnState, call: Call, call': Call, c: nat) {
    && (CallHolds(call'.pc) && !CallHolds(call.pc) ==> lock == Free)
    && lock' == (if CallHolds(call'.pc) then ByCaller(c) else if CallHolds(call.pc) then Free else lock)
    && (call'.pc.MayEnqueue? || call'.pc.Enqueued? ==> state != Connected)
    && (call.pc.Returned? ==> call'.pc == call.pc)
  }

  lemma MoveLocks(lock: LockOwner, lock': LockOwner, state: ConnState, calls: seq<Call>, c: nat, call': Call)
    requires CallLockInv(lock, calls) && QueuersInv(state, calls)
    requires c < |calls| && MoveOk(lock, lock', state, calls[c], call', c)
    ensures CallLockInv(lock', calls[c := call']) && QueuersInv(state, calls[c := call'])
  {
  }

  lemma MoveOwners(calls: seq<Call>, requests: seq<Request>, c: nat, call': Call)
    requires CallsInv(calls, requests) && OwnersInv(requests, calls)
    requires c < |calls| && call'.ticket == calls[c].ticket && CallOwns(c, call', requests)
    requires calls[c].pc.Returned? ==> call'.pc == calls[c].pc
    ensures CallsInv(calls[c := call'], requests) && OwnersInv(requests, calls[c := call'])
  {
  }

  lemma MoveGates(calls: seq<Call>, wire: seq<Tx>, bound: int, c: nat, call': Call)
    requires GatesInv(calls, bound) && GateWireInv(wire, calls) && c < |calls|
    requires calls[c].pc.Returned? ==> call'.pc == calls[c].pc && call'.gate == calls[c].gate
    requires call'.gate.Some? ==> call'.gate.value <= bound
    ensures GatesInv(calls[c := call'], bound) && GateWireInv(wire, calls[c := call'])
  {
  }

  // A caller's own step that leaves requests, queue and wire alone.
  lemma MovePreserves(s: State, c: nat, call': Call, lock': LockOwner)
    requires Inv(s) && c < |s.calls|
    requires MoveOk(s.lock, lock', s.state, s.calls[c], call', c)
    requires call'.ticket == s.calls[c].ticket && CallOwns(c, call', s.requests)
    requires s.calls[c].pc.Returned? ==> call'.gate == s.calls[c].gate
    requires call'.gate.Some? ==> call'.gate.value <= DrainBound(s)
    ensures Inv(s.(calls := s.calls[c := call'], lock := lock'))
  {
    MoveLocks(s.lock, lock', s.state, s.calls, c, call');
    MoveOwners(s.calls, s.requests, c, call');
    MoveGates(s.calls, s.wire, DrainBound(s), c, call');
  }

  lemma DeliveredBy(s: State, t: nat)
    requires Inv(s) && Available(s, t)
    ensures s.requests[t].sent[0] == TimedOut ==> s.requests[t].claimedBy == Some(Watch)
    ensures s.requests[t].sent[0] != Cancelled
  {
    assert RequestInv(t, s.requests[t], s.sup, s.sweep, Popped(s));
  }

  lemma LockingCallStep(s: State, c: nat, act: CallAct)
    requires Inv(s) && CallEnabled(s, c, act)
    requires act in {ReadBypass, TakeLock, ReleaseLock, CtxEnds}
    ensures Inv(CallApply(s, c, act))
  {
    var call := s.calls[c];
    assert CallOwns(c, call, s.requests);
    match act
    case ReadBypass =>
      MovePreserves(s, c, call.(pc := if s.bypass || call.failFast then Once(CheckState) else PastBypass), s.lock);
    case TakeLock => MovePreserves(s, c, call.(pc := HoldsLock), ByCaller(c));
    case ReleaseLock => MovePreserves(s, c, call.(pc := Awaiting(call.pc.ticket)), Free);
    case CtxEnds => MovePreserves(s, c, call.(ctxDone := true), s.lock);
  }

  lemma ReadStateStep(s: State, c: nat)
    requires Inv(s) && CallEnabled(s, c, ReadState)
    ensures Inv(CallApply(s, c, ReadState))
  {
    var call := s.calls[c];
    assert CallOwns(c, call, s.requests);
    if s.state == Reconnecting {
      MovePreserves(s, c, call.(pc := MayEnqueue), s.lock);
    } else {
      assert s.state == Connected ==> s.queue == [] && DrainBound(s) == |s.requests|;
      var gate := if s.state == Connected then Some(|s.requests|) else None;
      MovePreserves(s, c, call.(pc := Once(CheckState), gate := gate), Free);
    }
  }

  lemma ReturnStep(s: State, c: nat, act: CallAct)
    requires Inv(s) && CallEnabled(s, c, act) && act in {Receive, GiveUp, SeeClosed}
    ensures Inv(CallApply(s, c, act))
  {
    var call := s.calls[c];
    assert CallOwns(c, call, s.requests);
    if Available(s, call.pc.ticket) && act != GiveUp {
      DeliveredBy(s, call.pc.ticket);
      MovePreserves(s, c, call.(pc := Returned(s.requests[call.pc.ticket].sent[0])), s.lock);
    } else {
      MovePreserves(s, c, call.(pc := Returned(if act == GiveUp then GraceExpired else ClosedError)), s.lock);
    }
  }

  lemma OnceCallStep(s: State, c: nat, ok: bool)
    requires Inv(s) && CallEnabled(s, c, OnceStep(ok))
    ensures Inv(CallApply(s, c, OnceStep(ok)))
  {
    var call := s.calls[c];
    assert CallOwns(c, call, s.requests);
    match OnceNext(s, call.pc.pc, ok)
    case Go(next) => MovePreserves(s, c, call.(pc := Once(next)), s.lock);
    case Stop(out) =>
      MovePreserves(s, c, call.(pc := Returned(out)), s.lock);
      if out == Transmitted {
        DirectTx(SetPc(s, c, Returned(out)), c, OnceEpoch(call.pc.pc));
      }
  }

  // A frame written by a caller takes no part in what is said of drained ones.
  lemma DirectWire(wire: seq<Tx>, tx: Tx, requests: seq<Request>, bound: int, cfg: Config, epoch: nat, hooked: set<nat>)
    requires DrainedInv(wire, requests, bound) && DrainEpochsInv(wire, cfg, epoch, hooked) && Fifo(wire) && tx.Direct?
    ensures DrainedInv(wire + [tx], requests, bound) && DrainEpochsInv(wire + [tx], cfg, epoch, hooked) && Fifo(wire + [tx])
  {
  }

  lemma DirectTx(s: State, c: nat, epoch: nat)
    requires Inv(s) && c < |s.calls| && s.calls[c].pc.Returned?
    ensures Inv(s.(wire := s.wire + [Direct(c, epoch)]))
  {
    DirectWire(s.wire, Direct(c, epoch), s.requests, DrainBound(s), s.cfg, s.epoch, s.hooked);
    assert GateWireInv(s.wire + [Direct(c, epoch)], s.calls);
  }

  lemma EnqueueRefused(s: State, c: nat)
    requires Inv(s) && CallEnabled(s, c, Enqueue) && |s.queue| >= s.cfg.queueSize
    ensures Inv(CallApply(s, c, Enqueue))
  {
    assert CallOwns(c, s.calls[c], s.requests);
    MovePreserves(s, c, s.calls[c].(pc := Returned(QueueFull)), Free);
  }

  lemma EnqueueAccepted(s: State, c: nat)
    requires Inv(s) && CallEnabled(s, c, Enqueue) && |s.queue| < s.cfg.queueSize
    ensures Inv(CallApply(s, c, Enqueue))
  {
    var t := |s.requests|;
    var call' := s.calls[c].(pc := Enqueued(t), ticket := Some(t));
    assert CallOwns(c, s.calls[c], s.requests);
    EnqueueOwners(s.calls, s.requests, c, call');
    MoveLocks(s.lock, s.lock, s.state, s.calls, c, call');
    MoveGates(s.calls, s.wire, DrainBound(s), c, call');
    EnqueueRequests(s, c);
    assert s.state != Connected && !SupHolds(s.sup);
    AssembleEnqueue(s, CallApply(s, c, Enqueue));
  }

  // One request more, at the end of the queue.
  lemma AssembleEnqueue(s: State, s': State)
    requires Inv(s) && s' == s.(calls := s'.calls, requests := s'.requests, queue := s'.queue)
    requires |s'.requests| == |s.requests| + 1 && |s'.queue| == |s.queue| + 1 && s.state != Connected && !SupHolds(s.sup)
    requires QueueInv(s.cfg.queueSize, s'.queue, |s'.requests|)
    requires CallLockInv(s.lock, s'.calls) && QueuersInv(s.state, s'.calls)
    requires CallsInv(s'.calls, s'.requests) && OwnersInv(s'.requests, s'.calls)
    requires RequestsInv(s'.requests, s.sup, s.sweep, Popped(s)) && HandInv(s'.requests, s.sup, s.sweep, Popped(s))
    requires DrainedInv(s.wire, s'.requests, DrainBound(s))
    requires GatesInv(s'.calls, DrainBound(s)) && GateWireInv(s.wire, s'.calls)
    ensures Inv(s')
  {
  }

  lemma EnqueueStep(s: State, c: nat)
    requires Inv(s) && CallEnabled(s, c, Enqueue)
    ensures Inv(CallApply(s, c, Enqueue))
  {
    if |s.queue| < s.cfg.queueSize {
      EnqueueAccepted(s, c);
    } else {
      EnqueueRefused(s, c);
    }
  }

  lemma EnqueueOwners(calls: seq<Call>, requests: seq<Request>, c: nat, call': Call)
    requires CallsInv(calls, requests) && OwnersInv(requests, calls)
    requires c < |calls| && calls[c].pc == MayEnqueue
    requires call' == calls[c].(pc := Enqueued(|requests|), ticket := Some(|requests|))
    ensures var requests' := requests + [Request(c, None, [], Sleeping)];
            CallsInv(calls[c := call'], requests') && OwnersInv(requests', calls[c := call'])
  {
    assert CallOwns(c, calls[c], requests);
  }

  lemma EnqueueRequests(s: State, c: nat)
    requires RequestsInv(s.requests, s.sup, s.sweep, Popped(s)) && HandInv(s.requests, s.sup, s.sweep, Popped(s))
    requires |s.queue| <= |s.requests|
    ensures var requests' := s.requests + [Request(c, None, [], Sleeping)];
            && RequestsInv(requests', s.sup, s.sweep, Popped(s)) && HandInv(requests', s.sup, s.sweep, Popped(s))
            && (DrainedInv(s.wire, s.requests, DrainBound(s)) ==> DrainedInv(s.wire, requests', DrainBound(s)))
            && (QueueInv(s.cfg.queueSize, s.queue, |s.requests|) && |s.queue| < s.cfg.queueSize ==>
                  QueueInv(s.cfg.queueSize, s.queue + [|s.requests|], |requests'|))
  {
  }

  // What a step on one request must respect: the caller stays, and a claim once won stays won.
  predicate SettleOk(r: Request, r': Request) {
    && r'.caller == r.caller
    && (r.claimedBy.Some? ==> r'.claimedBy == r.claimedBy)
  }

  lemma CancelClaimStep(s: State, c: nat)
    requires Inv(s) && CallEnabled(s, c, CancelClaim)
    ensures Inv(CallApply(s, c, CancelClaim))
  {
    var call := s.calls[c];
    var t := call.pc.ticket;
    assert CallOwns(c, call, s.requests);
    if Unclaimed(s, t) {
      CancelPreserves(s, c, t);
    } else {
      MovePreserves(s, c, call.(pc := GraceWait(t)), s.lock);
    }
  }

  lemma CancelPreserves(s: State, c: nat, t: nat)
    requires Inv(s) && c < |s.calls| && s.calls[c].pc == Awaiting(t) && t < |s.requests| && Unclaimed(s, t)
    ensures Inv(SetPc(Claim(s, t, Caller), c, Returned(Cancelled)))
  {
    var call' := s.calls[c].(pc := Returned(Cancelled));
    var r' := s.requests[t].(claimedBy := Some(Caller));
    var s' := s.(calls := s.calls[c := call'], requests := s.requests[t := r']);
    assert CallLockInv(s.lock, s'.calls) && QueuersInv(s.state, s'.calls) by {
      MoveLocks(s.lock, s.lock, s.state, s.calls, c, call');
    }
    assert GatesInv(s'.calls, DrainBound(s)) && GateWireInv(s.wire, s'.calls) by {
      MoveGates(s.calls, s.wire, DrainBound(s), c, call');
    }
    assert CallsInv(s'.calls, s'.requests) && OwnersInv(s'.requests, s'.calls) by {
      CancelOwners(s.calls, s.requests, c, t);
    }
    assert RequestsInv(s'.requests, s.sup, s.sweep, Popped(s)) by {
      SettleRequests(s, t, r', s.sup, s.sweep);
    }
    assert DrainedInv(s.wire, s'.requests, DrainBound(s)) by { SettleDrained(s, t, r'); }
    assert HandInv(s'.requests, s.sup, s.sweep, Popped(s)) by { SettleHand(s, t, r'); }
    Assemble(s, s');
  }

  // A step of callers and requests keeps the invariant when it keeps the parts that mention them.
  lemma Assemble(s: State, s': State)
    requires Inv(s) && s' == s.(calls := s'.calls, requests := s'.requests) && |s'.requests| == |s.requests|
    requires CallLockInv(s.lock, s'.calls) && QueuersInv(s.state, s'.calls)
    requires CallsInv(s'.calls, s'.requests) && OwnersInv(s'.requests, s'.calls)
    requires RequestsInv(s'.requests, s.sup, s.sweep, Popped(s)) && HandInv(s'.requests, s.sup, s.sweep, Popped(s))
    requires DrainedInv(s.wire, s'.requests, DrainBound(s))
    requires GatesInv(s'.calls, DrainBound(s)) && GateWireInv(s.wire, s'.calls)
    ensures Inv(s')
  {
  }

  lemma CancelOwners(calls: seq<Call>, requests: seq<Request>, c: nat, t: nat)
    requires CallsInv(calls, requests) && OwnersInv(requests, calls)
    requires c < |calls| && calls[c].pc == Awaiting(t) && t < |requests| && requests[t].claimedBy == None
    ensures var calls' := calls[c := calls[c].(pc := Returned(Cancelled))];
            var requests' := requests[t := requests[t].(claimedBy := Some(Caller))];
            CallsInv(calls', requests') && OwnersInv(requests', calls')
  {
    assert CallOwns(c, calls[c], requests);
    assert RequestOwned(t, requests[t], calls);
  }

  // Request t is settled further, perhaps with a move of the drain or the close sweep.
  predicate OthersUntouched(s: State, t: nat, sup': SupPc, sweep': SweepPc) {
    && (forall u, who :: 0 <= u < |s.requests| && u != t ==> Owing(sup', sweep', u, who) == Owing(s.sup, s.sweep, u, who))
    && (forall u :: 0 <= u < |s.requests| && u != t ==> InHand(sup', sweep', u) == InHand(s.sup, s.sweep, u))
  }

  lemma SettleRequests(s: State, t: nat, r': Request, sup': SupPc, sweep': SweepPc)
    requires RequestsInv(s.requests, s.sup, s.sweep, Popped(s)) && t < |s.requests|
    requires RequestInv(t, r', sup', sweep', Popped(s)) && OthersUntouched(s, t, sup', sweep')
    ensures RequestsInv(s.requests[t := r'], sup', sweep', Popped(s))
  {
  }

  lemma SettleDrained(s: State, t: nat, r': Request)
    requires DrainedInv(s.wire, s.requests, DrainBound(s)) && t < |s.requests| && SettleOk(s.requests[t], r')
    ensures DrainedInv(s.wire, s.requests[t := r'], DrainBound(s))
  {
  }

  lemma SettleHand(s: State, t: nat, r': Request)
    requires HandInv(s.requests, s.sup, s.sweep, Popped(s)) && t < |s.requests| && SettleOk(s.requests[t], r')
    requires r'.claimedBy in {None, Some(Watch), Some(Caller)} || r'.claimedBy == s.requests[t].claimedBy
    ensures HandInv(s.requests[t := r'], s.sup, s.sweep, Popped(s))
  {
  }

  lemma SettleOwners(calls: seq<Call>, requests: seq<Request>, t: nat, r': Request)
    requires CallsInv(calls, requests) && OwnersInv(requests, calls) && t < |requests| && SettleOk(requests[t], r')
    requires r'.claimedBy == Some(Caller) ==> requests[t].claimedBy == Some(Caller)
    ensures CallsInv(calls, requests[t := r']) && OwnersInv(requests[t := r'], calls)
  {
    assert RequestOwned(t, requests[t], calls);
  }

  // A step on one request that no caller takes part in.
  lemma SettlePreserves(s: State, t: nat, r': Request)
    requires Inv(s) && t < |s.requests| && SettleOk(s.requests[t], r')
    requires r'.claimedBy == Some(Caller) ==> s.requests[t].claimedBy == Some(Caller)
    requires RequestInv(t, r', s.sup, s.sweep, Popped(s))
    requires r'.claimedBy in {None, Some(Watch)} || r'.claimedBy == s.requests[t].claimedBy
    ensures Inv(s.(requests := s.requests[t := r']))
  {
    var s' := s.(requests := s.requests[t := r']);
    assert CallsInv(s.calls, s'.requests) && OwnersInv(s'.requests, s.calls) by {
      SettleOwners(s.calls, s.requests, t, r');
    }
    assert RequestsInv(s'.requests, s.sup, s.sweep, Popped(s)) by {
      SettleRequests(s, t, r', s.sup, s.sweep);
    }
    assert DrainedInv(s.wire, s'.requests, DrainBound(s)) by { SettleDrained(s, t, r'); }
    assert HandInv(s'.requests, s.sup, s.sweep, Popped(s)) by { SettleHand(s, t, r'); }
    Assemble(s, s');
  }

  lemma WatchMoves(s: State, t: nat, act: WatchAct)
    requires Inv(s) && WatchEnabled(s, t, act) && (act.Wakes? || act.Closes?)
    ensures Inv(WatchApply(s, t, act))
  {
    assert RequestInv(t, s.requests[t], s.sup, s.sweep, Popped(s));
    SettlePreserves(s, t, s.requests[t].(watch := if act.Wakes? then Claiming else WatchDone));
  }

  lemma WatchClaims(s: State, t: nat)
    requires Inv(s) && WatchEnabled(s, t, Claims)
    ensures Inv(WatchApply(s, t, Claims))
  {
    var r := s.requests[t];
    assert RequestInv(t, r, s.sup, s.sweep, Popped(s));
    SettlePreserves(s, t, if r.claimedBy == None then r.(claimedBy := Some(Watch), watch := Sending) else r.(watch := WatchDone));
  }

  lemma WatchSends(s: State, t: nat)
    requires Inv(s) && WatchEnabled(s, t, Sends)
    ensures Inv(WatchApply(s, t, Sends))
  {
    var r := s.requests[t];
    assert RequestInv(t, r, s.sup, s.sweep, Popped(s));
    SettlePreserves(s, t, r.(sent := r.sent + [TimedOut], watch := WatchDone));
  }

  lemma WatchStep(s: State, t: nat, act: WatchAct)
    requires Inv(s) && WatchEnabled(s, t, act)
    ensures Inv(WatchApply(s, t, act))
  {
    match act
    case Claims => WatchClaims(s, t);
    case Sends => WatchSends(s, t);
    case _ => WatchMoves(s, t, act);
  }

  lemma BoundGrows(s: State, bound: int)
    requires DrainedInv(s.wire, s.requests, DrainBound(s)) && GatesInv(s.calls, DrainBound(s)) && DrainBound(s) <= bound
    ensures DrainedInv(s.wire, s.requests, bound) && GatesInv(s.calls, bound)
  {
  }

  // The drain moves on within its critical section, settling ticket t on the way.
  lemma DrainSettles(s: State, r': Request, sup': SupPc)
    requires Inv(s) && HoldsTicket(s.sup) && Draining(sup')
    requires sup'.DrainPop? || (sup'.t == s.sup.t && !sup'.DrainSend?)
    requires s.sup.DrainSend? ==> sup'.DrainPop?
    requires sup'.DrainCtx? || sup'.DrainExpire? || sup'.DrainClaim? ==> s.sup.DrainCtx? && r' == s.requests[s.sup.t]
    requires sup'.DrainOnce? ==> sup'.once == CheckState
    requires (SettleOk(s.requests[s.sup.t], r') && r'.claimedBy != Some(Caller)) || r' == s.requests[s.sup.t]
    requires RequestInv(s.sup.t, r', sup', s.sweep, Popped(s))
    requires sup'.DrainExpireSend? ==> r'.claimedBy == Some(DrainExpired)
    requires sup'.DrainOnce? ==> r'.claimedBy == Some(Drain)
    ensures Inv(s.(requests := s.requests[s.sup.t := r'], sup := sup'))
  {
    var t := s.sup.t;
    var s' := s.(requests := s.requests[t := r'], sup := sup');
    assert CallsInv(s.calls, s'.requests) && OwnersInv(s'.requests, s.calls) by {
      assert RequestOwned(t, s.requests[t], s.calls);
      SettleOwners(s.calls, s.requests, t, r');
    }
    assert RequestsInv(s'.requests, sup', s.sweep, Popped(s)) by {
      SettleRequests(s, t, r', sup', s.sweep);
    }
    assert DrainedInv(s.wire, s'.requests, DrainBound(s')) && GatesInv(s.calls, DrainBound(s')) by {
      SettleDrained(s, t, r');
      BoundGrows(s.(requests := s'.requests), DrainBound(s'));
    }
    assert HandInv(s'.requests, sup', s.sweep, Popped(s));
    AssembleDrain(s, s');
  }

  lemma AssembleDrain(s: State, s': State)
    requires Inv(s) && s' == s.(requests := s'.requests, sup := s'.sup, wire := s'.wire)
    requires |s'.requests| == |s.requests| && Draining(s.sup) && Draining(s'.sup)
    requires s'.sup.DrainOnce? && s'.sup.once.Ready? ==> s'.sup.once.epoch == s.epoch
    requires CallsInv(s.calls, s'.requests) && OwnersInv(s'.requests, s.calls)
    requires RequestsInv(s'.requests, s'.sup, s.sweep, Popped(s)) && HandInv(s'.requests, s'.sup, s.sweep, Popped(s))
    requires DrainedInv(s'.wire, s'.requests, DrainBound(s')) && GatesInv(s.calls, DrainBound(s'))
    requires DrainEpochsInv(s'.wire, s.cfg, s.epoch, s.hooked) && Fifo(s'.wire) && GateWireInv(s'.wire, s.calls)
    ensures Inv(s')
  {
  }

  lemma DrainSkips(s: State, sup': SupPc)
    requires Inv(s) && HoldsTicket(s.sup) && Draining(sup')
    requires sup'.DrainPop? || (s.sup.DrainCtx? && sup' in {DrainExpire(s.sup.t), DrainClaim(s.sup.t)})
    requires RequestInv(s.sup.t, s.requests[s.sup.t], sup', s.sweep, Popped(s))
    ensures Inv(s.(sup := sup'))
  {
    DrainSettles(s, s.requests[s.sup.t], sup');
    assert s.requests[s.sup.t := s.requests[s.sup.t]] == s.requests;
  }

  lemma DrainLooks(s: State, ok: bool)
    requires Inv(s) && SupEnabled(s)
    requires s.sup.DrainCtx? || ((s.sup.DrainExpire? || s.sup.DrainClaim?) && !Unclaimed(s, s.sup.t))
    ensures Inv(SupApply(s, ok))
  {
    var t := s.sup.t;
    assert RequestInv(t, s.requests[t], s.sup, s.sweep, Popped(s));
    if s.sup.DrainCtx? {
      DrainSkips(s, if CtxEnded(s, t) then DrainExpire(t) else DrainClaim(t));
    } else {
      DrainSkips(s, DrainPop);
    }
  }

  lemma DrainClaims(s: State, ok: bool)
    requires Inv(s) && SupEnabled(s) && (s.sup.DrainExpire? || s.sup.DrainClaim?) && Unclaimed(s, s.sup.t)
    ensures Inv(SupApply(s, ok))
  {
    var t := s.sup.t;
    var r := s.requests[t];
    assert RequestInv(t, r, s.sup, s.sweep, Popped(s));
    if s.sup.DrainExpire? {
      DrainSettles(s, r.(claimedBy := Some(DrainExpired)), DrainExpireSend(t));
    } else {
      DrainSettles(s, r.(claimedBy := Some(Drain)), DrainOnce(t, CheckState));
    }
  }

  lemma DrainSends(s: State, ok: bool)
    requires Inv(s) && SupEnabled(s) && (s.sup.DrainExpireSend? || s.sup.DrainSend?)
    ensures Inv(SupApply(s, ok))
  {
    var t := s.sup.t;
    var r := s.requests[t];
    assert RequestInv(t, r, s.sup, s.sweep, Popped(s));
    DrainSettles(s, r.(sent := r.sent + [if s.sup.DrainSend? then s.sup.out else CtxError]), DrainPop);
  }

  lemma DrainOnceStep(s: State, ok: bool)
    requires Inv(s) && SupEnabled(s) && s.sup.DrainOnce?
    ensures Inv(SupApply(s, ok))
  {
    var t := s.sup.t;
    match OnceNext(s, s.sup.once, ok)
    case Go(next) => DrainOnceMoves(s, DrainOnce(t, next), s.wire);
    case Stop(out) =>
      if out == Transmitted {
        var epoch := OnceEpoch(s.sup.once);
        DrainTx(s, epoch);
        DrainOnceMoves(s, DrainSend(t, out), s.wire + [Drained(t, epoch)]);
      } else {
        assert DrainedInv(s.wire, s.requests, Popped(s)) by { BoundGrows(s, Popped(s)); }
        DrainOnceMoves(s, DrainSend(t, out), s.wire);
      }
  }

  lemma DrainOnceMoves(s: State, sup': SupPc, wire': seq<Tx>)
    requires Inv(s) && s.sup.DrainOnce? && (sup'.DrainOnce? || sup'.DrainSend?) && sup'.t == s.sup.t
    requires sup'.DrainSend? ==> Delivers(Drain, sup'.out)
    requires sup'.DrainOnce? && sup'.once.Ready? ==> sup'.once.epoch == s.epoch
    requires DrainedInv(wire', s.requests, if sup'.DrainSend? then Popped(s) else Popped(s) - 1)
    requires DrainEpochsInv(wire', s.cfg, s.epoch, s.hooked) && Fifo(wire') && GateWireInv(wire', s.calls)
    ensures Inv(s.(sup := sup', wire := wire'))
  {
    var s' := s.(sup := sup', wire := wire');
    assert RequestsInv(s.requests, sup', s.sweep, Popped(s)) by { OwingKept(s, sup'); }
    assert GatesInv(s.calls, DrainBound(s')) by { BoundGrows(s, DrainBound(s')); }
    assert HandInv(s.requests, sup', s.sweep, Popped(s));
    AssembleDrain(s, s');
  }

  lemma OwingKept(s: State, sup': SupPc)
    requires RequestsInv(s.requests, s.sup, s.sweep, Popped(s)) && s.sup.DrainOnce?
    requires (sup'.DrainOnce? || sup'.DrainSend?) && sup'.t == s.sup.t
    ensures RequestsInv(s.requests, sup', s.sweep, Popped(s))
  {
    forall u | 0 <= u < |s.requests| ensures RequestInv(u, s.requests[u], sup', s.sweep, Popped(s)) {
      assert RequestInv(u, s.requests[u], s.sup, s.sweep, Popped(s));
    }
  }

  // A queued request's frame goes out.
  lemma DrainTx(s: State, epoch: nat)
    requires Inv(s) && s.sup.DrainOnce? && epoch == s.epoch
    ensures var wire' := s.wire + [Drained(s.sup.t, epoch)];
            && DrainedInv(wire', s.requests, Popped(s)) && DrainEpochsInv(wire', s.cfg, s.epoch, s.hooked)
            && Fifo(wire') && GateWireInv(wire', s.calls)
  {
    forall i | 0 <= i < |s.wire| && s.wire[i].Direct?
      ensures s.wire[i].call < |s.calls|
      ensures s.calls[s.wire[i].call].gate.Some? ==> s.calls[s.wire[i].call].gate.value <= s.sup.t
    {
    }
  }

  lemma DrainPops(s: State, ok: bool)
    requires Inv(s) && s.sup.DrainPop? && s.queue != []
    ensures Inv(SupApply(s, ok))
  {
    var s' := SupApply(s, ok);
    assert RequestsInv(s.requests, s'.sup, s.sweep, Popped(s')) by { PopRequests(s, s'.sup, s.sweep); }
  }

  lemma DrainStops(s: State, ok: bool)
    requires Inv(s) && s.sup.DrainPop? && s.queue == []
    ensures Inv(SupApply(s, ok))
  {
    var s' := SupApply(s, ok);
    assert RequestsInv(s.requests, s'.sup, s.sweep, Popped(s'));
  }

  lemma DrainPopStep(s: State, ok: bool)
    requires Inv(s) && SupEnabled(s) && s.sup.DrainPop?
    ensures Inv(SupApply(s, ok))
  {
    if s.queue != [] {
      DrainPops(s, ok);
    } else {
      DrainStops(s, ok);
    }
  }

  // Taking the oldest ticket out of the channel.
  lemma PopRequests(s: State, sup': SupPc, sweep': SweepPc)
    requires QueueInv(s.cfg.queueSize, s.queue, |s.requests|) && s.queue != []
    requires RequestsInv(s.requests, s.sup, s.sweep, Popped(s))
    requires InHand(sup', sweep', s.queue[0])
    requires forall u :: !InHand(s.sup, s.sweep, u)
    requires forall u, who :: Owing(sup', sweep', u, who) == Owing(s.sup, s.sweep, u, who)
    ensures RequestsInv(s.requests, sup', sweep', Popped(s) + 1)
  {
    forall u | 0 <= u < |s.requests| ensures RequestInv(u, s.requests[u], sup', sweep', Popped(s) + 1) {
      assert RequestInv(u, s.requests[u], s.sup, s.sweep, Popped(s));
    }
  }

  lemma LossSteps(s: State, ok: bool)
    requires Inv(s) && SupEnabled(s) && (s.sup.ConnDied? || s.sup.ToReconnecting? || s.sup.ToDisconnected?)
    ensures Inv(SupApply(s, ok))
  {
    SupMoves(s, SupApply(s, ok));
  }

  lemma DialSteps(s: State, ok: bool)
    requires Inv(s) && SupEnabled(s) && (s.sup.Dialing? || s.sup.Installing?)
    ensures Inv(SupApply(s, ok))
  {
    SupMoves(s, SupApply(s, ok));
  }

  lemma HookBegins(s: State, ok: bool)
    requires Inv(s) && SupEnabled(s) && (s.sup.Installed? || s.sup.HookStart?)
    ensures Inv(SupApply(s, ok))
  {
    SupMoves(s, SupApply(s, ok));
  }

  lemma HookReturns(s: State, ok: bool)
    requires Inv(s) && SupEnabled(s) && s.sup.HookRunning?
    ensures Inv(SupApply(s, ok))
  {
    SupMoves(s, SupApply(s, ok));
  }

  lemma HookEnds(s: State, ok: bool)
    requires Inv(s) && SupEnabled(s) && s.sup.HookEnd?
    ensures Inv(SupApply(s, ok))
  {
    SupMoves(s, SupApply(s, ok));
  }

  lemma CriticalSteps(s: State, ok: bool)
    requires Inv(s) && SupEnabled(s)
    requires s.sup.WantLock? || s.sup.CheckClosed? || s.sup.SetConnected? || s.sup.Unlock?
    ensures Inv(SupApply(s, ok))
  {
    SupMoves(s, SupApply(s, ok));
  }

  // Between two states in which the supervisor holds no ticket and no party's request changes.
  lemma SupMoves(s: State, s': State)
    requires Inv(s) && !HoldsTicket(s.sup) && !HoldsTicket(s'.sup)
    requires s' == s.(closed := s'.closed, state := s'.state, bypass := s'.bypass, lock := s'.lock, sup := s'.sup,
                      lifecycleHeld := s'.lifecycleHeld, epoch := s'.epoch, hooked := s'.hooked)
    requires SupLockInv(s'.lock, s'.sup, s'.lifecycleHeld, s'.bypass) && (s'.lock == s.lock || (!s.lock.ByCaller? && !s'.lock.ByCaller?))
    requires SweepInv(s.sweep, s'.closed, s'.sup)
    requires QueuersInv(s'.state, s.calls) && ConnectedInv(s'.state, s'.sup, s.queue)
    requires HookInv(s.cfg, s'.sup, s'.epoch, s'.hooked) && s.epoch <= s'.epoch && s.hooked <= s'.hooked
    ensures Inv(s')
  {
    assert RequestsInv(s.requests, s'.sup, s.sweep, Popped(s)) by {
      forall u | 0 <= u < |s.requests| ensures RequestInv(u, s.requests[u], s'.sup, s.sweep, Popped(s)) {
        assert RequestInv(u, s.requests[u], s.sup, s.sweep, Popped(s));
      }
    }
  }

  lemma SweepPops(s: State)
    requires Inv(s) && SweepEnabled(s) && (s.sweep.WaitGroup? || s.sweep.SweepPop?)
    ensures Inv(SweepApply(s))
  {
    var s' := SweepApply(s);
    if s.sweep.SweepPop? && s.queue != [] {
      assert RequestsInv(s.requests, s.sup, s'.sweep, Popped(s')) by { PopRequests(s, s.sup, s'.sweep); }
      BoundGrows(s, DrainBound(s'));
    } else {
      assert RequestsInv(s.requests, s.sup, s'.sweep, Popped(s')) by {
        forall u | 0 <= u < |s.requests| ensures RequestInv(u, s.requests[u], s.sup, s'.sweep, Popped(s)) {
          assert RequestInv(u, s.requests[u], s.sup, s.sweep, Popped(s));
        }
      }
    }
  }

  lemma SweepSettles(s: State, r': Request, sweep': SweepPc)
    requires Inv(s) && (s.sweep.SweepClaim? || s.sweep.SweepSend?)
    requires sweep' == SweepPop || (s.sweep.SweepClaim? && sweep' == SweepSend(s.sweep.t))
    requires (SettleOk(s.requests[s.sweep.t], r') && r'.claimedBy != Some(Caller)) || r' == s.requests[s.sweep.t]
    requires RequestInv(s.sweep.t, r', s.sup, sweep', Popped(s))
    requires sweep'.SweepSend? ==> r'.claimedBy == Some(CloseSweep)
    ensures Inv(s.(requests := s.requests[s.sweep.t := r'], sweep := sweep'))
  {
    var t := s.sweep.t;
    var s' := s.(requests := s.requests[t := r'], sweep := sweep');
    assert CallsInv(s.calls, s'.requests) && OwnersInv(s'.requests, s.calls) by {
      assert RequestOwned(t, s.requests[t], s.calls);
      SettleOwners(s.calls, s.requests, t, r');
    }
    assert RequestsInv(s'.requests, s.sup, sweep', Popped(s)) by {
      SettleRequests(s, t, r', s.sup, sweep');
    }
    assert DrainedInv(s.wire, s'.requests, DrainBound(s)) by { SettleDrained(s, t, r'); }
    assert HandInv(s'.requests, s.sup, sweep', Popped(s));
    AssembleSweep(s, s');
  }

  lemma AssembleSweep(s: State, s': State)
    requires Inv(s) && s' == s.(requests := s'.requests, sweep := s'.sweep) && |s'.requests| == |s.requests|
    requires SweepInv(s'.sweep, s.closed, s.sup)
    requires CallsInv(s.calls, s'.requests) && OwnersInv(s'.requests, s.calls)
    requires RequestsInv(s'.requests, s.sup, s'.sweep, Popped(s)) && HandInv(s'.requests, s.sup, s'.sweep, Popped(s))
    requires DrainedInv(s.wire, s'.requests, DrainBound(s))
    ensures Inv(s')
  {
  }

  lemma SweepClaims(s: State)
    requires Inv(s) && SweepEnabled(s) && (s.sweep.SweepClaim? || s.sweep.SweepSend?)
    ensures Inv(SweepApply(s))
  {
    var t := s.sweep.t;
    var r := s.requests[t];
    assert RequestInv(t, r, s.sup, s.sweep, Popped(s));
    if s.sweep.SweepSend? {
      SweepSettles(s, r.(sent := r.sent + [ClosedError]), SweepPop);
    } else if Unclaimed(s, t) {
      SweepSettles(s, r.(claimedBy := Some(CloseSweep)), SweepSend(t));
    } else {
      SweepSettles(s, r, SweepPop);
      assert s.requests[t := r] == s.requests;
    }
  }

  lemma SweepEnds(s: State)
    requires Inv(s) && s.sweep.SweepEnd?
    ensures Inv(SweepApply(s))
  {
    forall u | 0 <= u < |s.requests| ensures RequestInv(u, s.requests[u], s.sup, Swept, Popped(s)) {
      assert RequestInv(u, s.requests[u], s.sup, s.sweep, Popped(s));
    }
  }

  lemma SweepStepInv(s: State)
    requires Inv(s) && SweepEnabled(s)
    ensures Inv(SweepApply(s))
  {
    if s.sweep.SweepClaim? || s.sweep.SweepSend? {
      SweepClaims(s);
    } else if s.sweep.SweepEnd? {
      SweepEnds(s);
    } else {
      SweepPops(s);
    }
  }

  lemma ArriveLocks(s: State, call: Call)
    requires CallLockInv(s.lock, s.calls) && QueuersInv(s.state, s.calls) && (call.pc == Entered || call.pc.Returned?)
    ensures CallLockInv(s.lock, s.calls + [call]) && QueuersInv(s.state, s.calls + [call])
  {
  }

  lemma ArriveOwners(calls: seq<Call>, requests: seq<Request>, call: Call)
    requires CallsInv(calls, requests) && OwnersInv(requests, calls)
    requires call == Call(call.failFast, Entered, false, None, None) || call == Call(call.failFast, Returned(ClosedError), false, None, None)
    ensures CallsInv(calls + [call], requests) && OwnersInv(requests, calls + [call])
  {
    forall t | 0 <= t < |requests| ensures RequestOwned(t, requests[t], calls + [call]) {
      assert RequestOwned(t, requests[t], calls);
    }
  }

  lemma ArriveStep(s: State, failFast: bool)
    requires Inv(s)
    ensures Inv(Apply(s, Arrive(failFast)))
  {
    var call := Call(failFast, if s.closed then Returned(ClosedError) else Entered, false, None, None);
    var calls' := s.calls + [call];
    ArriveLocks(s, call);
    ArriveOwners(s.calls, s.requests, call);
    assert GatesInv(calls', DrainBound(s)) && GateWireInv(s.wire, calls');
    Assemble(s, Apply(s, Arrive(failFast)));
  }

  lemma ChannelStep(s: State, a: Action)
    requires Inv(s) && Enabled(s, a) && (a.Terminate? || a.StoreDisconnected?)
    ensures Inv(Apply(s, a))
  {
  }

  lemma WatchingStep(s: State, a: Action)
    requires Inv(s) && Enabled(s, a) && (a.ConnectionEnds? || a.SupervisorStops?)
    ensures Inv(Apply(s, a))
  {
    SupMoves(s, Apply(s, a));
  }

  lemma CloseStep(s: State)
    requires Inv(s) && Enabled(s, CloseBegins)
    ensures Inv(Apply(s, CloseBegins))
  {
    forall u | 0 <= u < |s.requests| ensures RequestInv(u, s.requests[u], s.sup, WaitGroup, Popped(s)) {
      assert RequestInv(u, s.requests[u], s.sup, s.sweep, Popped(s));
    }
  }

  lemma StepInv(s: State, a: Action)
    requires Inv(s) && Enabled(s, a)
    ensures Inv(Apply(s, a))
  {
    match a
    case Arrive(ff) => ArriveStep(s, ff);
    case ByCall(c, act) => CallStep(s, c, act);
    case ByWatch(t, act) => WatchStep(s, t, act);
    case SupStep(ok) => SupervisorStep(s, ok);
    case CloseBegins => CloseStep(s);
    case SweepStep => SweepStepInv(s);
    case ConnectionEnds => WatchingStep(s, a);
    case SupervisorStops => WatchingStep(s, a);
    case _ => ChannelStep(s, a);
  }

  lemma CallStep(s: State, c: nat, act: CallAct)
    requires Inv(s) && CallEnabled(s, c, act)
    ensures Inv(CallApply(s, c, act))
  {
    match act
    case ReadState => ReadStateStep(s, c);
    case Enqueue => EnqueueStep(s, c);
    case OnceStep(ok) => OnceCallStep(s, c, ok);
    case CancelClaim => CancelClaimStep(s, c);
    case Receive => ReturnStep(s, c, act);
    case GiveUp => ReturnStep(s, c, act);
    case SeeClosed => ReturnStep(s, c, act);
    case _ => LockingCallStep(s, c, act);
  }

  lemma SupervisorStep(s: State, ok: bool)
    requires Inv(s) && SupEnabled(s)
    ensures Inv(SupApply(s, ok))
  {
    match s.sup
    case DrainPop => DrainPopStep(s, ok);
    case DrainCtx(_) => DrainLooks(s, ok);
    case DrainExpire(t) => if Unclaimed(s, t) { DrainClaims(s, ok); } else { DrainLooks(s, ok); }
    case DrainClaim(t) => if Unclaimed(s, t) { DrainClaims(s, ok); } else { DrainLooks(s, ok); }
    case DrainExpireSend(_) => DrainSends(s, ok);
    case DrainSend(_, _) => DrainSends(s, ok);
    case DrainOnce(_, _) => DrainOnceStep(s, ok);
    case Installed(_) => HookBegins(s, ok);
    case HookStart => HookBegins(s, ok);
    case HookRunning => HookReturns(s, ok);
    case HookEnd(_) => HookEnds(s, ok);
    case WantLock => CriticalSteps(s, ok);
    case CheckClosed => CriticalSteps(s, ok);
    case SetConnected => CriticalSteps(s, ok);
    case Unlock => CriticalSteps(s, ok);
    case Dialing(_) => DialSteps(s, ok);
    case Installing(_) => DialSteps(s, ok);
    case _ => LossSteps(s, ok);
  }

  lemma StepKeeps(s: State, a: Action, s': State)
    requires Inv(s) && Step(s, a, s')
    ensures Inv(s')
  {
    StepInv(s, a);
  }

  lemma {:induction false} ExecutionInv(cfg: Config, states: seq<State>, acts: seq<Action>, i: nat)
    requires Execution(cfg, states, acts) && i < |states|
    ensures Inv(states[i])
  {
    if i == 0 {
      InitInv(cfg);
    } else {
      ExecutionInv(cfg, states, acts, i - 1);
      StepKeeps(states[i - 1], acts[i - 1], states[i]);
    }
  }
}
