/** What holds over every run of the reconnect-queue machine. */
module ReconnectQueueResults {
  import opened Basics
  import opened ReconnectQueue
  import opened ReconnectQueueInvariant

  /** Whenever the lock is free and the state is Connected, nothing waits in the reconnect queue. */
  lemma NothingStranded(cfg: Config, states: seq<State>, acts: seq<Action>, i: nat)
    requires Execution(cfg, states, acts) && i < |states|
    ensures states[i].lock == Free && states[i].state == Connected ==> states[i].queue == []
    ensures |states[i].queue| <= cfg.queueSize
  {
    ExecutionInv(cfg, states, acts, i);
    RunsOnlyGrow(cfg, states, acts, 0, i);
  }

  // ---------------------------------------------------------------------------------------------
  // The deadline watch
  // ---------------------------------------------------------------------------------------------

  // A request nobody has claimed still has its watch, unless the channel is closed.
  predicate Watched(requests: seq<Request>, closed: bool) {
    forall t :: 0 <= t < |requests| && requests[t].claimedBy == None ==> requests[t].watch in {Sleeping, Claiming} || closed
  }

  // Nobody touched a watch or took back a claim.
  predicate WatchesKept(requests: seq<Request>, requests': seq<Request>) {
    && |requests'| == |requests|
    && forall t :: 0 <= t < |requests| ==>
         requests'[t].watch == requests[t].watch && (requests[t].claimedBy.Some? ==> requests'[t].claimedBy.Some?)
  }

  lemma CancelWatched(s: State, c: nat)
    requires CallEnabled(s, c, CancelClaim)
    ensures WatchesKept(s.requests, CallApply(s, c, CancelClaim).requests) && CallApply(s, c, CancelClaim).closed == s.closed
  {
  }

  lemma LockWatched(s: State, c: nat, act: CallAct)
    requires CallEnabled(s, c, act) && act in {ReadBypass, TakeLock, ReadState, ReleaseLock}
    ensures CallApply(s, c, act).requests == s.requests && CallApply(s, c, act).closed == s.closed
  {
  }

  lemma WaitWatched(s: State, c: nat, act: CallAct)
    requires CallEnabled(s, c, act) && act in {CtxEnds, Receive, GiveUp, SeeClosed}
    ensures CallApply(s, c, act).requests == s.requests && CallApply(s, c, act).closed == s.closed
  {
  }

  lemma CallWatched(s: State, c: nat, act: CallAct)
    requires CallEnabled(s, c, act) && !act.Enqueue? && !act.OnceStep?
    ensures WatchesKept(s.requests, CallApply(s, c, act).requests) && CallApply(s, c, act).closed == s.closed
  {
    if act == CancelClaim {
      CancelWatched(s, c);
    } else if act in {ReadBypass, TakeLock, ReadState, ReleaseLock} {
      LockWatched(s, c, act);
    } else {
      WaitWatched(s, c, act);
    }
  }

  lemma EnqueueWatched(s: State, c: nat)
    requires CallEnabled(s, c, Enqueue) && Watched(s.requests, s.closed)
    ensures Watched(CallApply(s, c, Enqueue).requests, CallApply(s, c, Enqueue).closed)
  {
  }

  lemma OnceWatched(s: State, c: nat, ok: bool)
    requires CallEnabled(s, c, OnceStep(ok))
    ensures CallApply(s, c, OnceStep(ok)).requests == s.requests && CallApply(s, c, OnceStep(ok)).closed == s.closed
  {
  }

  lemma WatchWatched(s: State, t: nat, act: WatchAct)
    requires WatchEnabled(s, t, act) && Watched(s.requests, s.closed)
    requires act.Sends? ==> s.requests[t].claimedBy.Some?
    ensures Watched(WatchApply(s, t, act).requests, WatchApply(s, t, act).closed)
  {
  }

  // A claim, or the finding that there is one already.
  lemma DrainExpireWatched(s: State, ok: bool)
    requires SupEnabled(s) && s.sup.DrainExpire?
    ensures WatchesKept(s.requests, SupApply(s, ok).requests) && SupApply(s, ok).closed == s.closed
  {
    if Unclaimed(s, s.sup.t) {
      assert SupApply(s, ok).requests == Claim(s, s.sup.t, DrainExpired).requests;
    }
  }

  lemma DrainClaimWatched(s: State, ok: bool)
    requires SupEnabled(s) && s.sup.DrainClaim?
    ensures WatchesKept(s.requests, SupApply(s, ok).requests) && SupApply(s, ok).closed == s.closed
  {
    if Unclaimed(s, s.sup.t) {
      assert SupApply(s, ok).requests == Claim(s, s.sup.t, Drain).requests;
    }
  }

  lemma DrainSendsWatched(s: State, ok: bool)
    requires SupEnabled(s) && (s.sup.DrainExpireSend? || s.sup.DrainSend?)
    ensures WatchesKept(s.requests, SupApply(s, ok).requests) && SupApply(s, ok).closed == s.closed
  {
  }

  lemma DrainOnceWatched(s: State, ok: bool)
    requires SupEnabled(s) && (s.sup.DrainOnce? || s.sup.DrainCtx?)
    ensures SupApply(s, ok).requests == s.requests && SupApply(s, ok).closed == s.closed
  {
  }

  lemma DrainWatched(s: State, ok: bool)
    requires SupEnabled(s) && HoldsTicket(s.sup)
    ensures WatchesKept(s.requests, SupApply(s, ok).requests) && SupApply(s, ok).closed == s.closed
  {
    if s.sup.DrainOnce? || s.sup.DrainCtx? {
      DrainOnceWatched(s, ok);
    } else if s.sup.DrainExpireSend? || s.sup.DrainSend? {
      DrainSendsWatched(s, ok);
    } else if s.sup.DrainExpire? {
      DrainExpireWatched(s, ok);
    } else {
      DrainClaimWatched(s, ok);
    }
  }

  lemma SuperviseWatched(s: State, ok: bool)
    requires SupEnabled(s) && !HoldsTicket(s.sup)
    ensures SupApply(s, ok).requests == s.requests && SupApply(s, ok).closed == s.closed
  {
    SuperviseTouches(s, ok);
  }

  lemma SweepWatched(s: State)
    requires SweepEnabled(s)
    ensures WatchesKept(s.requests, SweepApply(s).requests) && SweepApply(s).closed == s.closed
  {
  }

  lemma StepWatched(s: State, a: Action, s': State)
    requires Inv(s) && Step(s, a, s') && Watched(s.requests, s.closed)
    ensures Watched(s'.requests, s'.closed)
  {
    match a
    case ByCall(c, act) =>
      if act.Enqueue? {
        EnqueueWatched(s, c);
      } else if act.OnceStep? {
        OnceWatched(s, c, act.writeOk);
      } else {
        CallWatched(s, c, act);
      }
    case ByWatch(t, act) =>
      assert RequestInv(t, s.requests[t], s.sup, s.sweep, Popped(s));
      WatchWatched(s, t, act);
    case SupStep(ok) => if HoldsTicket(s.sup) { DrainWatched(s, ok); } else { SuperviseWatched(s, ok); }
    case SweepStep => SweepWatched(s);
    case _ =>
  }

  lemma {:induction false} ExecutionWatched(cfg: Config, states: seq<State>, acts: seq<Action>, i: nat)
    requires Execution(cfg, states, acts) && i < |states|
    ensures Watched(states[i].requests, states[i].closed)
  {
    if i > 0 {
      ExecutionWatched(cfg, states, acts, i - 1);
      assert Inv(states[i - 1]) by { ExecutionInv(cfg, states, acts, i - 1); }
      assert Step(states[i - 1], acts[i - 1], states[i]);
      StepWatched(states[i - 1], acts[i - 1], states[i]);
    }
  }

  /** A caller that waits is never forgotten. A request nobody has claimed is in the queue or in the hands of the drain or
      the sweep, and whatever becomes of these its deadline watch is still to claim it, or the channel is closed and the
      caller can leave; a claimed one has its result or is owed it by whoever claimed it. */
  lemma WaiterHasAServant(cfg: Config, states: seq<State>, acts: seq<Action>, i: nat, c: nat)
    requires Execution(cfg, states, acts) && i < |states| && c < |states[i].calls|
    requires states[i].calls[c].pc.Awaiting?
    ensures var s := states[i]; var t := s.calls[c].pc.ticket;
            && t < |s.requests| && s.requests[t].caller == c
            && (s.requests[t].claimedBy == None ==>
                  && (t in s.queue || InHand(s.sup, s.sweep, t))
                  && (s.requests[t].watch in {Sleeping, Claiming} || CallEnabled(s, c, SeeClosed)))
            && (s.requests[t].claimedBy.Some? ==>
                  Available(s, t) || s.requests[t].watch == Sending || (exists who :: Owing(s.sup, s.sweep, t, who)))
  {
    var s := states[i];
    var t := s.calls[c].pc.ticket;
    ExecutionInv(cfg, states, acts, i);
    ExecutionWatched(cfg, states, acts, i);
    assert CallOwns(c, s.calls[c], s.requests);
    assert RequestInv(t, s.requests[t], s.sup, s.sweep, Popped(s));
    assert RequestOwned(t, s.requests[t], s.calls);
    if t >= Popped(s) {
      assert s.queue[t - Popped(s)] == t;
    }
    if s.requests[t].claimedBy.Some? {
      var who := s.requests[t].claimedBy.value;
      assert Owing(s.sup, s.sweep, t, who) || |s.requests[t].sent| == 1 || s.requests[t].watch == Sending;
    }
  }

  /** At most one value ever reaches a request's result channel (capacity one), so no sender can block. */
  lemma AtMostOneResult(cfg: Config, states: seq<State>, acts: seq<Action>, i: nat, t: nat)
    requires Execution(cfg, states, acts) && i < |states| && t < |states[i].requests|
    ensures |states[i].requests[t].sent| <= 1
    ensures states[i].requests[t].sent != [] ==>
              && states[i].requests[t].claimedBy.Some?
              && Delivers(states[i].requests[t].claimedBy.value, states[i].requests[t].sent[0])
  {
    ExecutionInv(cfg, states, acts, i);
    var s := states[i];
    assert RequestInv(t, s.requests[t], s.sup, s.sweep, Popped(s));
  }

  // What no run ever undoes.
  predicate Later(s: State, s': State) {
    && s'.cfg == s.cfg
    && LaterRequests(s.requests, s'.requests)
    && s.wire <= s'.wire
    && s.epoch <= s'.epoch
    && (s.closed ==> s'.closed && s'.epoch == s.epoch)
  }

  predicate LaterRequests(requests: seq<Request>, requests': seq<Request>) {
    && |requests| <= |requests'|
    && (forall t :: 0 <= t < |requests| ==> LaterRequest(requests[t], requests'[t]))
  }

  predicate LaterRequest(r: Request, r': Request) {
    && r'.caller == r.caller
    && (r.claimedBy.Some? ==> r'.claimedBy == r.claimedBy)
    && r.sent <= r'.sent
  }

  // Request r, with ticket t, was put on the wire by a drain; `current` is the one just written, not yet reported.
  predicate DrainWrote(r: Request, t: nat, current: Option<nat>) {
    r.claimedBy == Some(Drain) && (r.sent == [Transmitted] || current == Some(t))
  }

  function Current(sup: SupPc): Option<nat> {
    if sup.DrainSend? && sup.out == Transmitted then Some(sup.t) else None
  }

  // Which requests count as drained is the same in both states, apart from `but`.
  predicate WroteKept(s: State, s': State, but: Option<nat>) {
    && |s.requests| <= |s'.requests|
    && (forall t :: 0 <= t < |s.requests| && but != Some(t) ==>
          DrainWrote(s'.requests[t], t, Current(s'.sup)) == DrainWrote(s.requests[t], t, Current(s.sup)))
    && (forall t :: |s.requests| <= t < |s'.requests| ==> !DrainWrote(s'.requests[t], t, Current(s'.sup)))
  }

  // At most one frame per step, a drained one only from the drain's write.
  ghost predicate WireGrows(s: State, s': State) {
    || (s'.wire == s.wire && WroteKept(s, s', None))
    || (exists c, epoch :: s'.wire == s.wire + [Direct(c, epoch)] && WroteKept(s, s', None))
    || (&& s.sup.DrainOnce? && s.sup.once.Ready? && s'.wire == s.wire + [Drained(s.sup.t, s.sup.once.epoch)]
        && s'.requests == s.requests && s'.sup == DrainSend(s.sup.t, Transmitted))
  }

  // A step that settles request t further and touches nothing else that these facts mention.
  lemma OneRequestLater(s: State, s': State, t: nat, r': Request)
    requires t < |s.requests| && s'.requests == s.requests[t := r'] && LaterRequest(s.requests[t], r')
    requires s'.cfg == s.cfg && s'.wire == s.wire && s'.epoch == s.epoch && s'.closed == s.closed
    requires DrainWrote(r', t, Current(s'.sup)) == DrainWrote(s.requests[t], t, Current(s.sup))
    requires Current(s.sup) in {None, Some(t)} || Current(s.sup) == Current(s'.sup)
    requires Current(s'.sup) in {None, Current(s.sup)}
    ensures Later(s, s') && WireGrows(s, s')
  {
  }

  lemma SameRequestsLater(s: State, s': State)
    requires s'.requests == s.requests
    requires s'.cfg == s.cfg && s'.wire == s.wire && s.epoch <= s'.epoch
    requires s.closed ==> s'.closed && s'.epoch == s.epoch
    requires Current(s.sup) == Current(s'.sup)
    ensures Later(s, s') && WireGrows(s, s')
  {
  }

  lemma CallLater(s: State, c: nat, act: CallAct)
    requires CallEnabled(s, c, act) && !act.OnceStep?
    ensures Later(s, CallApply(s, c, act)) && WireGrows(s, CallApply(s, c, act))
  {
    var s' := CallApply(s, c, act);
    if act.CancelClaim? && Unclaimed(s, s.calls[c].pc.ticket) {
      var t := s.calls[c].pc.ticket;
      OneRequestLater(s, s', t, s.requests[t].(claimedBy := Some(Caller)));
    } else if |s'.requests| == |s.requests| {
      SameRequestsLater(s, s');
    }
  }

  lemma CallOnceLater(s: State, c: nat, ok: bool)
    requires CallEnabled(s, c, OnceStep(ok))
    ensures Later(s, CallApply(s, c, OnceStep(ok))) && WireGrows(s, CallApply(s, c, OnceStep(ok)))
  {
    var s' := CallApply(s, c, OnceStep(ok));
    assert s'.requests == s.requests && WroteKept(s, s', None);
  }

  lemma DrainLater(s: State, ok: bool)
    requires RequestsInv(s.requests, s.sup, s.sweep, Popped(s)) && HandInv(s.requests, s.sup, s.sweep, Popped(s))
    requires SupEnabled(s) && HoldsTicket(s.sup) && !s.sup.DrainOnce? && !s.sup.DrainSend?
    ensures Later(s, SupApply(s, ok)) && WireGrows(s, SupApply(s, ok))
  {
    var t := s.sup.t;
    var r := s.requests[t];
    var s' := SupApply(s, ok);
    assert RequestInv(t, r, s.sup, s.sweep, Popped(s));
    if s'.requests != s.requests {
      OneRequestLater(s, s', t, s'.requests[t]);
    } else {
      SameRequestsLater(s, s');
    }
  }

  lemma DrainSendLater(s: State, ok: bool)
    requires RequestsInv(s.requests, s.sup, s.sweep, Popped(s)) && HandInv(s.requests, s.sup, s.sweep, Popped(s))
    requires SupEnabled(s) && s.sup.DrainSend?
    ensures Later(s, SupApply(s, ok)) && WireGrows(s, SupApply(s, ok))
  {
    var t := s.sup.t;
    var r := s.requests[t];
    assert RequestInv(t, r, s.sup, s.sweep, Popped(s));
    assert r.sent + [s.sup.out] == [s.sup.out];
    OneRequestLater(s, SupApply(s, ok), t, r.(sent := r.sent + [s.sup.out]));
  }

  lemma DrainOnceLater(s: State, ok: bool)
    requires Inv(s) && SupEnabled(s) && s.sup.DrainOnce?
    ensures Later(s, SupApply(s, ok)) && WireGrows(s, SupApply(s, ok))
  {
  }

  // A supervisor at none of the drain's steps.
  predicate Supervised(s: State, s': State) {
    && s'.requests == s.requests && s'.cfg == s.cfg && s'.wire == s.wire && s'.closed == s.closed && s.epoch <= s'.epoch
    && Current(s'.sup) == None && (s.sup.Installing? || s'.epoch == s.epoch)
  }

  lemma ReconnectSupervised(s: State, ok: bool)
    requires SupEnabled(s) && (s.sup.ConnDied? || s.sup.ToReconnecting? || s.sup.Dialing? || s.sup.Installing? || s.sup.Installed?)
    ensures Supervised(s, SupApply(s, ok))
  {
  }

  lemma HookSupervised(s: State, ok: bool)
    requires SupEnabled(s) && (s.sup.HookStart? || s.sup.HookRunning? || s.sup.HookEnd? || s.sup.ToDisconnected?)
    ensures Supervised(s, SupApply(s, ok))
  {
  }

  lemma CriticalSupervised(s: State, ok: bool)
    requires SupEnabled(s) && (s.sup.WantLock? || s.sup.CheckClosed? || s.sup.SetConnected? || s.sup.DrainPop? || s.sup.Unlock?)
    ensures Supervised(s, SupApply(s, ok))
  {
  }

  lemma SuperviseTouches(s: State, ok: bool)
    requires SupEnabled(s) && !HoldsTicket(s.sup)
    ensures Supervised(s, SupApply(s, ok))
  {
    if s.sup.HookStart? || s.sup.HookRunning? || s.sup.HookEnd? || s.sup.ToDisconnected? {
      HookSupervised(s, ok);
    } else if s.sup.WantLock? || s.sup.CheckClosed? || s.sup.SetConnected? || s.sup.DrainPop? || s.sup.Unlock? {
      CriticalSupervised(s, ok);
    } else {
      ReconnectSupervised(s, ok);
    }
  }

  lemma SuperviseLater(s: State, ok: bool)
    requires Inv(s) && SupEnabled(s) && !HoldsTicket(s.sup)
    ensures Later(s, SupApply(s, ok)) && WireGrows(s, SupApply(s, ok))
  {
    SuperviseTouches(s, ok);
    SameRequestsLater(s, SupApply(s, ok));
  }

  lemma WatchLater(s: State, t: nat, act: WatchAct)
    requires RequestsInv(s.requests, s.sup, s.sweep, Popped(s)) && HandInv(s.requests, s.sup, s.sweep, Popped(s))
    requires WatchEnabled(s, t, act)
    ensures Later(s, WatchApply(s, t, act)) && WireGrows(s, WatchApply(s, t, act))
  {
    assert RequestInv(t, s.requests[t], s.sup, s.sweep, Popped(s));
    var s' := WatchApply(s, t, act);
    OneRequestLater(s, s', t, s'.requests[t]);
  }

  lemma SweepLater(s: State)
    requires RequestsInv(s.requests, s.sup, s.sweep, Popped(s)) && HandInv(s.requests, s.sup, s.sweep, Popped(s))
    requires SweepEnabled(s)
    ensures Later(s, SweepApply(s)) && WireGrows(s, SweepApply(s))
  {
    var s' := SweepApply(s);
    if s'.requests != s.requests {
      var t := s.sweep.t;
      assert RequestInv(t, s.requests[t], s.sup, s.sweep, Popped(s));
      OneRequestLater(s, s', t, s'.requests[t]);
    } else {
      SameRequestsLater(s, s');
    }
  }

  lemma ChannelLater(s: State, a: Action)
    requires Inv(s) && Enabled(s, a) && !a.ByCall? && !a.ByWatch? && !a.SupStep? && !a.SweepStep?
    ensures Later(s, Apply(s, a)) && WireGrows(s, Apply(s, a))
  {
  }

  lemma StepLater(s: State, a: Action, s': State)
    requires Inv(s) && Step(s, a, s')
    ensures Later(s, s') && WireGrows(s, s')
  {
    match a
    case ByCall(c, act) => if act.OnceStep? { CallOnceLater(s, c, act.writeOk); } else { CallLater(s, c, act); }
    case ByWatch(t, act) => WatchLater(s, t, act);
    case SupStep(ok) =>
      if s.sup.DrainOnce? { DrainOnceLater(s, ok); }
      else if s.sup.DrainSend? { DrainSendLater(s, ok); }
      else if HoldsTicket(s.sup) { DrainLater(s, ok); }
      else { SuperviseLater(s, ok); }
    case SweepStep => SweepLater(s);
    case _ => ChannelLater(s, a);
  }

  /** The winner of a claim is final, results and frames are never withdrawn, and a closed channel installs no new generation. */
  lemma {:induction false} RunsOnlyGrow(cfg: Config, states: seq<State>, acts: seq<Action>, i: nat, j: nat)
    requires Execution(cfg, states, acts) && i <= j < |states|
    ensures Later(states[i], states[j])
    decreases j - i
  {
    if i < j {
      RunsOnlyGrow(cfg, states, acts, i, j - 1);
      ExecutionInv(cfg, states, acts, j - 1);
      StepLater(states[j - 1], acts[j - 1], states[j]);
    }
  }

  /** A caller told "queue timeout" or "cancelled" through a claim: its request is never put on the wire by a drain,
      neither before nor afterwards. */
  lemma AbandonedNeverTransmitted(cfg: Config, states: seq<State>, acts: seq<Action>, i: nat, j: nat, c: nat, k: nat)
    requires Execution(cfg, states, acts) && i < |states| && j < |states| && c < |states[i].calls|
    requires states[i].calls[c].pc in {Returned(TimedOut), Returned(Cancelled)}
    requires k < |states[j].wire| && states[j].wire[k].Drained?
    ensures states[i].calls[c].ticket.Some? && states[j].wire[k].ticket != states[i].calls[c].ticket.value
  {
    var s, s' := states[i], states[j];
    ExecutionInv(cfg, states, acts, i);
    ExecutionInv(cfg, states, acts, j);
    assert CallOwns(c, s.calls[c], s.requests);
    var t := s.calls[c].ticket.value;
    if i <= j {
      RunsOnlyGrow(cfg, states, acts, i, j);
    } else {
      RunsOnlyGrow(cfg, states, acts, j, i);
      assert s.wire[k] == s'.wire[k];
    }
  }

  /** A call that read Connected under the lock and then wrote its frame: no request queued before that reading is
      drained after it. */
  lemma DrainPrecedesLaterCalls(cfg: Config, states: seq<State>, acts: seq<Action>, i: nat, k: nat, m: nat)
    requires Execution(cfg, states, acts) && i < |states| && k < m < |states[i].wire|
    requires states[i].wire[k].Direct? && states[i].wire[m].Drained?
    ensures states[i].wire[k].call < |states[i].calls|
    ensures var call := states[i].calls[states[i].wire[k].call];
            call.gate.Some? ==> call.gate.value <= states[i].wire[m].ticket
  {
    ExecutionInv(cfg, states, acts, i);
  }

  /** The drain transmits only on the current generation, and only after that generation's hook returned nil. */
  lemma DrainAfterHook(cfg: Config, states: seq<State>, acts: seq<Action>, i: nat)
    requires Execution(cfg, states, acts) && i < |acts|
    requires |states[i].wire| < |states[i + 1].wire| && states[i + 1].wire[|states[i].wire|].Drained?
    ensures var tx := states[i + 1].wire[|states[i].wire|];
            tx.epoch == states[i].epoch && (cfg.hasHook ==> tx.epoch in states[i].hooked)
    ensures states[i].lock == BySupervisor
  {
    ExecutionInv(cfg, states, acts, i);
    RunsOnlyGrow(cfg, states, acts, 0, i);
    StepLater(states[i], acts[i], states[i + 1]);
  }

  // The tickets of the frames the drain wrote, in the order they went out.
  function DrainedTickets(wire: seq<Tx>): seq<nat> {
    if wire == [] then []
    else
      var tx := wire[|wire| - 1];
      DrainedTickets(wire[..|wire| - 1]) + (if tx.Drained? then [tx.ticket] else [])
  }

  // The first n requests in the order they were queued, keeping those a drain wrote.
  function WrittenInQueueOrder(requests: seq<Request>, current: Option<nat>, n: nat): seq<nat>
    requires n <= |requests|
  {
    if n == 0 then []
    else
      WrittenInQueueOrder(requests, current, n - 1)
      + (if DrainWrote(requests[n - 1], n - 1, current) then [n - 1] else [])
  }

  lemma {:induction false} SameWritten(requests: seq<Request>, requests': seq<Request>, cur: Option<nat>, cur': Option<nat>, n: nat)
    requires n <= |requests| && n <= |requests'|
    requires forall t :: 0 <= t < n ==> DrainWrote(requests[t], t, cur) == DrainWrote(requests'[t], t, cur')
    ensures WrittenInQueueOrder(requests, cur, n) == WrittenInQueueOrder(requests', cur', n)
  {
    if n > 0 {
      SameWritten(requests, requests', cur, cur', n - 1);
    }
  }

  lemma {:induction false} NoneWritten(requests: seq<Request>, cur: Option<nat>, m: nat, n: nat)
    requires m <= n <= |requests|
    requires forall t :: m <= t < n ==> !DrainWrote(requests[t], t, cur)
    ensures WrittenInQueueOrder(requests, cur, n) == WrittenInQueueOrder(requests, cur, m)
  {
    if m < n {
      NoneWritten(requests, cur, m, n - 1);
    }
  }

  predicate DrainOrder(s: State) {
    DrainedTickets(s.wire) == WrittenInQueueOrder(s.requests, Current(s.sup), |s.requests|)
  }

  lemma DrainOrderStep(s: State, a: Action, s': State)
    requires Inv(s) && Step(s, a, s') && DrainOrder(s)
    ensures DrainOrder(s')
  {
    StepLater(s, a, s');
    WireKeepsOrder(s, s');
  }

  // The drain writes one frame more.
  lemma DrainWrites(s: State, s': State)
    requires HandInv(s.requests, s.sup, s.sweep, Popped(s)) && RequestsInv(s.requests, s.sup, s.sweep, Popped(s)) && DrainOrder(s)
    requires s.sup.DrainOnce? && s.sup.once.Ready? && s'.wire == s.wire + [Drained(s.sup.t, s.sup.once.epoch)]
    requires s'.requests == s.requests && s'.sup == DrainSend(s.sup.t, Transmitted)
    ensures DrainOrder(s')
  {
    var n, t := |s.requests|, s.sup.t;
    var cur, cur' := Current(s.sup), Current(s'.sup);
    assert s'.wire[..|s.wire|] == s.wire;
    forall u | t < u < n ensures !DrainWrote(s.requests[u], u, cur') {
      assert RequestInv(u, s.requests[u], s.sup, s.sweep, Popped(s));
    }
    assert RequestInv(t, s.requests[t], s.sup, s.sweep, Popped(s));
    SameWritten(s.requests, s.requests, cur, cur', t);
    NoneWritten(s.requests, cur', t + 1, n);
    NoneWritten(s.requests, cur, t, n);
  }

  // The drain writes nothing.
  lemma DrainWritesNothing(s: State, s': State)
    requires DrainOrder(s) && WroteKept(s, s', None)
    requires s'.wire == s.wire || (exists c, epoch :: s'.wire == s.wire + [Direct(c, epoch)])
    ensures DrainOrder(s')
  {
    var n, n' := |s.requests|, |s'.requests|;
    var cur, cur' := Current(s.sup), Current(s'.sup);
    assert s'.wire == s.wire || s'.wire[..|s.wire|] == s.wire;
    SameWritten(s.requests, s'.requests, cur, cur', n);
    NoneWritten(s'.requests, cur', n, n');
  }

  lemma WireKeepsOrder(s: State, s': State)
    requires HandInv(s.requests, s.sup, s.sweep, Popped(s)) && RequestsInv(s.requests, s.sup, s.sweep, Popped(s))
    requires WireGrows(s, s') && DrainOrder(s)
    ensures DrainOrder(s')
  {
    if WroteKept(s, s', None) && (s'.wire == s.wire || exists c, epoch :: s'.wire == s.wire + [Direct(c, epoch)]) {
      DrainWritesNothing(s, s');
    } else {
      DrainWrites(s, s');
    }
  }

  /** The drain refines first-in first-out: the frames it has written are, in wire order, exactly the requests whose
      claim it won and which it transmitted, in the order they were queued. */
  lemma {:induction false} DrainRefinesFifo(cfg: Config, states: seq<State>, acts: seq<Action>, i: nat)
    requires Execution(cfg, states, acts) && i < |states|
    ensures DrainOrder(states[i])
  {
    if i > 0 {
      DrainRefinesFifo(cfg, states, acts, i - 1);
      ExecutionInv(cfg, states, acts, i - 1);
      DrainOrderStep(states[i - 1], acts[i - 1], states[i]);
    }
  }

  /** When the drain leaves its critical section, every request queued so far has been claimed, and every one that
      a drain claimed has its result. */
  lemma DrainSettlesAll(cfg: Config, states: seq<State>, acts: seq<Action>, i: nat, t: nat)
    requires Execution(cfg, states, acts) && i < |states| && states[i].sup == Unlock && t < |states[i].requests|
    ensures var r := states[i].requests[t];
            && r.claimedBy.Some?
            && (r.claimedBy.value in {Drain, DrainExpired} ==> |r.sent| == 1)
  {
    ExecutionInv(cfg, states, acts, i);
    var s := states[i];
    assert RequestInv(t, s.requests[t], s.sup, s.sweep, Popped(s));
  }

  // Ticket t can no longer reach the drain's write.
  predicate Spent(s: State, t: nat) {
    && t < |s.requests|
    && (s.requests[t].claimedBy in {Some(Watch), Some(Caller), Some(DrainExpired), Some(CloseSweep)} || s.sup == DrainExpire(t))
  }

  lemma SpentStep(s: State, a: Action, s': State, t: nat)
    requires Inv(s) && Step(s, a, s') && Spent(s, t)
    ensures Spent(s', t)
  {
    StepLater(s, a, s');
  }

  lemma BecomesSpent(s: State, a: Action, s': State, t: nat)
    requires Inv(s) && Step(s, a, s') && s.sup == DrainCtx(t) && CtxEnded(s, t) && a.SupStep?
    ensures Spent(s', t)
  {
  }

  lemma {:induction false} StaysSpent(cfg: Config, states: seq<State>, acts: seq<Action>, i: nat, j: nat, t: nat)
    requires Execution(cfg, states, acts) && i <= j < |states| && Spent(states[i], t)
    ensures Spent(states[j], t)
    decreases j - i
  {
    if i < j {
      StaysSpent(cfg, states, acts, i, j - 1, t);
      assert Inv(states[j - 1]) by { ExecutionInv(cfg, states, acts, j - 1); }
      assert Step(states[j - 1], acts[j - 1], states[j]);
      SpentStep(states[j - 1], acts[j - 1], states[j], t);
    }
  }

  /** A request whose context has ended when the drain looks at it is never transmitted by a drain. */
  lemma ExpiredNeverTransmitted(cfg: Config, states: seq<State>, acts: seq<Action>, i: nat, j: nat, t: nat, k: nat)
    requires Execution(cfg, states, acts) && i < |acts| && i < j < |states|
    requires states[i].sup == DrainCtx(t) && CtxEnded(states[i], t) && acts[i].SupStep?
    requires k < |states[j].wire| && states[j].wire[k].Drained?
    ensures states[j].wire[k].ticket != t
  {
    ExecutionInv(cfg, states, acts, i);
    BecomesSpent(states[i], acts[i], states[i + 1], t);
    StaysSpent(cfg, states, acts, i + 1, j, t);
    ExecutionInv(cfg, states, acts, j);
  }

  // The drain is past its look at the closed flag with ticket t.
  predicate PastLook(sup: SupPc, t: nat) {
    sup.DrainOnce? && sup.t == t && sup.once.Ready?
  }

  predicate NotDrained(wire: seq<Tx>, t: nat) {
    forall k :: 0 <= k < |wire| && wire[k].Drained? ==> wire[k].ticket != t
  }

  // The channel is closed, and ticket t neither written by a drain nor about to be.
  predicate Barred(s: State, t: nat) {
    s.closed && !PastLook(s.sup, t) && NotDrained(s.wire, t)
  }

  // Only a drain that finds the channel open gets past its look.
  lemma DrainOnceLooks(s: State, ok: bool, t: nat)
    requires SupEnabled(s) && s.sup.DrainOnce? && s.closed
    ensures !PastLook(SupApply(s, ok).sup, t)
  {
  }

  lemma OtherwiseNoLook(s: State, ok: bool, t: nat)
    requires SupEnabled(s) && !s.sup.DrainOnce?
    ensures !PastLook(SupApply(s, ok).sup, t)
  {
  }

  lemma StepLooks(s: State, a: Action, s': State, t: nat)
    requires Step(s, a, s') && s.closed && !PastLook(s.sup, t)
    ensures !PastLook(s'.sup, t)
  {
    match a
    case ByCall(c, act) => CallLeaves(s, c, act);
    case SupStep(ok) => if s.sup.DrainOnce? { DrainOnceLooks(s, ok, t); } else { OtherwiseNoLook(s, ok, t); }
    case _ =>
  }

  lemma BarredStep(s: State, a: Action, s': State, t: nat)
    requires Inv(s) && Step(s, a, s') && Barred(s, t)
    ensures Barred(s', t)
  {
    StepLooks(s, a, s', t);
    assert Later(s, s') && WireGrows(s, s') by { StepLater(s, a, s'); }
  }

  /** Once the channel is closed, a request that no drain has written is never written by one, unless the drain had looked at
      the closed flag for it before. */
  lemma {:induction false} ClosedNeverTransmitted(cfg: Config, states: seq<State>, acts: seq<Action>, i: nat, j: nat, t: nat)
    requires Execution(cfg, states, acts) && i <= j < |states| && states[i].closed
    requires NotDrained(states[i].wire, t) && !PastLook(states[i].sup, t)
    ensures NotDrained(states[j].wire, t) && Barred(states[j], t)
    decreases j - i
  {
    if i < j {
      ClosedNeverTransmitted(cfg, states, acts, i, j - 1, t);
      assert Inv(states[j - 1]) by { ExecutionInv(cfg, states, acts, j - 1); }
      assert Step(states[j - 1], acts[j - 1], states[j]);
      BarredStep(states[j - 1], acts[j - 1], states[j], t);
    }
  }

  lemma UnclaimedIsBarred(s: State, t: nat)
    requires Inv(s) && s.closed && t < |s.requests| && s.requests[t].claimedBy == None
    ensures Barred(s, t)
  {
  }

  /** A caller that leaves because the channel is closed, its request unclaimed: the request is never put on the wire by a
      drain, neither before nor afterwards. */
  lemma LeftBehindNeverTransmitted(cfg: Config, states: seq<State>, acts: seq<Action>, i: nat, j: nat, c: nat, t: nat)
    requires Execution(cfg, states, acts) && i < |acts| && acts[i] == ByCall(c, SeeClosed) && j < |states|
    requires c < |states[i].calls| && states[i].calls[c].pc == Awaiting(t)
    requires t < |states[i].requests| && Unclaimed(states[i], t)
    ensures NotDrained(states[j].wire, t)
  {
    var s := states[i];
    assert Step(s, acts[i], states[i + 1]);
    assert Inv(s) by { ExecutionInv(cfg, states, acts, i); }
    UnclaimedIsBarred(s, t);
    if i <= j {
      ClosedNeverTransmitted(cfg, states, acts, i, j, t);
    } else {
      assert Later(states[j], s) by { RunsOnlyGrow(cfg, states, acts, j, i); }
      forall k | 0 <= k < |states[j].wire| && states[j].wire[k].Drained? ensures states[j].wire[k].ticket != t {
        assert states[j].wire[k] == s.wire[k];
      }
    }
  }

  // Closed, not connected, and the supervisor not already past its last look at the closed flag.
  predicate DownForGood(s: State) {
    s.closed && s.state != Connected && s.sup != SetConnected
  }

  lemma DownStep(s: State, a: Action, s': State)
    requires Step(s, a, s') && DownForGood(s)
    ensures DownForGood(s')
  {
    match a
    case ByCall(c, act) => CallLeaves(s, c, act);
    case SupStep(ok) => DownSupStep(s, ok);
    case _ =>
  }

  lemma CallLeaves(s: State, c: nat, act: CallAct)
    requires CallEnabled(s, c, act)
    ensures var s' := CallApply(s, c, act);
            && s'.closed == s.closed && s'.state == s.state && s'.sup == s.sup && s'.owed == s.owed && s'.sweep == s.sweep
  {
  }

  lemma DownSupStep(s: State, ok: bool)
    requires SupEnabled(s) && DownForGood(s)
    ensures DownForGood(SupApply(s, ok))
  {
  }

  /** A closed channel that is not connected comes up again only through a supervisor that had already read `closed`
      as false under the lock. */
  lemma {:induction false} ClosedStaysDown(cfg: Config, states: seq<State>, acts: seq<Action>, i: nat, j: nat)
    requires Execution(cfg, states, acts) && i <= j < |states| && DownForGood(states[i])
    ensures DownForGood(states[j])
    decreases j - i
  {
    if i < j {
      ClosedStaysDown(cfg, states, acts, i, j - 1);
      assert DownForGood(states[j]) by {
        assert Step(states[j - 1], acts[j - 1], states[j]);
        DownStep(states[j - 1], acts[j - 1], states[j]);
      }
    }
  }

  // Closed and Connected, and nobody at work who will store another state.
  predicate UpForGood(s: State) {
    s.closed && s.state == Connected && s.sup == Exited && s.owed == 0 && s.sweep == NoSweep
  }

  lemma UpStep(s: State, a: Action, s': State)
    requires Step(s, a, s') && UpForGood(s) && !a.Terminate?
    ensures UpForGood(s')
  {
    match a
    case ByCall(c, act) => CallLeaves(s, c, act);
    case _ =>
  }

  /** A closed channel found Connected with its supervisor gone and no store owed stays Connected until `terminate` is called
      again. */
  lemma {:induction false} ClosedStaysUp(cfg: Config, states: seq<State>, acts: seq<Action>, i: nat, j: nat)
    requires Execution(cfg, states, acts) && i <= j < |states| && UpForGood(states[i])
    requires forall k :: i <= k < j ==> !acts[k].Terminate?
    ensures UpForGood(states[j])
    decreases j - i
  {
    if i < j {
      ClosedStaysUp(cfg, states, acts, i, j - 1);
      assert UpForGood(states[j]) by {
        assert Step(states[j - 1], acts[j - 1], states[j]);
        UpStep(states[j - 1], acts[j - 1], states[j]);
      }
    }
  }

  /** The bypass is open exactly while the supervisor waits for the session hook of the newest generation, and never while a
      drain does. */
  lemma BypassOnlyDuringHook(cfg: Config, states: seq<State>, acts: seq<Action>, i: nat)
    requires Execution(cfg, states, acts) && i < |states|
    ensures states[i].bypass <==> states[i].sup.HookRunning? || states[i].sup.HookEnd?
    ensures states[i].bypass ==> states[i].lock != BySupervisor
  {
    ExecutionInv(cfg, states, acts, i);
  }
}
