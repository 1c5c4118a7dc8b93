/** Runs of the reconnect-queue machine that do happen: the queue does its work, and what is not promised can fail. */
module ReconnectQueueRuns {
  import opened Basics
  import opened ReconnectQueue
  import Results = ReconnectQueueResults

  ghost predicate Reachable(cfg: Config, s: State) {
    exists states, acts :: Execution(cfg, states, acts) && states[|acts|] == s
  }

  lemma Go(cfg: Config, s: State, a: Action) returns (s': State)
    requires Reachable(cfg, s) && Enabled(s, a)
    ensures Reachable(cfg, s') && s' == Apply(s, a)
  {
    var states, acts :| Execution(cfg, states, acts) && states[|acts|] == s;
    s' := Apply(s, a);
    var states', acts' := states + [s'], acts + [a];
    assert Execution(cfg, states', acts') by {
      forall i | 0 <= i < |acts'| ensures Step(states'[i], acts'[i], states'[i + 1]) {
        if i < |acts| {
          assert Step(states[i], acts[i], states[i + 1]);
        }
      }
    }
    assert states'[|acts'|] == s';
  }

  lemma Started(cfg: Config) returns (s: State)
    ensures Reachable(cfg, s) && s == Init(cfg)
  {
    s := Init(cfg);
    assert Execution(cfg, [s], []);
  }

  // The connection is lost, and the supervisor sets out to dial.
  lemma ConnectionIsLost(cfg: Config) returns (s: State)
    requires cfg.autoReconnect
    ensures Reachable(cfg, s) && s == Init(cfg).(state := Reconnecting, sup := Dialing(true))
  {
    s := Started(cfg);
    s := Go(cfg, s, ConnectionEnds);
    s := Go(cfg, s, SupStep(true));
    s := Go(cfg, s, SupStep(true));
  }

  // A call arrives meanwhile and is queued.
  lemma CallIsQueued(cfg: Config) returns (s: State)
    requires cfg.queueSize > 0 && cfg.autoReconnect
    ensures Reachable(cfg, s)
    ensures s == Init(cfg).(state := Reconnecting, sup := Dialing(true), queue := [0],
                            calls := [Call(false, Awaiting(0), false, Some(0), None)], requests := [Request(0, None, [], Sleeping)])
  {
    s := ConnectionIsLost(cfg);
    s := Go(cfg, s, Arrive(false));
    s := Go(cfg, s, ByCall(0, ReadBypass));
    s := Go(cfg, s, ByCall(0, TakeLock));
    s := Go(cfg, s, ByCall(0, ReadState));
    s := Go(cfg, s, ByCall(0, Enqueue));
    s := Go(cfg, s, ByCall(0, ReleaseLock));
  }

  // A new generation is dialled and installed.
  lemma Redialled(cfg: Config, s0: State) returns (s: State)
    requires Reachable(cfg, s0) && s0.cfg == cfg && s0.sup == Dialing(true) && s0.lock == Free
    requires !s0.closed && !s0.lifecycleHeld && cfg.hasHook
    ensures Reachable(cfg, s) && s == s0.(epoch := s0.epoch + 1, sup := HookStart)
  {
    s := Go(cfg, s0, SupStep(true));
    s := Go(cfg, s, SupStep(true));
    s := Go(cfg, s, SupStep(true));
  }

  // Its hook has returned nil, and the supervisor has looked at the closed flag for the last time.
  lemma Reconnected(cfg: Config, s0: State) returns (s: State)
    requires Reachable(cfg, s0) && s0.cfg == cfg && s0.sup == Dialing(true) && s0.lock == Free
    requires !s0.closed && !s0.lifecycleHeld && !s0.bypass && cfg.hasHook
    ensures Reachable(cfg, s)
    ensures s == s0.(epoch := s0.epoch + 1, hooked := s0.hooked + {s0.epoch + 1}, sup := SetConnected, lock := BySupervisor)
  {
    s := Redialled(cfg, s0);
    s := Go(cfg, s, SupStep(true));
    s := Go(cfg, s, SupStep(true));
    s := Go(cfg, s, SupStep(true));
    s := Go(cfg, s, SupStep(true));
    s := Go(cfg, s, SupStep(true));
  }

  // The drain takes the request out of the queue.
  lemma DrainTakes(cfg: Config, s0: State) returns (s: State)
    requires Reachable(cfg, s0) && s0.sup == SetConnected && s0.queue == [0]
    ensures Reachable(cfg, s) && s == s0.(state := Connected, queue := [], sup := DrainCtx(0))
  {
    s := Go(cfg, s0, SupStep(true));
    s := Go(cfg, s, SupStep(true));
  }

  // It claims the request and is about to transmit it.
  lemma DrainClaims(cfg: Config, s0: State) returns (s: State)
    requires Reachable(cfg, s0) && s0.sup == SetConnected && s0.queue == [0] && |s0.requests| == 1 && |s0.calls| == 1
    requires s0.requests[0] == Request(0, None, [], Sleeping) && !s0.calls[0].ctxDone
    ensures Reachable(cfg, s)
    ensures s == s0.(state := Connected, queue := [], sup := DrainOnce(0, CheckState),
                     requests := [Request(0, Some(Drain), [], Sleeping)])
  {
    s := DrainTakes(cfg, s0);
    s := Go(cfg, s, SupStep(true));
    s := Go(cfg, s, SupStep(true));
  }

  // It transmits.
  lemma DrainTransmits(cfg: Config, s0: State) returns (s: State)
    requires Reachable(cfg, s0) && s0.sup == DrainOnce(0, CheckState) && s0.state == Connected && !s0.closed
    ensures Reachable(cfg, s)
    ensures s == s0.(sup := DrainSend(0, Transmitted), wire := s0.wire + [Drained(0, s0.epoch)])
  {
    s := Go(cfg, s0, SupStep(true));
    s := Go(cfg, s, SupStep(true));
    s := Go(cfg, s, SupStep(true));
  }

  // It hands over the result and leaves.
  lemma DrainLeaves(cfg: Config, s0: State) returns (s: State)
    requires Reachable(cfg, s0) && s0.sup == DrainSend(0, Transmitted)
    requires s0.queue == [] && s0.requests == [Request(0, Some(Drain), [], Sleeping)]
    ensures Reachable(cfg, s)
    ensures s == s0.(sup := Watching, lock := Free, requests := [Request(0, Some(Drain), [Transmitted], Sleeping)])
  {
    s := Go(cfg, s0, SupStep(true));
    assert s0.requests[0].sent + [Transmitted] == [Transmitted];
    assert s.requests == [Request(0, Some(Drain), [Transmitted], Sleeping)];
    s := Go(cfg, s, SupStep(true));
    s := Go(cfg, s, SupStep(true));
  }

  /** A call queued during a reconnect is transmitted by the drain on the new generation, and its caller gets the result. */
  lemma QueuedCallIsDrained(cfg: Config) returns (s: State)
    requires cfg.queueSize > 0 && cfg.autoReconnect && cfg.hasHook
    ensures Reachable(cfg, s) && s.wire == [Drained(0, 2)]
    ensures |s.calls| == 1 && s.calls[0].pc == Returned(Transmitted) && s.state == Connected && s.lock == Free
  {
    s := CallIsQueued(cfg);
    s := Reconnected(cfg, s);
    s := DrainClaims(cfg, s);
    s := DrainTransmits(cfg, s);
    s := DrainLeaves(cfg, s);
    s := Go(cfg, s, ByCall(0, Receive));
  }

  // The channel is terminated meanwhile, and the state stored.
  lemma TerminatedMeanwhile(cfg: Config) returns (s: State)
    requires cfg.autoReconnect && cfg.hasHook
    ensures Reachable(cfg, s) && s.closed && s.sup == SetConnected && s.lock == BySupervisor && s.owed == 0
    ensures s.queue == [] && s.sweep == NoSweep
  {
    s := ConnectionIsLost(cfg);
    s := Reconnected(cfg, s);
    s := Go(cfg, s, Terminate);
    s := Go(cfg, s, StoreDisconnected);
  }

  /** "Closed implies not connected" fails: a supervisor past its last look at the closed flag sets Connected after the
      channel was terminated and the state stored, and then is gone with no store owed. */
  lemma ClosedYetConnected(cfg: Config) returns (s: State)
    requires cfg.autoReconnect && cfg.hasHook
    ensures Reachable(cfg, s) && Results.UpForGood(s) && s.lock == Free
  {
    s := TerminatedMeanwhile(cfg);
    s := Go(cfg, s, SupStep(true));
    s := Go(cfg, s, SupStep(true));
    s := Go(cfg, s, SupStep(true));
    s := Go(cfg, s, SupervisorStops);
  }
}
