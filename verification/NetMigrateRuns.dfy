/** Runs of the migration machine that do happen: a reader outlives the socket it was blocked on, a write need not. */
module NetMigrateRuns {
  import opened Basics
  import opened NetMigrate

  ghost predicate Reachable(cfg: Config, s: State) {
    exists states, acts :: Execution(cfg, 0, states, acts) && states[|acts|] == s
  }

  lemma Go(cfg: Config, s: State, a: Action) returns (s': State)
    requires Reachable(cfg, s) && Enabled(s, a)
    ensures Reachable(cfg, s') && s' == Apply(s, a)
  {
    var states, acts :| Execution(cfg, 0, states, acts) && states[|acts|] == s;
    s' := Apply(s, a);
    var states', acts' := states + [s'], acts + [a];
    assert Execution(cfg, 0, states', acts') by {
      forall i | 0 <= i < |acts'| ensures Step(states'[i], acts'[i], states'[i + 1]) {
        if i < |acts| {
          assert Step(states[i], acts[i], states[i + 1]);
        }
      }
    }
    assert states'[|acts'|] == s';
  }

  // A reader is blocked on the first socket.
  lemma ReaderBlocks(cfg: Config) returns (s: State)
    ensures Reachable(cfg, s) && s == Init(cfg, 0).(readers := [Reader(false, Blocked(Endpoint(0, 1)))])
  {
    s := Init(cfg, 0);
    assert Execution(cfg, 0, [s], []);
    s := Go(cfg, s, ReadBegins);
    s := Go(cfg, s, ReadStep(0, Good));
    s := Go(cfg, s, ReadStep(0, Good));
    s := Go(cfg, s, ReadStep(0, Good));
    s := Go(cfg, s, ReadStep(0, Good));
  }

  // A switch is requested.
  lemma LoopStarts(cfg: Config, s0: State) returns (s: State)
    requires Reachable(cfg, s0) && s0 == Init(cfg, 0).(readers := s0.readers) && !cfg.edgeHello
    ensures Reachable(cfg, s) && s.cfg == cfg && s.readers == s0.readers && !s.closed && s.dead == None
    ensures s.closes == [0] && s.cur == Endpoint(0, 1) && s.loops == [Loop(Dialing, 1, 0, 0)]
  {
    s := Go(cfg, s0, SignalArrives);
    s := Go(cfg, s, SignalHandled(0));
  }

  // Its loop installs a second socket and closes the first.
  lemma LoopMigrates(cfg: Config, s0: State) returns (s: State)
    requires Reachable(cfg, s0) && s0 == Init(cfg, 0).(readers := s0.readers) && !cfg.edgeHello
    ensures Reachable(cfg, s) && s.readers == s0.readers && !s.closed && s.dead == None
    ensures s.closes == [1, 0] && s.cur == Endpoint(1, 2)
  {
    s := LoopStarts(cfg, s0);
    s := Go(cfg, s, LoopStep(true));
    assert s.closes == [0, 0] && LastPc(s.loops) == Dialled(1);
    s := Go(cfg, s, LoopStep(true));
    assert LastPc(s.loops) == CloseOld(0);
    s := Go(cfg, s, LoopStep(true));
  }

  // A reader blocked on a closed, replaced socket drops the failure.
  lemma ReaderDropsFailure(cfg: Config, s0: State) returns (s: State)
    requires Reachable(cfg, s0) && s0.readers == [Reader(false, Blocked(Endpoint(0, 1)))]
    requires s0.closes == [1, 0] && s0.cur == Endpoint(1, 2) && !s0.closed
    ensures Reachable(cfg, s) && s == s0.(readers := [Reader(false, LoopTop)])
  {
    s := Go(cfg, s0, ReadStep(0, Bad(SelfClosed)));
    s := Go(cfg, s, ReadStep(0, Good));
    s := Go(cfg, s, ReadStep(0, Good));
  }

  /** A reader blocked on the socket that a migration closes sees the failure and reads on, on the new socket. */
  lemma ReaderSurvivesMigration(cfg: Config) returns (s: State)
    requires !cfg.edgeHello
    ensures Reachable(cfg, s) && s.closes == [1, 0] && s.cur == Endpoint(1, 2)
    ensures |s.readers| == 1 && s.readers[0].pc == Blocked(s.cur)
  {
    s := ReaderBlocks(cfg);
    s := LoopMigrates(cfg, s);
    s := ReaderDropsFailure(cfg, s);
    s := Go(cfg, s, ReadStep(0, Good));
    s := Go(cfg, s, ReadStep(0, Good));
    s := Go(cfg, s, ReadStep(0, Good));
  }

  // A writer has picked the first socket and is about to write.
  lemma WriterCalls(cfg: Config) returns (s: State)
    ensures Reachable(cfg, s) && s == Init(cfg, 0).(writer := Writer(false, WriteCall(Endpoint(0, 1)), 0, None, 0, Network))
  {
    s := Init(cfg, 0);
    assert Execution(cfg, 0, [s], []);
    s := Go(cfg, s, WriteBegins);
    s := Go(cfg, s, WriteStep(Good));
    s := Go(cfg, s, WriteStep(Good));
    s := Go(cfg, s, WriteStep(Good));
  }

  // A switch starts at 0, dials for longer than the window, and replaces the socket the writer has picked.
  lemma SlowSwitch(cfg: Config, s0: State) returns (s: State)
    requires Reachable(cfg, s0) && s0 == Init(cfg, 0).(writer := s0.writer)
    ensures Reachable(cfg, s) && s.cfg == cfg && s.writer == s0.writer && !s.closed && s.dead == None && s.switching
    ensures s.closes == [1, 0] && s.cur == Endpoint(1, 2) && s.windowStart == Some(0) && s.clock == cfg.window + 1
    ensures |s.loops| == 1
  {
    s := SlowDial(cfg, s0);
    s := Go(cfg, s, LoopStep(true));
    assert LastPc(s.loops) == CloseOld(0);
    s := Go(cfg, s, LoopStep(true));
  }

  lemma SlowDial(cfg: Config, s0: State) returns (s: State)
    requires Reachable(cfg, s0) && s0 == Init(cfg, 0).(writer := s0.writer)
    ensures Reachable(cfg, s) && s.cfg == cfg && s.writer == s0.writer && !s.closed && s.dead == None && s.switching
    ensures s.closes == [0, 0] && s.cur == Endpoint(0, 1) && s.windowStart == Some(0) && s.clock == cfg.window + 1
    ensures s.loops == [Loop(Dialled(1), 1, 0, 0)]
  {
    s := Go(cfg, s0, SignalArrives);
    s := Go(cfg, s, SignalHandled(0));
    assert s.loops == [Loop(Dialing, 1, 0, 0)] && s.windowStart == Some(0);
    s := Go(cfg, s, Tick(cfg.window + 1));
    s := Go(cfg, s, LoopStep(true));
    if cfg.edgeHello {
      s := Go(cfg, s, LoopStep(true));
    }
  }

  // The write fails; its request merges into the running switch, and the window is over.
  lemma WriteSurfaces(cfg: Config, s0: State) returns (s: State)
    requires Reachable(cfg, s0) && s0.cfg == cfg && !s0.closed && s0.dead == None && s0.switching && |s0.loops| == 1
    requires s0.writer == Writer(false, WriteCall(Endpoint(0, 1)), 0, None, 0, Network) && s0.closes == [1, 0]
    requires s0.windowStart == Some(0) && s0.clock == cfg.window + 1
    ensures Reachable(cfg, s) && !s.closed && s.dead == None && s.cur == s0.cur
    ensures s.writer == Writer(false, WriteDone(Surfaced), cfg.window + 1, Some(0), 0, SelfClosed)
  {
    s := WriteAsks(cfg, s0);
    s := RequestMerges(cfg, s);
    s := Go(cfg, s, WriteStep(Good));
    s := Go(cfg, s, WriteStep(Good));
  }

  lemma WriteAsks(cfg: Config, s0: State) returns (s: State)
    requires Reachable(cfg, s0) && !s0.closed && s0.closes == [1, 0]
    requires s0.writer == Writer(false, WriteCall(Endpoint(0, 1)), 0, None, 0, Network)
    ensures Reachable(cfg, s) && s == s0.(writer := Writer(false, AskLocked(s0.clock), 0, None, 0, SelfClosed))
  {
    s := Go(cfg, s0, WriteStep(Bad(SelfClosed)));
    s := Go(cfg, s, WriteStep(Good));
    s := Go(cfg, s, WriteStep(Good));
  }

  lemma RequestMerges(cfg: Config, s0: State) returns (s: State)
    requires Reachable(cfg, s0) && s0.switching && |s0.loops| == 1 && s0.writer.pc.AskLocked?
    ensures Reachable(cfg, s) && s == s0.(writer := s0.writer.(pc := ReadClock), pending := s.pending, loops := s.loops)
  {
    s := Go(cfg, s0, WriteStep(Good));
  }

  /** A write error the flow inflicted on itself can be passed up, on an open and living flow: a switch that takes longer than
      the window closes the socket under a write, whose own request opens no new window. */
  lemma SelfInflictedWriteSurfaces(cfg: Config) returns (s: State)
    ensures Reachable(cfg, s) && !s.closed && s.dead == None && s.cur == Endpoint(1, 2)
    ensures s.writer.pc == WriteDone(Surfaced) && s.writer.cause == SelfClosed
  {
    s := WriterCalls(cfg);
    s := SlowSwitch(cfg, s);
    s := WriteSurfaces(cfg, s);
  }
}
