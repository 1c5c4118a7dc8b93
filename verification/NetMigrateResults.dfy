/** What holds over every run of the migration machine. */
module NetMigrateResults {
  import opened Basics
  import opened NetMigrate
  import opened NetMigrateFrames
  import opened NetMigrateInvariant

  lemma {:induction false} ExecutionInv(cfg: Config, now: nat, states: seq<State>, acts: seq<Action>, i: nat)
    requires Execution(cfg, now, states, acts) && i < |states|
    ensures Inv(states[i])
  {
    if i == 0 {
      InitInv(cfg, now);
    } else {
      ExecutionInv(cfg, now, states, acts, i - 1);
      StepInv(states[i - 1], acts[i - 1], states[i]);
    }
  }

  // ---------------------------------------------------------------------------------------------
  // What no step takes back
  // ---------------------------------------------------------------------------------------------

  // The thresholds stay; a closed flow stays closed on its endpoint; a dead one keeps its reason.
  predicate Kept(s: State, s': State) {
    && s'.cfg == s.cfg
    && (s.closed ==> s'.closed && s'.cur == s.cur)
    && (s.dead.Some? ==> s'.dead == s.dead)
  }

  lemma StepKeeps(s: State, a: Action, s': State)
    requires Step(s, a, s')
    ensures Kept(s, s')
  {
    match a
    case ReadStep(r, answer) => ReadFrames(s, r, answer);
    case WriteStep(answer) => WriteFrames(s, answer);
    case LoopStep(ok) => LoopFrames(s, ok);
    case _ => OtherFrames(s, a, s');
  }

  // ---------------------------------------------------------------------------------------------
  // Sockets
  // ---------------------------------------------------------------------------------------------

  /** Every socket ever dialled is closed at most once; between migrations, an open flow has exactly one open socket, the
      current one; when Close and any migration are done, none is open. */
  lemma SocketsAccountedFor(cfg: Config, now: nat, states: seq<State>, acts: seq<Action>, i: nat, sock: nat)
    requires Execution(cfg, now, states, acts) && i < |states| && sock < |states[i].closes|
    ensures states[i].closes[sock] <= 1
    ensures !Live(states[i]) && !states[i].closed ==> (states[i].closes[sock] == 0 <==> sock == states[i].cur.sock)
    ensures !Live(states[i]) && states[i].closing == CloseDone ==> states[i].closes[sock] == 1
  {
    ExecutionInv(cfg, now, states, acts, i);
  }

  /** Once the flow is closed the current endpoint is frozen. */
  lemma {:induction false} ClosedFreezesEndpoint(cfg: Config, now: nat, states: seq<State>, acts: seq<Action>, i: nat, j: nat)
    requires Execution(cfg, now, states, acts) && i <= j < |states| && states[i].closed
    ensures states[j].closed && states[j].cur == states[i].cur
    decreases j - i
  {
    if i < j {
      ClosedFreezesEndpoint(cfg, now, states, acts, i, j - 1);
      assert Kept(states[j - 1], states[j]) by { StepKeeps(states[j - 1], acts[j - 1], states[j]); }
    }
  }

  /** A reader never surfaces a failure the flow inflicted on itself: what it passes up is a network failure. */
  lemma SelfInflictedErrorsStayInvisible(cfg: Config, now: nat, states: seq<State>, acts: seq<Action>, i: nat, r: nat)
    requires Execution(cfg, now, states, acts) && i < |states| && r < |states[i].readers|
    requires states[i].readers[r].pc.ReadDone? && states[i].readers[r].pc.res.Failure?
    ensures states[i].readers[r].pc.res.cause == Network
  {
    ExecutionInv(cfg, now, states, acts, i);
    assert ReaderInv(states[i].readers[r], states[i].cur, states[i].closes, states[i].dead);
  }

  // The read on ep has failed, and ep is the current endpoint.
  predicate FailedOnCurrent(s: State, r: nat, ep: Endpoint) {
    r < |s.readers| && s.readers[r].pc.NotClosed? && s.readers[r].pc.ep == ep && s.cur == ep
  }

  predicate Surfaces(s: State, r: nat, ep: Endpoint) {
    r < |s.readers| && Surfacing(s.readers[r].pc, ep)
  }

  // Anything a reader does apart from judging a failure leads to none.
  lemma ReadsQuietly(s: State, r: nat, answer: Answer, ep: Endpoint)
    requires ReadEnabled(s, r, answer) && !s.readers[r].pc.NotClosed? && !s.readers[r].pc.StillCurrent?
    ensures !Surfaces(ReadApply(s, r, answer), r, ep)
  {
    match s.readers[r].pc
    case SeenEp(_) => BlockFrame(s, r, answer);
    case Blocked(_) => BlockFrame(s, r, answer);
    case ReadFailed(_, _) => BlockFrame(s, r, answer);
    case Timers(_) => TimersFrame(s, r, answer);
    case ReadMarking => MarkFrame(s, r, answer);
    case ReadNoting => NoteFrame(s, r, answer);
    case GotData => NoteFrame(s, r, answer);
    case _ => StartFrame(s, r, answer);
  }

  lemma ReadSurfaces(s: State, r: nat, answer: Answer, ep: Endpoint)
    requires ReadEnabled(s, r, answer) && Surfaces(ReadApply(s, r, answer), r, ep)
    ensures Surfacing(s.readers[r].pc, ep) || FailedOnCurrent(s, r, ep)
  {
    if s.readers[r].pc.NotClosed? {
      CompareFrame(s, r, answer);
    } else if s.readers[r].pc.StillCurrent? {
      CurrentFrame(s, r, answer);
    } else {
      ReadsQuietly(s, r, answer, ep);
    }
  }

  lemma OthersDoNotSurface(s: State, a: Action, s': State, r: nat, ep: Endpoint)
    requires Step(s, a, s') && !(a.ReadStep? && a.r == r) && r < |s'.readers| && Surfacing(s'.readers[r].pc, ep)
    ensures r < |s.readers| && Surfacing(s.readers[r].pc, ep)
  {
    match a
    case ReadStep(q, answer) => ReadFrames(s, q, answer);
    case WriteStep(answer) => WriteFrames(s, answer);
    case LoopStep(ok) => LoopFrames(s, ok);
    case ReadBegins =>
    case _ => OtherFrames(s, a, s');
  }

  /** A failure a reader passes up is of a socket that was still the current one after the read on it had failed. */
  lemma {:induction false} SurfacedFailureWasCurrent(cfg: Config, now: nat, states: seq<State>, acts: seq<Action>, i: nat, r: nat,
                                                     ep: Endpoint)
      returns (j: nat)
    requires Execution(cfg, now, states, acts) && i < |states| && r < |states[i].readers|
    requires Surfacing(states[i].readers[r].pc, ep)
    ensures j < i && FailedOnCurrent(states[j], r, ep)
  {
    var s, a, s' := states[i - 1], acts[i - 1], states[i];
    if a.ReadStep? && a.r == r {
      ReadSurfaces(s, r, a.answer, ep);
      if FailedOnCurrent(s, r, ep) {
        return i - 1;
      }
    } else {
      OthersDoNotSurface(s, a, s', r, ep);
    }
    j := SurfacedFailureWasCurrent(cfg, now, states, acts, i - 1, r, ep);
  }

  /** A reader blocked on a replaced socket is not left there: the socket is closed, or the running loop is about to. */
  lemma StaleReaderIsWoken(cfg: Config, now: nat, states: seq<State>, acts: seq<Action>, i: nat, r: nat)
    requires Execution(cfg, now, states, acts) && i < |states| && r < |states[i].readers|
    requires states[i].readers[r].pc.Blocked? && states[i].readers[r].pc.ep != states[i].cur
    ensures var s, sock := states[i], states[i].readers[r].pc.ep.sock;
            sock < |s.closes| && (s.closes[sock] == 1 || LastPc(s.loops) == CloseOld(sock))
  {
    ExecutionInv(cfg, now, states, acts, i);
    assert ReaderInv(states[i].readers[r], states[i].cur, states[i].closes, states[i].dead);
  }

  // ---------------------------------------------------------------------------------------------
  // The switch loop
  // ---------------------------------------------------------------------------------------------

  /** At most one switch loop is alive, and the generation counts the successful migrations. */
  lemma OneLoopAtATime(cfg: Config, now: nat, states: seq<State>, acts: seq<Action>, i: nat, k: nat)
    requires Execution(cfg, now, states, acts) && i < |states| && k < |states[i].loops|
    ensures states[i].loops[k].pc != LoopDone ==> states[i].switching && k == |states[i].loops| - 1
    ensures !Live(states[i]) ==> !states[i].switching && states[i].cur.gen == 1 + states[i].switches
    ensures states[i].switches <= states[i].cur.gen - 1 <= states[i].switches + 1
  {
    ExecutionInv(cfg, now, states, acts, i);
  }

  /** One loop tries at most two migrations plus one for each request merged into it while it ran. */
  lemma AttemptsAreBounded(cfg: Config, now: nat, states: seq<State>, acts: seq<Action>, i: nat, k: nat)
    requires Execution(cfg, now, states, acts) && i < |states| && k < |states[i].loops|
    ensures states[i].loops[k].attempts <= 2 + states[i].loops[k].merged
  {
    ExecutionInv(cfg, now, states, acts, i);
  }

  // How many steps a loop has before it at most, once nothing is merged into it any more.
  function StepsLeft(pc: LoopPc): nat {
    match pc
    case BackOff => 10
    case Dialing => 9
    case Greeting(_) => 8
    case Dialled(_) => 7
    case CloseOld(_) => 6
    case ResetBudget => 5
    case ClearSince => 4
    case Refused(_) => 4
    case NoteSwitch => 3
    case NoteFailure => 3
    case Aborting(_) => 3
    case Decide(_) => 2
    case Finishing => 1
    case LoopDone => 0
  }

  // A request taken up makes for one more attempt, of at most nine steps.
  function Measure(pc: LoopPc, pending: bool): nat {
    StepsLeft(pc) + (if pending && pc != LoopDone then 9 else 0)
  }

  function LoopMeasure(s: State): nat {
    Measure(LastPc(s.loops), s.pending)
  }

  lemma AttemptSteps(s: State, ok: bool)
    requires LoopEnabled(s) && (LastPc(s.loops) == Dialing || LastPc(s.loops).Greeting? || LastPc(s.loops).Dialled?)
    ensures LoopMeasure(LoopApply(s, ok)) < LoopMeasure(s)
  {
  }

  lemma FailureSteps(s: State, ok: bool)
    requires LoopEnabled(s) && (LastPc(s.loops).Refused? || LastPc(s.loops).Aborting? || LastPc(s.loops) == NoteFailure)
    ensures LoopMeasure(LoopApply(s, ok)) < LoopMeasure(s)
  {
  }

  lemma SettleSteps(s: State, ok: bool)
    requires LoopEnabled(s) && (LastPc(s.loops).CloseOld? || LastPc(s.loops) in {ResetBudget, ClearSince, NoteSwitch})
    ensures LoopMeasure(LoopApply(s, ok)) < LoopMeasure(s)
  {
  }

  lemma DecideSteps(s: State, ok: bool)
    requires LoopEnabled(s) && (LastPc(s.loops).Decide? || LastPc(s.loops) == BackOff || LastPc(s.loops) == Finishing)
    ensures LoopMeasure(LoopApply(s, ok)) < LoopMeasure(s)
  {
  }

  lemma LoopSteps(s: State, ok: bool)
    requires LoopEnabled(s)
    ensures LoopMeasure(LoopApply(s, ok)) < LoopMeasure(s)
  {
    match LastPc(s.loops)
    case Dialing => AttemptSteps(s, ok);
    case Greeting(_) => AttemptSteps(s, ok);
    case Dialled(_) => AttemptSteps(s, ok);
    case Refused(_) => FailureSteps(s, ok);
    case Aborting(_) => FailureSteps(s, ok);
    case NoteFailure => FailureSteps(s, ok);
    case CloseOld(_) => SettleSteps(s, ok);
    case ResetBudget => SettleSteps(s, ok);
    case ClearSince => SettleSteps(s, ok);
    case NoteSwitch => SettleSteps(s, ok);
    case _ => DecideSteps(s, ok);
  }

  function Merged(loops: seq<Loop>): nat {
    if |loops| > 0 then loops[|loops| - 1].merged else 0
  }

  // `steps` steps of the loop have brought it that much nearer to its end; a request puts it off by one attempt at most.
  predicate Nearer(s: State, s': State, steps: nat) {
    && |s.loops| <= |s'.loops|
    && (|s.loops| == |s'.loops| ==>
          && Merged(s.loops) <= Merged(s'.loops)
          && steps + LoopMeasure(s') <= LoopMeasure(s) + 9 * (Merged(s'.loops) - Merged(s.loops)))
  }

  function LoopStepOf(a: Action): nat {
    if a.LoopStep? then 1 else 0
  }

  lemma RequestNears(s: State, now: nat)
    requires Inv(s)
    ensures Nearer(s, HandleRequest(s, now), 0)
  {
  }

  lemma WriteNears(s: State, answer: Answer)
    requires Inv(s) && WriteEnabled(s, answer)
    ensures Nearer(s, WriteApply(s, answer), 0)
  {
    WriteFrames(s, answer);
    if s.writer.pc.AskLocked? {
      RequestNears(s, s.writer.pc.now);
    }
  }

  lemma LoopNears(s: State, ok: bool)
    requires LoopEnabled(s)
    ensures Nearer(s, LoopApply(s, ok), 1)
  {
    LoopFrames(s, ok);
    LoopSteps(s, ok);
  }

  lemma StepNears(s: State, a: Action, s': State)
    requires Inv(s) && Step(s, a, s')
    ensures Nearer(s, s', LoopStepOf(a))
  {
    match a
    case ReadStep(r, answer) => ReadFrames(s, r, answer);
    case WriteStep(answer) => WriteNears(s, answer);
    case LoopStep(ok) => LoopNears(s, ok);
    case SignalHandled(i) => RequestNears(s, s.signals[i].value);
    case _ => OtherFrames(s, a, s');
  }

  // The steps a switch loop makes between two moments.
  function StepsBetween(acts: seq<Action>, i: nat, j: nat): nat
    requires i <= j <= |acts|
    decreases j - i
  {
    if i == j then 0 else StepsBetween(acts, i, j - 1) + LoopStepOf(acts[j - 1])
  }

  lemma NearerOn(s0: State, s1: State, s2: State, m: nat, n: nat)
    requires Nearer(s0, s1, m) && Nearer(s1, s2, n)
    ensures Nearer(s0, s2, m + n)
  {
    if |s0.loops| == |s2.loops| {
      var d1, d2 := Merged(s1.loops) - Merged(s0.loops), Merged(s2.loops) - Merged(s1.loops);
      assert 9 * d1 + 9 * d2 == 9 * (d1 + d2);
    }
  }

  lemma {:induction false} NearsOverStretch(cfg: Config, now: nat, states: seq<State>, acts: seq<Action>, i: nat, j: nat)
    requires Execution(cfg, now, states, acts) && i <= j < |states|
    ensures Nearer(states[i], states[j], StepsBetween(acts, i, j))
    decreases j - i
  {
    if i < j {
      NearsOverStretch(cfg, now, states, acts, i, j - 1);
      assert Nearer(states[j - 1], states[j], LoopStepOf(acts[j - 1])) by {
        ExecutionInv(cfg, now, states, acts, j - 1);
        assert Step(states[j - 1], acts[j - 1], states[j]);
        StepNears(states[j - 1], acts[j - 1], states[j]);
      }
      NearerOn(states[i], states[j - 1], states[j], StepsBetween(acts, i, j - 1), LoopStepOf(acts[j - 1]));
    }
  }

  lemma MeasureBound(s: State)
    ensures (if Live(s) then 1 else 0) <= LoopMeasure(s) <= 19
  {
  }

  lemma LiveLoopGoesOn(s: State)
    requires Inv(s) && Live(s)
    ensures LoopEnabled(s)
  {
  }

  /** A switch loop ends. While it lives it can make its next step, and over any stretch in which no new loop is started it
      makes at most 19 steps, plus 9 for each request merged into it meanwhile; it is done if it makes them all. */
  lemma LoopEnds(cfg: Config, now: nat, states: seq<State>, acts: seq<Action>, i: nat, j: nat)
    requires Execution(cfg, now, states, acts) && i <= j < |states| && |states[i].loops| == |states[j].loops|
    ensures Merged(states[i].loops) <= Merged(states[j].loops)
    ensures StepsBetween(acts, i, j) <= 19 + 9 * (Merged(states[j].loops) - Merged(states[i].loops))
    ensures Live(states[j]) ==>
              && LoopEnabled(states[j])
              && StepsBetween(acts, i, j) < 19 + 9 * (Merged(states[j].loops) - Merged(states[i].loops))
  {
    NearsOverStretch(cfg, now, states, acts, i, j);
    MeasureBound(states[i]);
    MeasureBound(states[j]);
    if Live(states[j]) {
      assert Inv(states[j]) by { ExecutionInv(cfg, now, states, acts, j); }
      LiveLoopGoesOn(states[j]);
    }
  }

  // ---------------------------------------------------------------------------------------------
  // Swallowed write errors and death
  // ---------------------------------------------------------------------------------------------

  lemma {:induction false} ConfigStays(cfg: Config, now: nat, states: seq<State>, acts: seq<Action>, i: nat)
    requires Execution(cfg, now, states, acts) && i < |states|
    ensures states[i].cfg == cfg
  {
    if i > 0 {
      ConfigStays(cfg, now, states, acts, i - 1);
      StepKeeps(states[i - 1], acts[i - 1], states[i]);
    }
  }

  /** Between migrations at most swallowMax + 1 write errors are swallowed, and one past the limit leaves the flow dead
      or its writer on the way to marking it so. */
  lemma SwallowBudget(cfg: Config, now: nat, states: seq<State>, acts: seq<Action>, i: nat)
    requires Execution(cfg, now, states, acts) && i < |states|
    ensures states[i].swallowed <= cfg.swallowMax + 1
    ensures states[i].swallowed > cfg.swallowMax && (states[i].writer.pc.WriteIdle? || states[i].writer.pc.WriteDone?) ==>
              states[i].dead.Some?
  {
    ExecutionInv(cfg, now, states, acts, i);
    ConfigStays(cfg, now, states, acts, i);
  }

  // The writer has counted an error it has not yet reported as written.
  function Pending(pc: WriterPc): nat {
    if pc.TouchSince? || pc.Judge? || pc.WriteMarking? || pc.WriteNoting? then 1 else 0
  }

  // The step reports a failed write as written.
  function Swallows(s: State, s': State): nat {
    if s'.writer.pc == WriteDone(WriteResult.Swallowed) && s.writer.pc != s'.writer.pc then 1 else 0
  }

  // How many failed writes were reported as written between two moments.
  function SwallowedBetween(states: seq<State>, i: nat, j: nat): nat
    requires i <= j < |states|
    decreases j - i
  {
    if i == j then 0 else SwallowedBetween(states, i, j - 1) + Swallows(states[j - 1], states[j])
  }

  // The budget starts anew.
  predicate Resets(s: State, a: Action) {
    a.LoopStep? && LastPc(s.loops) == ResetBudget
  }

  predicate Counted(s: State, s': State) {
    Swallows(s, s') + Pending(s'.writer.pc) + s.swallowed == s'.swallowed + Pending(s.writer.pc)
  }

  lemma TallyCounts(s: State, answer: Answer)
    requires WriteEnabled(s, answer) && (s.writer.pc == CountSwallow || s.writer.pc.TouchSince?)
    ensures Counted(s, WriteApply(s, answer))
  {
  }

  lemma JudgeCounts(s: State, answer: Answer)
    requires WriteEnabled(s, answer) && (s.writer.pc.Judge? || s.writer.pc in {WriteMarking, WriteNoting})
    ensures Counted(s, WriteApply(s, answer))
  {
  }

  lemma AskCounts(s: State, answer: Answer)
    requires WriteEnabled(s, answer) && s.writer.pc.AskLocked?
    ensures Counted(s, WriteApply(s, answer))
  {
    RequestFrame(s, s.writer.pc.now);
  }

  lemma WindowCounts(s: State, answer: Answer)
    requires WriteEnabled(s, answer) && (s.writer.pc.CheckWindow? || s.writer.pc in {WriteFailed, AskSwitch, ReadClock})
    ensures Counted(s, WriteApply(s, answer))
  {
  }

  lemma TrialCounts(s: State, answer: Answer)
    requires WriteEnabled(s, answer)
    requires s.writer.pc == WriteEntry || s.writer.pc == WriteSnap || s.writer.pc.WriteSeen? || s.writer.pc.WriteCall?
    ensures Counted(s, WriteApply(s, answer))
  {
  }

  lemma WriteCounts(s: State, answer: Answer)
    requires WriteEnabled(s, answer)
    ensures Counted(s, WriteApply(s, answer))
  {
    match s.writer.pc
    case CountSwallow => TallyCounts(s, answer);
    case TouchSince(_) => TallyCounts(s, answer);
    case Judge(_, _, _) => JudgeCounts(s, answer);
    case WriteMarking => JudgeCounts(s, answer);
    case WriteNoting => JudgeCounts(s, answer);
    case AskLocked(_) => AskCounts(s, answer);
    case CheckWindow(_) => WindowCounts(s, answer);
    case WriteFailed => WindowCounts(s, answer);
    case AskSwitch => WindowCounts(s, answer);
    case ReadClock => WindowCounts(s, answer);
    case _ => TrialCounts(s, answer);
  }

  lemma StepCountsSwallows(s: State, a: Action, s': State)
    requires Step(s, a, s') && !Resets(s, a)
    ensures Counted(s, s')
  {
    match a
    case ReadStep(r, answer) => ReadFrames(s, r, answer);
    case WriteStep(answer) => WriteCounts(s, answer);
    case LoopStep(ok) => LoopFrames(s, ok);
    case WriteBegins =>
    case _ => OtherFrames(s, a, s');
  }

  // Over a stretch without a reset, counted and reported keep step.
  predicate CountedSince(states: seq<State>, i: nat, j: nat)
    requires i <= j < |states|
  {
    SwallowedBetween(states, i, j) + Pending(states[j].writer.pc) + states[i].swallowed
    == states[j].swallowed + Pending(states[i].writer.pc)
  }

  lemma CountedOneMore(states: seq<State>, i: nat, j: nat)
    requires i < j < |states| && CountedSince(states, i, j - 1) && Counted(states[j - 1], states[j])
    ensures CountedSince(states, i, j)
  {
  }

  lemma {:induction false} CountedOverStretch(cfg: Config, now: nat, states: seq<State>, acts: seq<Action>, i: nat, j: nat)
    requires Execution(cfg, now, states, acts) && i <= j < |states|
    requires forall k :: i <= k < j ==> !Resets(states[k], acts[k])
    ensures CountedSince(states, i, j)
    decreases j - i
  {
    if i < j {
      CountedOverStretch(cfg, now, states, acts, i, j - 1);
      assert Counted(states[j - 1], states[j]) by {
        assert Step(states[j - 1], acts[j - 1], states[j]);
        StepCountsSwallows(states[j - 1], acts[j - 1], states[j]);
      }
      CountedOneMore(states, i, j);
    }
  }

  /** The budget counts what is really swallowed: between two migrations, the failed writes reported as written are those
      counted, but for one that is counted and not yet reported; so there are never more than swallowMax + 2 of them, and
      swallowMax + 1 if the first of them was counted after the budget started anew. */
  lemma SwallowsAreCounted(cfg: Config, now: nat, states: seq<State>, acts: seq<Action>, i: nat, j: nat)
    requires Execution(cfg, now, states, acts) && i <= j < |states|
    requires forall k :: i <= k < j ==> !Resets(states[k], acts[k])
    ensures SwallowedBetween(states, i, j) + Pending(states[j].writer.pc) + states[i].swallowed
            == states[j].swallowed + Pending(states[i].writer.pc)
    ensures SwallowedBetween(states, i, j) <= cfg.swallowMax + 1 + Pending(states[i].writer.pc)
  {
    CountedOverStretch(cfg, now, states, acts, i, j);
    assert states[j].swallowed <= cfg.swallowMax + 1 by { SwallowBudget(cfg, now, states, acts, j); }
  }

  /** A swallowed write error lies within the window of a switch that was really started. */
  lemma SwallowedWithinWindow(cfg: Config, now: nat, states: seq<State>, acts: seq<Action>, i: nat)
    requires Execution(cfg, now, states, acts) && i < |states| && states[i].writer.pc == WriteDone(WriteResult.Swallowed)
    ensures states[i].writer.start.Some? && states[i].writer.start.value in states[i].starts
    ensures states[i].writer.at <= states[i].writer.start.value + cfg.window
  {
    ExecutionInv(cfg, now, states, acts, i);
    ConfigStays(cfg, now, states, acts, i);
  }

  // ---------------------------------------------------------------------------------------------
  // Write errors the flow inflicts on itself
  // ---------------------------------------------------------------------------------------------

  lemma {:induction false} ExecutionSurface(cfg: Config, now: nat, states: seq<State>, acts: seq<Action>, i: nat)
    requires Execution(cfg, now, states, acts) && i < |states|
    ensures SurfaceInv(states[i])
  {
    if i > 0 {
      ExecutionSurface(cfg, now, states, acts, i - 1);
      assert Inv(states[i - 1]) by { ExecutionInv(cfg, now, states, acts, i - 1); }
      assert Step(states[i - 1], acts[i - 1], states[i]);
      StepSurface(states[i - 1], acts[i - 1], states[i]);
    }
  }

  /** A write that failed because the flow itself had closed the socket is passed up exactly when the writer, once it has
      asked for a switch, finds the clock more than the window past the start of a switch; otherwise it is swallowed.
      That switch was not started earlier than the one that closed the socket. */
  lemma SelfInflictedWriteErrors(cfg: Config, now: nat, states: seq<State>, acts: seq<Action>, i: nat)
    requires Execution(cfg, now, states, acts) && i < |states| && states[i].writer.cause == SelfClosed
    requires states[i].writer.pc in {WriteDone(Surfaced), WriteDone(WriteResult.Swallowed)}
    ensures var s, writer := states[i], states[i].writer;
            && writer.start.Some? && writer.sock in s.retired && s.retired[writer.sock] <= writer.start.value
            && (writer.pc == WriteDone(Surfaced) <==> writer.at > writer.start.value + cfg.window)
  {
    ExecutionSurface(cfg, now, states, acts, i);
    ConfigStays(cfg, now, states, acts, i);
    ExecutionInv(cfg, now, states, acts, i);
  }

  /** Death is absorbing, keeps its first reason, and is counted at most once. */
  lemma {:induction false} DeathIsFinal(cfg: Config, now: nat, states: seq<State>, acts: seq<Action>, i: nat, j: nat)
    requires Execution(cfg, now, states, acts) && i <= j < |states| && states[i].dead.Some?
    ensures states[j].dead == states[i].dead && states[j].deadNotes <= 1
    decreases j - i
  {
    if i < j {
      DeathIsFinal(cfg, now, states, acts, i, j - 1);
      assert states[j].dead == states[j - 1].dead by { StepKeeps(states[j - 1], acts[j - 1], states[j]); }
    }
    assert states[j].deadNotes <= 1 by { ExecutionInv(cfg, now, states, acts, j); }
  }

  /** Every read or write begun on a dead flow returns the reason of its death. */
  lemma DeadFlowAnswersDeath(cfg: Config, now: nat, states: seq<State>, acts: seq<Action>, i: nat, r: nat)
    requires Execution(cfg, now, states, acts) && i < |states| && r < |states[i].readers|
    ensures var s := states[i];
            && (s.readers[r].begunDead && s.readers[r].pc.ReadDone? ==> s.dead.Some? && s.readers[r].pc.res == Dead(s.dead.value))
            && (s.writer.begunDead && s.writer.pc.WriteDone? ==> s.dead.Some? && s.writer.pc.res == WriteDead(s.dead.value))
  {
    ExecutionInv(cfg, now, states, acts, i);
    assert ReaderInv(states[i].readers[r], states[i].cur, states[i].closes, states[i].dead);
  }
}
