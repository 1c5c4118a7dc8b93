/** What each kind of step of the migration machine leaves alone. */
module NetMigrateFrames {
  import opened Basics
  import opened NetMigrate

  // The step has nothing to do with the switch loop and its window.
  predicate LoopKept(s: State, s': State) {
    && s'.loops == s.loops && s'.pending == s.pending && s'.windowStart == s.windowStart && s'.lastSwitchAt == s.lastSwitchAt
  }

  // Sockets are only added, and closed once more.
  predicate ClosesGrow(closes: seq<nat>, closes': seq<nat>) {
    |closes| <= |closes'| && forall x :: 0 <= x < |closes| ==> closes[x] <= closes'[x]
  }

  // ---------------------------------------------------------------------------------------------
  // Readers
  // ---------------------------------------------------------------------------------------------

  // A reader's step changes that reader, perhaps the dead mark of a living flow, and nothing of the writer or the loop.
  predicate ReadFrame(s: State, r: nat, s': State)
    requires r < |s.readers|
  {
    && s'.cfg == s.cfg && s'.closed == s.closed && s'.cur == s.cur && LoopKept(s, s')
    && s'.closes == s.closes && s'.retired == s.retired && s'.writer == s.writer && s'.swallowed == s.swallowed
    && (s.dead.Some? ==> s'.dead == s.dead)
    && |s'.readers| == |s.readers| && s'.readers == s.readers[r := s'.readers[r]]
  }

  // The reader is on its way to passing up a failure of ep.
  predicate Surfacing(pc: ReaderPc, ep: Endpoint) {
    || (pc.StillCurrent? && pc.ep == ep)
    || (pc.ReadDone? && pc.res.Failure? && pc.res.ep == ep)
  }

  predicate Quiet(pc: ReaderPc) {
    !pc.StillCurrent? && !(pc.ReadDone? && pc.res.Failure?)
  }

  predicate ReadKept(s: State, r: nat, s': State)
    requires r < |s.readers|
  {
    ReadFrame(s, r, s') && Quiet(s'.readers[r].pc)
  }

  lemma StartFrame(s: State, r: nat, answer: Answer)
    requires ReadEnabled(s, r, answer) && s.readers[r].pc in {ReadEntry, LoopTop, SnapEp}
    ensures ReadKept(s, r, ReadApply(s, r, answer))
  {
  }

  lemma BlockFrame(s: State, r: nat, answer: Answer)
    requires ReadEnabled(s, r, answer) && (s.readers[r].pc.SeenEp? || s.readers[r].pc.Blocked? || s.readers[r].pc.ReadFailed?)
    ensures ReadKept(s, r, ReadApply(s, r, answer))
  {
  }

  lemma CompareFrame(s: State, r: nat, answer: Answer)
    requires ReadEnabled(s, r, answer) && s.readers[r].pc.NotClosed?
    ensures ReadFrame(s, r, ReadApply(s, r, answer))
    ensures var pc' := ReadApply(s, r, answer).readers[r].pc;
            Quiet(pc') || (Surfacing(pc', s.readers[r].pc.ep) && s.cur == s.readers[r].pc.ep)
  {
  }

  lemma CurrentFrame(s: State, r: nat, answer: Answer)
    requires ReadEnabled(s, r, answer) && s.readers[r].pc.StillCurrent?
    ensures ReadFrame(s, r, ReadApply(s, r, answer))
    ensures var pc' := ReadApply(s, r, answer).readers[r].pc;
            Quiet(pc') || Surfacing(pc', s.readers[r].pc.ep)
  {
  }

  // The timers send the reader on, to mark the flow dead or to read again, perhaps after asking for a switch.
  lemma TimersShape(s: State, r: nat, answer: Answer) returns (pc': ReaderPc)
    requires ReadEnabled(s, r, answer) && s.readers[r].pc.Timers?
    ensures pc' == ReadMarking || pc' == LoopTop
    ensures var s' := SetReader(s, r, pc');
            ReadApply(s, r, answer) in {s', s'.(signals := s'.signals + [Some(s'.clock)])}
  {
    pc' := if s.readers[r].pc.now - s.lastRecv > s.cfg.idleDead then ReadMarking else LoopTop;
  }

  lemma TimersFrame(s: State, r: nat, answer: Answer)
    requires ReadEnabled(s, r, answer) && s.readers[r].pc.Timers?
    ensures ReadKept(s, r, ReadApply(s, r, answer))
  {
    var pc' := TimersShape(s, r, answer);
  }

  lemma MarkFrame(s: State, r: nat, answer: Answer)
    requires ReadEnabled(s, r, answer) && s.readers[r].pc == ReadMarking
    ensures ReadKept(s, r, ReadApply(s, r, answer))
  {
    if s.dead == None {
      assert ReadApply(s, r, answer) == SetReader(MarkDead(s, DeadIdle, ByReader(r)), r, ReadNoting);
    }
  }

  lemma NoteFrame(s: State, r: nat, answer: Answer)
    requires ReadEnabled(s, r, answer) && (s.readers[r].pc == ReadNoting || s.readers[r].pc == GotData)
    ensures ReadKept(s, r, ReadApply(s, r, answer))
  {
  }

  lemma ReadFrames(s: State, r: nat, answer: Answer)
    requires ReadEnabled(s, r, answer)
    ensures ReadFrame(s, r, ReadApply(s, r, answer))
  {
    match s.readers[r].pc
    case SeenEp(_) => BlockFrame(s, r, answer);
    case Blocked(_) => BlockFrame(s, r, answer);
    case ReadFailed(_, _) => BlockFrame(s, r, answer);
    case NotClosed(_, _) => CompareFrame(s, r, answer);
    case StillCurrent(_, _) => CurrentFrame(s, r, answer);
    case Timers(_) => TimersFrame(s, r, answer);
    case ReadMarking => MarkFrame(s, r, answer);
    case ReadNoting => NoteFrame(s, r, answer);
    case GotData => NoteFrame(s, r, answer);
    case _ => StartFrame(s, r, answer);
  }

  // ---------------------------------------------------------------------------------------------
  // The writer
  // ---------------------------------------------------------------------------------------------

  predicate WriteFrame(s: State, s': State) {
    && s'.cfg == s.cfg && s'.closed == s.closed && s'.cur == s.cur && s'.readers == s.readers
    && (s.dead.Some? ==> s'.dead == s.dead) && s'.closes == s.closes && s'.retired == s.retired
    && (s.writer.pc.AskLocked? || LoopKept(s, s'))
  }

  lemma SnapFrame(s: State, answer: Answer)
    requires WriteEnabled(s, answer) && (s.writer.pc == WriteEntry || s.writer.pc == WriteSnap || s.writer.pc.WriteSeen?)
    ensures WriteFrame(s, WriteApply(s, answer))
  {
  }

  lemma CallFrame(s: State, answer: Answer)
    requires WriteEnabled(s, answer) && (s.writer.pc.WriteCall? || s.writer.pc in {WriteFailed, AskSwitch, ReadClock})
    ensures WriteFrame(s, WriteApply(s, answer))
  {
  }

  // A request may start a loop or be merged into one, and leaves the rest alone.
  predicate Requested(s: State, s': State) {
    && s'.cfg == s.cfg && s'.closed == s.closed && s'.cur == s.cur && s'.readers == s.readers && s'.dead == s.dead
    && s'.writer == s.writer && s'.swallowed == s.swallowed && s'.closes == s.closes && s'.retired == s.retired
    && s'.lastSwitchAt == s.lastSwitchAt
  }

  lemma RequestFrame(s: State, now: nat)
    ensures Requested(s, HandleRequest(s, now))
  {
  }

  lemma AskFrame(s: State, answer: Answer)
    requires WriteEnabled(s, answer) && s.writer.pc.AskLocked?
    ensures WriteFrame(s, WriteApply(s, answer))
  {
    RequestFrame(s, s.writer.pc.now);
  }

  lemma CountFrame(s: State, answer: Answer)
    requires WriteEnabled(s, answer) && (s.writer.pc.CheckWindow? || s.writer.pc == CountSwallow || s.writer.pc.TouchSince?)
    ensures WriteFrame(s, WriteApply(s, answer))
  {
  }

  lemma JudgeFrame(s: State, answer: Answer)
    requires WriteEnabled(s, answer) && (s.writer.pc.Judge? || s.writer.pc in {WriteMarking, WriteNoting})
    ensures WriteFrame(s, WriteApply(s, answer))
  {
  }

  lemma WriteFrames(s: State, answer: Answer)
    requires WriteEnabled(s, answer)
    ensures WriteFrame(s, WriteApply(s, answer))
  {
    match s.writer.pc
    case WriteCall(_) => CallFrame(s, answer);
    case WriteFailed => CallFrame(s, answer);
    case AskSwitch => CallFrame(s, answer);
    case ReadClock => CallFrame(s, answer);
    case AskLocked(_) => AskFrame(s, answer);
    case CheckWindow(_) => CountFrame(s, answer);
    case CountSwallow => CountFrame(s, answer);
    case TouchSince(_) => CountFrame(s, answer);
    case Judge(_, _, _) => JudgeFrame(s, answer);
    case WriteMarking => JudgeFrame(s, answer);
    case WriteNoting => JudgeFrame(s, answer);
    case _ => SnapFrame(s, answer);
  }

  // ---------------------------------------------------------------------------------------------
  // The switch loop
  // ---------------------------------------------------------------------------------------------

  // The last loop has moved on, or not.
  predicate SameLoop(loops: seq<Loop>, loops': seq<Loop>) {
    && 0 < |loops| == |loops'|
    && loops'[|loops| - 1].start == loops[|loops| - 1].start && loops'[|loops| - 1].merged == loops[|loops| - 1].merged
  }

  // The loop's step leaves readers, writer and window alone; it installs an endpoint only on an open flow.
  predicate LoopFrame(s: State, s': State) {
    && s'.cfg == s.cfg && s'.closed == s.closed && s'.readers == s.readers && s'.writer == s.writer && s'.dead == s.dead
    && s'.windowStart == s.windowStart && ClosesGrow(s.closes, s'.closes) && SameLoop(s.loops, s'.loops)
    && (LastPc(s.loops).CloseOld? || s'.retired == s.retired)
    && ((LastPc(s.loops).Dialled? && !s.closed) || s'.cur == s.cur)
    && (LastPc(s.loops) == ResetBudget || s'.swallowed == s.swallowed)
  }

  lemma DialFrame(s: State, ok: bool)
    requires LoopEnabled(s) && (LastPc(s.loops) == Dialing || LastPc(s.loops).Greeting?)
    ensures LoopFrame(s, LoopApply(s, ok))
  {
  }

  lemma DropFrame(s: State, ok: bool)
    requires LoopEnabled(s) && (LastPc(s.loops).Refused? || LastPc(s.loops).Aborting? || LastPc(s.loops) == NoteFailure)
    ensures LoopFrame(s, LoopApply(s, ok))
  {
  }

  lemma InstallFrame(s: State, ok: bool)
    requires LoopEnabled(s) && LastPc(s.loops).Dialled?
    ensures LoopFrame(s, LoopApply(s, ok))
  {
  }

  lemma SettleFrame(s: State, ok: bool)
    requires LoopEnabled(s) && (LastPc(s.loops).CloseOld? || LastPc(s.loops) in {ResetBudget, ClearSince, NoteSwitch})
    ensures LoopFrame(s, LoopApply(s, ok))
  {
  }

  lemma DecideFrame(s: State, ok: bool)
    requires LoopEnabled(s) && LastPc(s.loops).Decide?
    ensures LoopFrame(s, LoopApply(s, ok))
  {
  }

  lemma RetryFrame(s: State, ok: bool)
    requires LoopEnabled(s) && LastPc(s.loops) == BackOff
    ensures LoopFrame(s, LoopApply(s, ok))
  {
  }

  lemma FinishFrame(s: State, ok: bool)
    requires LoopEnabled(s) && LastPc(s.loops) == Finishing
    ensures LoopFrame(s, LoopApply(s, ok))
  {
  }

  lemma LoopFrames(s: State, ok: bool)
    requires LoopEnabled(s)
    ensures LoopFrame(s, LoopApply(s, ok))
  {
    match LastPc(s.loops)
    case Dialing => DialFrame(s, ok);
    case Greeting(_) => DialFrame(s, ok);
    case Refused(_) => DropFrame(s, ok);
    case Aborting(_) => DropFrame(s, ok);
    case NoteFailure => DropFrame(s, ok);
    case Dialled(_) => InstallFrame(s, ok);
    case CloseOld(_) => SettleFrame(s, ok);
    case ResetBudget => SettleFrame(s, ok);
    case ClearSince => SettleFrame(s, ok);
    case NoteSwitch => SettleFrame(s, ok);
    case Decide(_) => DecideFrame(s, ok);
    case BackOff => RetryFrame(s, ok);
    case _ => FinishFrame(s, ok);
  }

  // ---------------------------------------------------------------------------------------------
  // Everything else
  // ---------------------------------------------------------------------------------------------

  predicate Elsewhere(a: Action) {
    !a.ReadStep? && !a.WriteStep? && !a.LoopStep?
  }

  // Arrivals, signals, the clock and Close: no reader moves on, and the writer changes only by beginning anew.
  predicate OtherFrame(s: State, a: Action, s': State) {
    && s'.cfg == s.cfg && (s.closed ==> s'.closed) && s'.cur == s.cur && s'.dead == s.dead && s'.swallowed == s.swallowed
    && s.readers <= s'.readers && (a.ReadBegins? || s'.readers == s.readers) && (a.WriteBegins? || s'.writer == s.writer)
    && ClosesGrow(s.closes, s'.closes) && s'.retired == s.retired && (a.SignalHandled? || LoopKept(s, s'))
  }

  lemma SignalFrame(s: State, i: nat)
    requires i < |s.signals| && s.signals[i].Some?
    ensures OtherFrame(s, SignalHandled(i), Apply(s, SignalHandled(i)))
  {
    RequestFrame(s, s.signals[i].value);
  }

  lemma CloseFrame(s: State)
    requires CloseEnabled(s)
    ensures OtherFrame(s, CloseStep, CloseApply(s))
  {
  }

  lemma ArrivalFrame(s: State, a: Action)
    requires Enabled(s, a) && (a.Tick? || a.ReadBegins? || a.WriteBegins? || a.SignalArrives? || a.CloseBegins?)
    ensures OtherFrame(s, a, Apply(s, a))
  {
  }

  lemma OtherFrames(s: State, a: Action, s': State)
    requires Step(s, a, s') && Elsewhere(a)
    ensures OtherFrame(s, a, s')
  {
    if a.SignalHandled? {
      SignalFrame(s, a.i);
    } else if a.CloseStep? {
      CloseFrame(s);
    } else {
      ArrivalFrame(s, a);
    }
  }
}
