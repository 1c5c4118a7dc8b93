/** Every step of the migration machine keeps its invariant. */
module NetMigrateInvariant {
  import opened Basics
  import opened NetMigrate
  import opened NetMigrateFrames

  lemma InitInv(cfg: Config, now: nat)
    ensures Inv(Init(cfg, now))
  {
  }

  // ---------------------------------------------------------------------------------------------
  // Readers
  // ---------------------------------------------------------------------------------------------

  // Reader r moves on without taking part in marking death.
  lemma ReaderMoves(s: State, r: nat, pc: ReaderPc)
    requires Inv(s) && r < |s.readers| && s.readers[r].pc != ReadNoting && pc != ReadNoting
    requires ReaderInv(s.readers[r].(pc := pc), s.cur, s.closes, s.dead)
    ensures Inv(SetReader(s, r, pc))
  {
  }

  lemma ReadChecks(s: State, r: nat, answer: Answer)
    requires Inv(s) && ReadEnabled(s, r, answer)
    requires s.readers[r].pc in {ReadEntry, LoopTop, SnapEp} || s.readers[r].pc.SeenEp?
    ensures Inv(ReadApply(s, r, answer))
  {
    assert ReaderInv(s.readers[r], s.cur, s.closes, s.dead);
    ReaderMoves(s, r, ReadApply(s, r, answer).readers[r].pc);
  }

  lemma ReadBlocked(s: State, r: nat, answer: Answer)
    requires Inv(s) && ReadEnabled(s, r, answer) && s.readers[r].pc.Blocked?
    ensures Inv(ReadApply(s, r, answer))
  {
    assert ReaderInv(s.readers[r], s.cur, s.closes, s.dead);
    ReaderMoves(s, r, ReadApply(s, r, answer).readers[r].pc);
  }

  // A failure of a socket closed here is seen as closed, or as the failure of an endpoint that has been replaced.
  lemma ReadJudges(s: State, r: nat, answer: Answer)
    requires Inv(s) && ReadEnabled(s, r, answer)
    requires s.readers[r].pc.ReadFailed? || s.readers[r].pc.NotClosed? || s.readers[r].pc.StillCurrent?
    ensures Inv(ReadApply(s, r, answer))
  {
    assert ReaderInv(s.readers[r], s.cur, s.closes, s.dead);
    ReaderMoves(s, r, ReadApply(s, r, answer).readers[r].pc);
  }

  lemma ReadTimers(s: State, r: nat, answer: Answer)
    requires Inv(s) && ReadEnabled(s, r, answer) && s.readers[r].pc.Timers?
    ensures Inv(ReadApply(s, r, answer))
  {
    var pc' := TimersShape(s, r, answer);
    assert ReaderInv(s.readers[r], s.cur, s.closes, s.dead);
    ReaderMoves(s, r, pc');
    SignalAdded(SetReader(s, r, pc'));
  }

  lemma SignalAdded(s: State)
    requires Inv(s)
    ensures Inv(s.(signals := s.signals + [Some(s.clock)]))
  {
  }

  lemma ReadGotData(s: State, r: nat, answer: Answer)
    requires Inv(s) && ReadEnabled(s, r, answer) && s.readers[r].pc == GotData
    ensures Inv(ReadApply(s, r, answer))
  {
    assert ReaderInv(s.readers[r], s.cur, s.closes, s.dead);
    ReaderMoves(s, r, ReadApply(s, r, answer).readers[r].pc);
  }

  lemma ReadMarks(s: State, r: nat, answer: Answer)
    requires Inv(s) && ReadEnabled(s, r, answer) && s.readers[r].pc == ReadMarking
    ensures Inv(ReadApply(s, r, answer))
  {
    assert ReaderInv(s.readers[r], s.cur, s.closes, s.dead);
    if s.dead == None {
      var s' := ReadApply(s, r, answer);
      assert ReadersInv(s'.readers, s.cur, s.closes, s'.dead) by {
        FirstDeath(s.readers, s.cur, s.closes, DeadIdle);
      }
      assert BudgetInv(s.writer, s.swallowed, s.cfg.swallowMax, s'.dead);
    } else {
      ReaderMoves(s, r, ReadDone(Dead(s.dead.value)));
    }
  }

  // Before death no reader speaks of it.
  lemma FirstDeath(readers: seq<Reader>, cur: Endpoint, closes: seq<nat>, reason: DeadReason)
    requires ReadersInv(readers, cur, closes, None)
    ensures ReadersInv(readers, cur, closes, Some(reason))
  {
  }

  lemma ReadNotes(s: State, r: nat, answer: Answer)
    requires Inv(s) && ReadEnabled(s, r, answer) && s.readers[r].pc == ReadNoting
    ensures Inv(ReadApply(s, r, answer))
  {
    assert ReaderInv(s.readers[r], s.cur, s.closes, s.dead);
  }

  lemma ReadStepInv(s: State, r: nat, answer: Answer)
    requires Inv(s) && ReadEnabled(s, r, answer)
    ensures Inv(ReadApply(s, r, answer))
  {
    match s.readers[r].pc
    case Blocked(_) => ReadBlocked(s, r, answer);
    case ReadFailed(_, _) => ReadJudges(s, r, answer);
    case NotClosed(_, _) => ReadJudges(s, r, answer);
    case StillCurrent(_, _) => ReadJudges(s, r, answer);
    case Timers(_) => ReadTimers(s, r, answer);
    case ReadMarking => ReadMarks(s, r, answer);
    case ReadNoting => ReadNotes(s, r, answer);
    case GotData => ReadGotData(s, r, answer);
    case _ => ReadChecks(s, r, answer);
  }

  // ---------------------------------------------------------------------------------------------
  // The writer
  // ---------------------------------------------------------------------------------------------

  lemma WriterMoves(s: State, writer': Writer, swallowed': nat)
    requires Inv(s) && s.writer.pc != WriteNoting && writer'.pc != WriteNoting
    requires BudgetInv(writer', swallowed', s.cfg.swallowMax, s.dead) && WindowInv(writer', s.starts, s.cfg.window)
    requires writer'.pc.AskLocked? ==> writer'.pc.now <= s.clock
    ensures Inv(s.(writer := writer', swallowed := swallowed'))
  {
  }

  lemma WriteTries(s: State, answer: Answer)
    requires Inv(s) && WriteEnabled(s, answer)
    requires s.writer.pc == WriteEntry || s.writer.pc == WriteSnap || s.writer.pc.WriteSeen?
    ensures Inv(WriteApply(s, answer))
  {
    WriterMoves(s, WriteApply(s, answer).writer, s.swallowed);
  }

  lemma WriteReturns(s: State, answer: Answer)
    requires Inv(s) && WriteEnabled(s, answer) && s.writer.pc.WriteCall?
    ensures Inv(WriteApply(s, answer))
  {
    if answer.Good? {
      WriterMoves(s, s.writer.(pc := WriteDone(Written)), s.swallowed);
    } else {
      WriterMoves(s, s.writer.(pc := WriteFailed, sock := s.writer.pc.ep.sock, cause := answer.cause), s.swallowed);
    }
  }

  lemma WriteFails(s: State, answer: Answer)
    requires Inv(s) && WriteEnabled(s, answer) && (s.writer.pc == WriteFailed || s.writer.pc == AskSwitch)
    ensures Inv(WriteApply(s, answer))
  {
    WriterMoves(s, WriteApply(s, answer).writer, s.swallowed);
  }

  lemma WriteReadsClock(s: State, answer: Answer)
    requires Inv(s) && WriteEnabled(s, answer) && s.writer.pc == ReadClock
    ensures Inv(WriteApply(s, answer))
  {
    WriterMoves(s, WriteApply(s, answer).writer, s.swallowed);
  }

  lemma WriteChecksWindow(s: State, answer: Answer)
    requires Inv(s) && WriteEnabled(s, answer) && s.writer.pc.CheckWindow?
    ensures Inv(WriteApply(s, answer))
  {
    WriterMoves(s, WriteApply(s, answer).writer, s.swallowed);
  }

  lemma WriteCounts(s: State, answer: Answer)
    requires Inv(s) && WriteEnabled(s, answer) && s.writer.pc == CountSwallow
    ensures Inv(WriteApply(s, answer))
  {
    var writer' := s.writer.(pc := TouchSince(s.swallowed + 1));
    assert BudgetInv(writer', s.swallowed + 1, s.cfg.swallowMax, s.dead) by {
      OneMore(s.writer, writer', s.swallowed, s.cfg.swallowMax, s.dead);
    }
    WriterMoves(s, writer', s.swallowed + 1);
  }

  lemma OneMore(writer: Writer, writer': Writer, swallowed: nat, max: nat, dead: Option<DeadReason>)
    requires BudgetInv(writer, swallowed, max, dead) && writer.pc == CountSwallow
    requires writer' == writer.(pc := TouchSince(swallowed + 1))
    ensures BudgetInv(writer', swallowed + 1, max, dead)
  {
  }

  lemma WriteJudges(s: State, answer: Answer)
    requires Inv(s) && WriteEnabled(s, answer) && s.writer.pc.Judge?
    ensures Inv(WriteApply(s, answer))
  {
    WriterMoves(s, WriteApply(s, answer).writer, s.swallowed);
  }

  lemma WriteTouches(s: State, answer: Answer)
    requires Inv(s) && WriteEnabled(s, answer) && s.writer.pc.TouchSince?
    ensures Inv(WriteApply(s, answer))
  {
    WriterMoves(s, WriteApply(s, answer).writer, s.swallowed);
  }

  lemma WriteMarks(s: State, answer: Answer)
    requires Inv(s) && WriteEnabled(s, answer) && s.writer.pc == WriteMarking
    ensures Inv(WriteApply(s, answer))
  {
    if s.dead == None {
      var s' := WriteApply(s, answer);
      assert ReadersInv(s.readers, s.cur, s.closes, s'.dead) by {
        FirstDeath(s.readers, s.cur, s.closes, DeadSwallow);
      }
      assert BudgetInv(s'.writer, s.swallowed, s.cfg.swallowMax, s'.dead);
      assert DeadInv(s'.dead, s'.marker, s.deadNotes, s.readers, s'.writer);
    } else {
      WriterMoves(s, s.writer.(pc := WriteDone(Swallowed)), s.swallowed);
    }
  }

  lemma WriteNotes(s: State, answer: Answer)
    requires Inv(s) && WriteEnabled(s, answer) && s.writer.pc == WriteNoting
    ensures Inv(WriteApply(s, answer))
  {
  }

  lemma RequestMerged(s: State, now: nat)
    requires Inv(s) && s.switching
    ensures Inv(HandleRequest(s, now))
  {
    var s' := HandleRequest(s, now);
    assert LastPc(s'.loops) == LastPc(s.loops);
    assert LoopsInv(s'.loops, s'.switching, s'.pending) by { RequestLoops(s, now); }
  }

  lemma LaterStarts(s: State, now: nat)
    requires StartsInv(s.windowStart, s.starts, s.signals, s.writer, s.clock) && now <= s.clock
    ensures StartsInv(Some(now), s.starts + {now}, s.signals, s.writer, s.clock)
    ensures WindowInv(s.writer, s.starts, s.cfg.window) ==> WindowInv(s.writer, s.starts + {now}, s.cfg.window)
  {
  }

  lemma RequestStarts(s: State, now: nat)
    requires Inv(s) && now <= s.clock && !s.switching
    requires !(s.lastSwitchAt.Some? && now - s.lastSwitchAt.value < s.cfg.retryBase)
    ensures Inv(HandleRequest(s, now))
  {
    var s' := HandleRequest(s, now);
    assert LastPc(s.loops) == LoopDone && LastPc(s'.loops) == Dialing;
    assert LoopsInv(s'.loops, s'.switching, s'.pending) by { RequestLoops(s, now); }
    LaterStarts(s, now);
  }

  // A request for a switch, under the switch lock.
  lemma RequestHandled(s: State, now: nat)
    requires Inv(s) && now <= s.clock
    ensures Inv(HandleRequest(s, now))
  {
    if s.switching {
      RequestMerged(s, now);
    } else if !(s.lastSwitchAt.Some? && now - s.lastSwitchAt.value < s.cfg.retryBase) {
      RequestStarts(s, now);
    }
  }

  lemma RequestLoops(s: State, now: nat)
    requires LoopsInv(s.loops, s.switching, s.pending)
    ensures var s' := HandleRequest(s, now); LoopsInv(s'.loops, s'.switching, s'.pending)
  {
  }

  lemma WriteAsks(s: State, answer: Answer)
    requires Inv(s) && WriteEnabled(s, answer) && s.writer.pc.AskLocked?
    ensures Inv(WriteApply(s, answer))
  {
    RequestHandled(s, s.writer.pc.now);
    var s1 := HandleRequest(s, s.writer.pc.now);
    WriterMoves(s1, s1.writer.(pc := ReadClock), s1.swallowed);
  }

  lemma WriteStepInv(s: State, answer: Answer)
    requires Inv(s) && WriteEnabled(s, answer)
    ensures Inv(WriteApply(s, answer))
  {
    match s.writer.pc
    case AskLocked(_) => WriteAsks(s, answer);
    case CheckWindow(_) => WriteChecksWindow(s, answer);
    case CountSwallow => WriteCounts(s, answer);
    case TouchSince(_) => WriteTouches(s, answer);
    case Judge(_, _, _) => WriteJudges(s, answer);
    case WriteMarking => WriteMarks(s, answer);
    case WriteNoting => WriteNotes(s, answer);
    case WriteCall(_) => WriteReturns(s, answer);
    case WriteFailed => WriteFails(s, answer);
    case AskSwitch => WriteFails(s, answer);
    case ReadClock => WriteReadsClock(s, answer);
    case _ => WriteTries(s, answer);
  }

  // ---------------------------------------------------------------------------------------------
  // The switch loop
  // ---------------------------------------------------------------------------------------------

  // The loop moves on, keeping its sockets.
  lemma LoopMoves(s: State, loop': Loop, pending': bool)
    requires Inv(s) && Live(s) && loop'.pc != LoopDone && Held(loop'.pc) == Held(LastPc(s.loops))
    requires Fresh(loop'.pc) == Fresh(LastPc(s.loops)) && Installed(loop'.pc) == Installed(LastPc(s.loops))
    requires loop'.merged == s.loops[|s.loops| - 1].merged && Paid(loop', pending') && loop'.attempts <= 2 + loop'.merged
    ensures Inv(s.(loops := s.loops[|s.loops| - 1 := loop'], pending := pending'))
  {
    var loops' := s.loops[|s.loops| - 1 := loop'];
    assert LastPc(loops') == loop'.pc;
    assert LoopsInv(loops', s.switching, pending');
  }

  lemma LoopFails(s: State, ok: bool)
    requires Inv(s) && LoopEnabled(s) && LastPc(s.loops) == NoteFailure
    ensures Inv(LoopApply(s, ok))
  {
    LoopMoves(s, s.loops[|s.loops| - 1].(pc := Decide(false)), s.pending);
  }

  lemma LoopDecides(s: State, ok: bool)
    requires Inv(s) && LoopEnabled(s) && LastPc(s.loops).Decide?
    ensures Inv(LoopApply(s, ok))
  {
    var loop, good := s.loops[|s.loops| - 1], LastPc(s.loops).ok;
    if good || !s.pending {
      LoopMoves(s, loop.(pc := Finishing), false);
    } else if s.closed {
      LoopMoves(s, loop.(pc := Finishing), s.pending);
    } else {
      LoopMoves(s, loop.(pc := BackOff), false);
    }
  }

  lemma LoopRetries(s: State, ok: bool)
    requires Inv(s) && LoopEnabled(s) && LastPc(s.loops) == BackOff
    ensures Inv(LoopApply(s, ok))
  {
    var loop := s.loops[|s.loops| - 1];
    if !ok && s.cancelled {
      LoopMoves(s, loop.(pc := Finishing), s.pending);
    } else {
      LoopMoves(s, loop.(pc := Dialing, attempts := loop.attempts + 1), s.pending);
    }
  }

  lemma LoopGreets(s: State, ok: bool)
    requires Inv(s) && LoopEnabled(s) && LastPc(s.loops).Greeting?
    ensures Inv(LoopApply(s, ok))
  {
    LoopMoves(s, LoopApply(s, ok).loops[|s.loops| - 1], s.pending);
  }

  // The parts of the invariant that a step of the loop can touch, put together again.
  lemma Assemble(s: State, s': State)
    requires Inv(s) && LoopFrame(s, s') && s'.clock == s.clock && s'.closing == s.closing && s'.starts == s.starts
    requires s'.signals == s.signals && s'.marker == s.marker && s'.deadNotes == s.deadNotes
    requires SocketsInv(s'.closes, s'.cur, LastPc(s'.loops), s.closing) && CloseInv(s.closed, s.closing, s'.cur)
    requires LoopsInv(s'.loops, s'.switching, s'.pending) && GenInv(s'.cur.gen, s'.switches, LastPc(s'.loops))
    requires ReadersInv(s.readers, s'.cur, s'.closes, s.dead)
    requires BudgetInv(s.writer, s'.swallowed, s.cfg.swallowMax, s.dead)
    ensures Inv(s')
  {
  }

  // The loop goes from one pc to another that counts the same; it stays paid for.
  lemma LoopsMove(loops: seq<Loop>, switching: bool, pending: bool, pc: LoopPc)
    requires LoopsInv(loops, switching, pending) && |loops| > 0 && LastPc(loops) != LoopDone && pc != LoopDone && pc != BackOff
    ensures var loops' := loops[|loops| - 1 := loops[|loops| - 1].(pc := pc)];
            LoopsInv(loops', switching, pending) && LastPc(loops') == pc
  {
  }

  // A socket is dialled, and held by the loop.
  lemma SocketDialled(closes: seq<nat>, cur: Endpoint, closing: ClosePc, pc: LoopPc)
    requires SocketsInv(closes, cur, Dialing, closing) && Held(pc) == Fresh(pc) == Some(|closes|)
    ensures SocketsInv(closes + [0], cur, pc, closing)
  {
  }

  lemma LoopDials(s: State, ok: bool)
    requires Inv(s) && LoopEnabled(s) && LastPc(s.loops) == Dialing
    ensures Inv(LoopApply(s, ok))
  {
    if ok {
      var s', sock := LoopApply(s, ok), |s.closes|;
      var pc := if s.cfg.edgeHello then Greeting(sock) else Dialled(sock);
      LoopFrames(s, ok);
      LoopsMove(s.loops, s.switching, s.pending, pc);
      SocketDialled(s.closes, s.cur, s.closing, pc);
      assert ReadersInv(s.readers, s.cur, s'.closes, s.dead) by { MoreSockets(s.readers, s.cur, s.closes, s'.closes, s.dead); }
      Assemble(s, s');
    } else {
      LoopMoves(s, s.loops[|s.loops| - 1].(pc := NoteFailure), s.pending);
    }
  }

  lemma MoreSockets(readers: seq<Reader>, cur: Endpoint, closes: seq<nat>, closes': seq<nat>, dead: Option<DeadReason>)
    requires ReadersInv(readers, cur, closes, dead) && closes <= closes'
    ensures ReadersInv(readers, cur, closes', dead)
  {
  }

  // The socket held by the loop is closed.
  lemma SocketDropped(closes: seq<nat>, cur: Endpoint, closing: ClosePc, pc: LoopPc, pc': LoopPc)
    requires SocketsInv(closes, cur, pc, closing) && Held(pc).Some? && Held(pc).value < |closes|
    requires Fresh(pc) == Held(pc) && Fresh(pc') == None && Held(pc') == None && !pc'.CloseOld?
    ensures Held(pc).value != cur.sock
    ensures SocketsInv(closes[Held(pc).value := closes[Held(pc).value] + 1], cur, pc', closing)
  {
  }

  // The loop closes a socket that was never the current one.
  lemma DropInv(s: State, s': State, sock: nat, pc': LoopPc)
    requires Inv(s) && LoopFrame(s, s') && (LastPc(s.loops).Refused? || LastPc(s.loops).Aborting?)
    requires Held(LastPc(s.loops)) == Some(sock) && (pc' == NoteFailure || pc' == Decide(false)) && sock < |s.closes|
    requires s' == s.(closes := s'.closes, loops := s'.loops) && s'.closes == s.closes[sock := s.closes[sock] + 1]
    requires s'.loops == s.loops[|s.loops| - 1 := s.loops[|s.loops| - 1].(pc := pc')]
    ensures Inv(s')
  {
    LoopsMove(s.loops, s.switching, s.pending, pc');
    SocketDropped(s.closes, s.cur, s.closing, LastPc(s.loops), pc');
    assert ReadersInv(s.readers, s.cur, s'.closes, s.dead) by { MoreClosed(s, sock); }
    Assemble(s, s');
  }

  // The socket was refused.
  lemma LoopDropsRefused(s: State, ok: bool)
    requires Inv(s) && LoopEnabled(s) && LastPc(s.loops).Refused?
    ensures Inv(LoopApply(s, ok))
  {
    DropFrame(s, ok);
    DropInv(s, LoopApply(s, ok), LastPc(s.loops).sock, NoteFailure);
  }

  // It came too late.
  lemma LoopDropsLate(s: State, ok: bool)
    requires Inv(s) && LoopEnabled(s) && LastPc(s.loops).Aborting?
    ensures Inv(LoopApply(s, ok))
  {
    DropFrame(s, ok);
    DropInv(s, LoopApply(s, ok), LastPc(s.loops).sock, Decide(false));
  }

  lemma MoreClosed(s: State, sock: nat)
    requires ReadersInv(s.readers, s.cur, s.closes, s.dead) && sock < |s.closes|
    ensures ReadersInv(s.readers, s.cur, Shut(s, sock).closes, s.dead)
  {
  }

  // A newer endpoint is installed; whoever holds an older one holds an older one still.
  lemma NewerEndpoint(readers: seq<Reader>, cur: Endpoint, cur': Endpoint, closes: seq<nat>, dead: Option<DeadReason>)
    requires ReadersInv(readers, cur, closes, dead) && cur.sock < cur'.sock
    ensures ReadersInv(readers, cur', closes, dead)
  {
    forall r | 0 <= r < |readers| ensures ReaderInv(readers[r], cur', closes, dead) {
      assert ReaderInv(readers[r], cur, closes, dead);
    }
  }

  lemma LoopInstalls(s: State, ok: bool)
    requires Inv(s) && LoopEnabled(s) && LastPc(s.loops).Dialled?
    ensures Inv(LoopApply(s, ok))
  {
    var s', sock := LoopApply(s, ok), LastPc(s.loops).sock;
    LoopFrames(s, ok);
    if s.closed {
      LoopMoves(s, s.loops[|s.loops| - 1].(pc := Aborting(sock)), s.pending);
    } else {
      LoopsMove(s.loops, s.switching, s.pending, CloseOld(s.cur.sock));
      assert ReadersInv(s.readers, s'.cur, s.closes, s.dead) by { NewerEndpoint(s.readers, s.cur, s'.cur, s.closes, s.dead); }
      Assemble(s, s');
    }
  }

  lemma LoopClosesOld(s: State, ok: bool)
    requires Inv(s) && LoopEnabled(s) && LastPc(s.loops).CloseOld?
    ensures Inv(LoopApply(s, ok))
  {
    var s', prev := LoopApply(s, ok), LastPc(s.loops).prev;
    LoopFrames(s, ok);
    LoopsMove(s.loops, s.switching, s.pending, ResetBudget);
    assert s'.closes == s.closes[prev := s.closes[prev] + 1];
    assert ReadersInv(s.readers, s.cur, s'.closes, s.dead) by { MoreClosed(s, prev); }
    Assemble(s, s');
  }

  // A new budget is within any limit.
  lemma NewBudget(writer: Writer, swallowed: nat, max: nat, dead: Option<DeadReason>)
    requires BudgetInv(writer, swallowed, max, dead)
    ensures BudgetInv(writer, 0, max, dead)
  {
  }

  lemma LoopResets(s: State, ok: bool)
    requires Inv(s) && LoopEnabled(s) && LastPc(s.loops) == ResetBudget
    ensures Inv(LoopApply(s, ok))
  {
    LoopFrames(s, ok);
    LoopsMove(s.loops, s.switching, s.pending, ClearSince);
    NewBudget(s.writer, s.swallowed, s.cfg.swallowMax, s.dead);
    Assemble(s, LoopApply(s, ok));
  }

  lemma LoopNotes(s: State, ok: bool)
    requires Inv(s) && LoopEnabled(s) && (LastPc(s.loops) == ClearSince || LastPc(s.loops) == NoteSwitch)
    ensures Inv(LoopApply(s, ok))
  {
    LoopFrames(s, ok);
    LoopsMove(s.loops, s.switching, s.pending, if LastPc(s.loops) == ClearSince then NoteSwitch else Decide(true));
    Assemble(s, LoopApply(s, ok));
  }

  lemma LoopEnds(s: State, ok: bool)
    requires Inv(s) && LoopEnabled(s) && LastPc(s.loops) == Finishing
    ensures Inv(LoopApply(s, ok))
  {
  }

  lemma LoopStepInv(s: State, ok: bool)
    requires Inv(s) && LoopEnabled(s)
    ensures Inv(LoopApply(s, ok))
  {
    match LastPc(s.loops)
    case Dialing => LoopDials(s, ok);
    case Greeting(_) => LoopGreets(s, ok);
    case Refused(_) => LoopDropsRefused(s, ok);
    case Aborting(_) => LoopDropsLate(s, ok);
    case NoteFailure => LoopFails(s, ok);
    case Dialled(_) => LoopInstalls(s, ok);
    case CloseOld(_) => LoopClosesOld(s, ok);
    case Decide(_) => LoopDecides(s, ok);
    case BackOff => LoopRetries(s, ok);
    case Finishing => LoopEnds(s, ok);
    case ResetBudget => LoopResets(s, ok);
    case _ => LoopNotes(s, ok);
  }

  // ---------------------------------------------------------------------------------------------
  // Close and the rest
  // ---------------------------------------------------------------------------------------------

  lemma CloseShuts(s: State)
    requires Inv(s) && s.closing.CloseCancelled?
    ensures CloseEnabled(s) && Inv(CloseApply(s))
  {
    assert ReadersInv(s.readers, s.cur, CloseApply(s).closes, s.dead) by { MoreClosed(s, s.closing.ep.sock); }
  }

  lemma CloseMoves(s: State)
    requires Inv(s) && CloseEnabled(s) && !s.closing.CloseCancelled?
    ensures Inv(CloseApply(s))
  {
  }

  lemma SignalStep(s: State, i: nat)
    requires Inv(s) && Enabled(s, SignalHandled(i))
    ensures Inv(Apply(s, SignalHandled(i)))
  {
    RequestHandled(s, s.signals[i].value);
    SignalDone(HandleRequest(s, s.signals[i].value), i);
  }

  lemma SignalDone(s: State, i: nat)
    requires Inv(s) && i < |s.signals|
    ensures Inv(s.(signals := s.signals[i := None]))
  {
  }

  lemma ReadBeginsStep(s: State)
    requires Inv(s)
    ensures Inv(Apply(s, ReadBegins))
  {
    assert ReadersInv(Apply(s, ReadBegins).readers, s.cur, s.closes, s.dead);
  }

  lemma WriteBeginsStep(s: State)
    requires Inv(s) && Enabled(s, WriteBegins)
    ensures Inv(Apply(s, WriteBegins))
  {
    WriterMoves(s, Apply(s, WriteBegins).writer, s.swallowed);
  }

  lemma BeginStep(s: State, a: Action)
    requires Inv(s) && Enabled(s, a) && (a.Tick? || a.SignalArrives? || a.CloseBegins?)
    ensures Inv(Apply(s, a))
  {
  }

  lemma StepInv(s: State, a: Action, s': State)
    requires Inv(s) && Step(s, a, s')
    ensures Inv(s')
  {
    match a
    case ReadStep(r, answer) => ReadStepInv(s, r, answer);
    case WriteStep(answer) => WriteStepInv(s, answer);
    case LoopStep(ok) => LoopStepInv(s, ok);
    case CloseStep => if s.closing.CloseCancelled? { CloseShuts(s); } else { CloseMoves(s); }
    case SignalHandled(i) => SignalStep(s, i);
    case ReadBegins => ReadBeginsStep(s);
    case WriteBegins => WriteBeginsStep(s);
    case _ => BeginStep(s, a);
  }

  // ---------------------------------------------------------------------------------------------
  // Write errors the flow inflicts on itself
  // ---------------------------------------------------------------------------------------------

  // What the writer knows now, everything else as before.
  predicate FailKept(s: State, s': State) {
    FailInv(s'.writer, s.cur, s.retired, LastPc(s.loops), s.closed) && PastWindow(s'.writer, s.cfg.window)
  }

  lemma TrialSurface(s: State, answer: Answer)
    requires SurfaceInv(s) && WriteEnabled(s, answer)
    requires s.writer.pc == WriteEntry || s.writer.pc == WriteSnap || s.writer.pc.WriteSeen?
    ensures FailKept(s, WriteApply(s, answer))
  {
  }

  lemma FailSurface(s: State, answer: Answer)
    requires SurfaceInv(s) && WriteEnabled(s, answer) && s.writer.pc in {WriteFailed, AskSwitch, ReadClock}
    ensures FailKept(s, WriteApply(s, answer))
  {
  }

  lemma WindowSurface(s: State, answer: Answer)
    requires SurfaceInv(s) && WriteEnabled(s, answer) && s.writer.pc.CheckWindow?
    ensures FailKept(s, WriteApply(s, answer))
  {
  }

  lemma TallySurface(s: State, answer: Answer)
    requires SurfaceInv(s) && WriteEnabled(s, answer) && (s.writer.pc == CountSwallow || s.writer.pc.TouchSince?)
    ensures FailKept(s, WriteApply(s, answer))
  {
  }

  lemma JudgeSurface(s: State, answer: Answer)
    requires SurfaceInv(s) && WriteEnabled(s, answer) && s.writer.pc.Judge?
    ensures FailKept(s, WriteApply(s, answer))
  {
  }

  lemma MarkSurface(s: State, answer: Answer)
    requires SurfaceInv(s) && WriteEnabled(s, answer) && s.writer.pc == WriteMarking
    ensures FailKept(s, WriteApply(s, answer))
  {
    if s.dead == None {
      assert WriteApply(s, answer).writer == s.writer.(pc := WriteNoting);
    }
  }

  lemma NoteSurface(s: State, answer: Answer)
    requires SurfaceInv(s) && WriteEnabled(s, answer) && s.writer.pc == WriteNoting
    ensures FailKept(s, WriteApply(s, answer))
  {
  }

  lemma AskSurface(s: State, answer: Answer)
    requires SurfaceInv(s) && WriteEnabled(s, answer) && s.writer.pc.AskLocked?
    ensures FailKept(s, WriteApply(s, answer))
  {
    RequestFrame(s, s.writer.pc.now);
    assert WriteApply(s, answer).writer == s.writer.(pc := ReadClock);
  }

  // A socket found closed on an open flow is not the current one: a switch has retired it.
  lemma ClosedIsRetired(s: State, sock: nat)
    requires SocketsInv(s.closes, s.cur, LastPc(s.loops), s.closing) && CloseInv(s.closed, s.closing, s.cur)
    requires Used(sock, s.cur, s.retired, LastPc(s.loops)) && RetiredClosed(s.retired, s.closes) && !Open(s, sock) && !s.closed
    ensures sock in s.retired
  {
    assert s.closing != CloseDone;
  }

  lemma CallSurface(s: State, answer: Answer)
    requires Inv(s) && SurfaceInv(s) && WriteEnabled(s, answer) && s.writer.pc.WriteCall? && answer.Bad?
    ensures FailKept(s, WriteApply(s, answer))
  {
    var ep := s.writer.pc.ep;
    if answer.cause == SelfClosed && !s.closed {
      ClosedIsRetired(s, ep.sock);
    }
    assert WriteApply(s, answer).writer == s.writer.(pc := WriteFailed, sock := ep.sock, cause := answer.cause);
  }

  lemma WrittenSurface(s: State, answer: Answer)
    requires SurfaceInv(s) && WriteEnabled(s, answer) && s.writer.pc.WriteCall? && answer.Good?
    ensures FailKept(s, WriteApply(s, answer))
  {
  }

  // What was used stays used, and what was retired stays so.
  lemma FailStays(s: State, s': State)
    requires FailInv(s'.writer, s.cur, s.retired, LastPc(s.loops), s.closed) && (s.closed ==> s'.closed)
    requires forall x :: Used(x, s.cur, s.retired, LastPc(s.loops)) ==> Used(x, s'.cur, s'.retired, LastPc(s'.loops))
    requires forall x :: x in s.retired ==> x in s'.retired && s'.retired[x] == s.retired[x]
    ensures FailInv(s'.writer, s'.cur, s'.retired, LastPc(s'.loops), s'.closed)
  {
  }

  // A request that starts a loop comes after the end of the last one, hence after the start of any that retired a socket.
  lemma RequestSurface(s: State, now: nat)
    requires Inv(s) && SurfaceInv(s)
    ensures var s' := HandleRequest(s, now);
            && RetiredInv(s'.retired, s'.windowStart, s'.lastSwitchAt, LastPc(s'.loops)) && RunningInv(s'.loops, s'.windowStart)
            && (LastPc(s'.loops) == LastPc(s.loops) || LastPc(s.loops) == LoopDone)
  {
  }

  lemma WriterTells(s: State, answer: Answer)
    requires Inv(s) && SurfaceInv(s) && WriteEnabled(s, answer)
    ensures FailKept(s, WriteApply(s, answer))
  {
    match s.writer.pc
    case WriteCall(_) => if answer.Good? { WrittenSurface(s, answer); } else { CallSurface(s, answer); }
    case WriteFailed => FailSurface(s, answer);
    case AskSwitch => FailSurface(s, answer);
    case AskLocked(_) => AskSurface(s, answer);
    case ReadClock => FailSurface(s, answer);
    case CheckWindow(_) => WindowSurface(s, answer);
    case CountSwallow => TallySurface(s, answer);
    case TouchSince(_) => TallySurface(s, answer);
    case Judge(_, _, _) => JudgeSurface(s, answer);
    case WriteMarking => MarkSurface(s, answer);
    case WriteNoting => NoteSurface(s, answer);
    case _ => TrialSurface(s, answer);
  }

  lemma WriteSurface(s: State, answer: Answer)
    requires Inv(s) && SurfaceInv(s) && WriteEnabled(s, answer)
    ensures SurfaceInv(WriteApply(s, answer))
  {
    var s' := WriteApply(s, answer);
    WriteFrames(s, answer);
    WriterTells(s, answer);
    if s.writer.pc.AskLocked? {
      RequestSurface(s, s.writer.pc.now);
    }
    FailStays(s, s');
  }

  // The loop closes the socket it has replaced.
  lemma RetiringSurface(s: State, ok: bool)
    requires Inv(s) && SurfaceInv(s) && LoopEnabled(s) && LastPc(s.loops).CloseOld?
    ensures SurfaceInv(LoopApply(s, ok))
  {
    var s' := LoopApply(s, ok);
    LoopFrames(s, ok);
    assert LastPc(s'.loops) == ResetBudget && s'.lastSwitchAt == s.lastSwitchAt;
    assert LastPc(s.loops).prev !in s.retired;
    FailStays(s, s');
  }

  // The loop puts a new socket in the place of the old one, which it is about to close.
  lemma InstallingSurface(s: State, ok: bool)
    requires Inv(s) && SurfaceInv(s) && LoopEnabled(s) && LastPc(s.loops).Dialled? && !s.closed
    ensures SurfaceInv(LoopApply(s, ok))
  {
    var s' := LoopApply(s, ok);
    LoopFrames(s, ok);
    assert LastPc(s'.loops) == CloseOld(s.cur.sock) && s'.lastSwitchAt == s.lastSwitchAt;
    FailStays(s, s');
  }

  // The loop notes the time, which is past every start.
  lemma NotingSurface(s: State, ok: bool)
    requires Inv(s) && SurfaceInv(s) && LoopEnabled(s) && (LastPc(s.loops) == ClearSince || LastPc(s.loops) == NoteFailure)
    ensures SurfaceInv(LoopApply(s, ok))
  {
    var s' := LoopApply(s, ok);
    LoopFrames(s, ok);
    assert s'.lastSwitchAt == Some(s.clock) && !LastPc(s'.loops).CloseOld?;
    FailStays(s, s');
  }

  // The other steps of the loop.
  predicate Passing(pc: LoopPc, closed: bool) {
    !pc.CloseOld? && pc != ClearSince && pc != NoteFailure && (pc.Dialled? ==> closed)
  }

  predicate Passed(s: State, s': State) {
    && s'.lastSwitchAt == s.lastSwitchAt && !LastPc(s'.loops).CloseOld?
    && (LastPc(s.loops) == ResetBudget ==> LastPc(s'.loops) == ClearSince)
  }

  lemma DialPasses(s: State, ok: bool)
    requires LoopEnabled(s) && (LastPc(s.loops) == Dialing || LastPc(s.loops).Greeting?)
    ensures Passed(s, LoopApply(s, ok))
  {
  }

  lemma DropPasses(s: State, ok: bool)
    requires LoopEnabled(s) && (LastPc(s.loops).Refused? || LastPc(s.loops).Aborting? || (LastPc(s.loops).Dialled? && s.closed))
    ensures Passed(s, LoopApply(s, ok))
  {
  }

  lemma SettlePasses(s: State, ok: bool)
    requires LoopEnabled(s) && (LastPc(s.loops) == ResetBudget || LastPc(s.loops) == NoteSwitch)
    ensures Passed(s, LoopApply(s, ok))
  {
  }

  lemma DecidePasses(s: State, ok: bool)
    requires LoopEnabled(s) && (LastPc(s.loops).Decide? || LastPc(s.loops) == BackOff || LastPc(s.loops) == Finishing)
    ensures Passed(s, LoopApply(s, ok))
  {
  }

  lemma LoopPasses(s: State, ok: bool)
    requires LoopEnabled(s) && Passing(LastPc(s.loops), s.closed)
    ensures Passed(s, LoopApply(s, ok))
  {
    match LastPc(s.loops)
    case Dialing => DialPasses(s, ok);
    case Greeting(_) => DialPasses(s, ok);
    case Refused(_) => DropPasses(s, ok);
    case Aborting(_) => DropPasses(s, ok);
    case Dialled(_) => DropPasses(s, ok);
    case ResetBudget => SettlePasses(s, ok);
    case NoteSwitch => SettlePasses(s, ok);
    case _ => DecidePasses(s, ok);
  }

  lemma PassingSurface(s: State, ok: bool)
    requires Inv(s) && SurfaceInv(s) && LoopEnabled(s) && Passing(LastPc(s.loops), s.closed)
    ensures SurfaceInv(LoopApply(s, ok))
  {
    LoopFrames(s, ok);
    LoopPasses(s, ok);
    FailStays(s, LoopApply(s, ok));
  }

  lemma LoopSurface(s: State, ok: bool)
    requires Inv(s) && SurfaceInv(s) && LoopEnabled(s)
    ensures SurfaceInv(LoopApply(s, ok))
  {
    if LastPc(s.loops).CloseOld? {
      RetiringSurface(s, ok);
    } else if LastPc(s.loops).Dialled? && !s.closed {
      InstallingSurface(s, ok);
    } else if LastPc(s.loops) == ClearSince || LastPc(s.loops) == NoteFailure {
      NotingSurface(s, ok);
    } else {
      PassingSurface(s, ok);
    }
  }

  lemma OtherSurface(s: State, a: Action, s': State)
    requires Inv(s) && SurfaceInv(s) && Step(s, a, s') && Elsewhere(a)
    ensures SurfaceInv(s')
  {
    OtherFrames(s, a, s');
    if a.SignalHandled? {
      RequestSurface(s, s.signals[a.i].value);
    }
    FailStays(s, s');
  }

  lemma StepSurface(s: State, a: Action, s': State)
    requires Inv(s) && SurfaceInv(s) && Step(s, a, s')
    ensures SurfaceInv(s')
  {
    match a
    case ReadStep(r, answer) => ReadFrames(s, r, answer);
    case WriteStep(answer) => WriteSurface(s, answer);
    case LoopStep(ok) => LoopSurface(s, ok);
    case _ => OtherSurface(s, a, s');
  }
}
