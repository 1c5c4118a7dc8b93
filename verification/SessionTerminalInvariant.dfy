/** Every step of the terminal protocol keeps its invariant. */
module SessionTerminalInvariant {
  import opened Basics
  import opened SequenceNumbers
  import opened SessionTerminal

  lemma InitInv()
    ensures Inv(Init())
  {
  }

  // ---------------------------------------------------------------------------------------------
  // Callers
  // ---------------------------------------------------------------------------------------------

  // Call c moves on without touching the write lock or its right to write.
  lemma CallMoves(s: State, c: nat, call': Call)
    requires Inv(s) && c < |s.calls| && call'.passed == s.calls[c].passed && call'.inbox == s.calls[c].inbox
    requires (call'.pc == s.calls[c].pc) || (!HoldsWrite(s.calls[c].pc) && !HoldsWrite(call'.pc))
    requires BeforeCheck(call'.pc) ==> BeforeCheck(s.calls[c].pc)
    requires call'.pc == Waiting || call'.pc == Grace ==> call'.passed
    ensures Inv(SetCall(s, c, call'))
  {
    var calls' := s.calls[c := call'];
    assert SweepInv(s.winner, s.agents, s.table, calls') by { SamePassed(s, calls'); }
    assert InboxInv(calls', s.reason) by { SameInbox(s.calls, calls', s.reason); }
  }

  lemma SameInbox(calls: seq<Call>, calls': seq<Call>, reason: Option<Reason>)
    requires InboxInv(calls, reason) && |calls'| == |calls|
    requires forall c :: 0 <= c < |calls| ==> calls'[c].inbox == calls[c].inbox
    ensures InboxInv(calls', reason)
  {
  }

  lemma SamePassed(s: State, calls': seq<Call>)
    requires TableInv(s.table, s.calls) && SweepInv(s.winner, s.agents, s.table, s.calls) && |calls'| == |s.calls|
    requires forall c :: 0 <= c < |calls'| ==> calls'[c].passed == s.calls[c].passed
    ensures SweepInv(s.winner, s.agents, s.table, calls')
  {
  }

  // An entry leaves the table.
  lemma TableShrinks(s: State, key: nat)
    requires Inv(s)
    ensures Inv(s.(table := s.table - {key}))
  {
  }

  lemma CheckStep(s: State, c: nat, act: CallAct)
    requires Inv(s) && CallEnabled(s, c, act) && act in {CheckFlag, CheckState, PreCheck}
    ensures Inv(CallApply(s, c, act))
  {
    CallMoves(s, c, CallApply(s, c, act).calls[c]);
  }

  lemma AllocStep(s: State, c: nat)
    requires Inv(s) && CallEnabled(s, c, Alloc)
    ensures Inv(CallApply(s, c, Alloc))
  {
    var n := Bump(s.counter);
    if n != 0 {
      CallMoves(s, c, s.calls[c].(pc := Allocated, num := n));
    }
  }

  lemma StoreStep(s: State, c: nat)
    requires Inv(s) && CallEnabled(s, c, Store)
    ensures Inv(CallApply(s, c, Store))
  {
    CallMoves(s, c, s.calls[c].(pc := Stored));
    var s1 := SetPc(s, c, Stored);
    assert !s1.calls[c].passed;
  }

  // The parts of the invariant that speak of calls, the write lock, the table and the wire, put together again.
  lemma Assemble(s: State, calls': seq<Call>, writeLock': Option<nat>, wire': seq<nat>)
    requires Inv(s) && |calls'| == |s.calls| && WriteLockInv(writeLock', calls') && CallsInv(calls')
    requires SweepInv(s.winner, s.agents, s.table, calls') && WireInv(s.flag, wire', s.wireAtFlag, writeLock', calls')
    requires InboxInv(calls', s.reason)
    ensures Inv(s.(calls := calls', writeLock := writeLock', wire := wire'))
  {
  }

  // One call gets or gives up the write lock.
  lemma LockMoves(calls: seq<Call>, writeLock: Option<nat>, c: nat, call': Call)
    requires WriteLockInv(writeLock, calls) && c < |calls|
    requires writeLock == None || writeLock == Some(c)
    ensures WriteLockInv(if HoldsWrite(call'.pc) then Some(c) else None, calls[c := call'])
  {
  }

  lemma LockStep(s: State, c: nat)
    requires Inv(s) && CallEnabled(s, c, Lock)
    ensures Inv(CallApply(s, c, Lock))
  {
    var calls' := s.calls[c := s.calls[c].(pc := HoldsLock)];
    LockMoves(s.calls, None, c, calls'[c]);
    assert CallsInv(calls');
    assert SweepInv(s.winner, s.agents, s.table, calls') by { SamePassed(s, calls'); }
    assert InboxInv(calls', s.reason) by { SameInbox(s.calls, calls', s.reason); }
    Assemble(s, calls', Some(c), s.wire);
  }

  // The in-lock check: only while the flag is down does it let the call write.
  lemma LockedCheckStep(s: State, c: nat)
    requires Inv(s) && CallEnabled(s, c, LockedCheck)
    ensures Inv(CallApply(s, c, LockedCheck))
  {
    if s.flag {
      var calls' := s.calls[c := s.calls[c].(pc := Leaving(LocallyEnded))];
      LockMoves(s.calls, s.writeLock, c, calls'[c]);
      assert SweepInv(s.winner, s.agents, s.table, calls') by { SamePassed(s, calls'); }
      assert InboxInv(calls', s.reason) by { SameInbox(s.calls, calls', s.reason); }
      Assemble(s, calls', None, s.wire);
    } else {
      var calls' := s.calls[c := s.calls[c].(pc := Writing, passed := true)];
      LockMoves(s.calls, s.writeLock, c, calls'[c]);
      assert InboxInv(calls', s.reason) by { SameInbox(s.calls, calls', s.reason); }
      Assemble(s, calls', Some(c), s.wire);
    }
  }

  lemma WriteStep(s: State, c: nat, ok: bool)
    requires Inv(s) && CallEnabled(s, c, Write(ok))
    ensures Inv(CallApply(s, c, Write(ok)))
  {
    var call := s.calls[c];
    var calls' := s.calls[c := if ok then call.(pc := Waiting, timer := Armed) else call.(pc := Leaving(WriteFailed))];
    var wire' := if ok then s.wire + [c] else s.wire;
    LockMoves(s.calls, s.writeLock, c, calls'[c]);
    assert SweepInv(s.winner, s.agents, s.table, calls') by { SamePassed(s, calls'); }
    assert InboxInv(calls', s.reason) by { SameInbox(s.calls, calls', s.reason); }
    assert WireInv(s.flag, wire', s.wireAtFlag, None, calls') by { Written(s, c, wire', calls'); }
    Assemble(s, calls', None, wire');
  }

  lemma Written(s: State, c: nat, wire': seq<nat>, calls': seq<Call>)
    requires WireInv(s.flag, s.wire, s.wireAtFlag, s.writeLock, s.calls) && s.writeLock == Some(c)
    requires c < |s.calls| && s.calls[c].pc == Writing && s.calls[c].passed
    requires wire' == s.wire || wire' == s.wire + [c]
    requires |calls'| == |s.calls| && forall d :: 0 <= d < |calls'| ==> calls'[d].passed == s.calls[d].passed
    ensures WireInv(s.flag, wire', s.wireAtFlag, None, calls')
  {
  }

  lemma TimerFiresStep(s: State, c: nat)
    requires Inv(s) && CallEnabled(s, c, TimerFires)
    ensures Inv(CallApply(s, c, TimerFires))
  {
    CallMoves(s, c, s.calls[c].(timer := Fired));
  }

  lemma TimerClaimsStep(s: State, c: nat)
    requires Inv(s) && CallEnabled(s, c, TimerClaims)
    ensures Inv(CallApply(s, c, TimerClaims))
  {
    var call := s.calls[c];
    if call.num in s.table {
      Removes(s, call.num, c, call.(timer := TimerOwes), Timer);
    } else {
      CallMoves(s, c, call.(timer := TimerDone));
    }
  }

  lemma TimerSendsStep(s: State, c: nat)
    requires Inv(s) && CallEnabled(s, c, TimerSends)
    ensures Inv(CallApply(s, c, TimerSends))
  {
    var s1 := SetCall(s, c, s.calls[c].(timer := TimerDone));
    CallMoves(s, c, s.calls[c].(timer := TimerDone));
    DeliverKeeps(s1, c, TimedOut);
    assert CallApply(s, c, TimerSends) == Deliver(s1, c, TimedOut);
  }

  // A call's entry leaves the table and the call moves on.
  lemma Removes(s: State, key: nat, c: nat, call': Call, who: Claimant)
    requires Inv(s) && c < |s.calls| && call'.passed == s.calls[c].passed && call'.inbox == s.calls[c].inbox
    requires (call'.pc == s.calls[c].pc) || (!HoldsWrite(s.calls[c].pc) && !HoldsWrite(call'.pc))
    requires BeforeCheck(call'.pc) ==> BeforeCheck(s.calls[c].pc)
    requires call'.pc == Waiting || call'.pc == Grace ==> call'.passed
    ensures Inv(Remove(s, key, c, call', who))
  {
    CallMoves(s, c, call'.(claimed := Some(who)));
    TableShrinks(SetCall(s, c, call'.(claimed := Some(who))), key);
  }

  // A value reaches a result channel; a terminal one names the recorded reason.
  lemma DeliverKeeps(s: State, c: nat, out: Outcome)
    requires Inv(s) && c < |s.calls| && (out.Settled? ==> s.reason == Some(out.reason))
    ensures Inv(Deliver(s, c, out))
  {
    var calls' := Deliver(s, c, out).calls;
    assert SweepInv(s.winner, s.agents, s.table, calls') by { SamePassed(s, calls'); }
    assert InboxInv(calls', s.reason) by { MoreInbox(s.calls, c, out, s.reason); }
  }

  lemma MoreInbox(calls: seq<Call>, c: nat, out: Outcome, reason: Option<Reason>)
    requires InboxInv(calls, reason) && c < |calls| && (out.Settled? ==> reason == Some(out.reason))
    ensures InboxInv(calls[c := calls[c].(inbox := calls[c].inbox + [out])], reason)
  {
  }

  lemma WaitStep(s: State, c: nat, act: CallAct)
    requires Inv(s) && CallEnabled(s, c, act) && act in {Receive, CtxEnds, GraceEnds, SeeClosed, Leave}
    ensures Inv(CallApply(s, c, act))
  {
    var call := s.calls[c];
    match act
    case Receive => CallMoves(s, c, call.(pc := Leaving(call.inbox[0]), timer := StopTimer(call.timer)));
    case GraceEnds => CallMoves(s, c, call.(pc := Leaving(GraceExpired), timer := StopTimer(call.timer)));
    case SeeClosed => CallMoves(s, c, call.(pc := Leaving(SessionClosed), timer := StopTimer(call.timer)));
    case CtxEnds =>
      if call.num in s.table {
        Removes(s, call.num, c, call.(pc := Leaving(Cancelled), timer := StopTimer(call.timer)), Context);
      } else {
        CallMoves(s, c, call.(pc := Grace));
      }
    case Leave =>
      if call.num in s.table {
        Removes(s, call.num, c, call.(pc := Returned(call.pc.out)), Return);
      } else {
        CallMoves(s, c, call.(pc := Returned(call.pc.out)));
      }
  }

  lemma CallStep(s: State, c: nat, act: CallAct)
    requires Inv(s) && CallEnabled(s, c, act)
    ensures Inv(CallApply(s, c, act))
  {
    match act
    case CheckFlag => CheckStep(s, c, act);
    case CheckState => CheckStep(s, c, act);
    case PreCheck => CheckStep(s, c, act);
    case Alloc => AllocStep(s, c);
    case Store => StoreStep(s, c);
    case Lock => LockStep(s, c);
    case LockedCheck => LockedCheckStep(s, c);
    case Write(ok) => WriteStep(s, c, ok);
    case TimerFires => TimerFiresStep(s, c);
    case TimerClaims => TimerClaimsStep(s, c);
    case TimerSends => TimerSendsStep(s, c);
    case _ => WaitStep(s, c, act);
  }

  // ---------------------------------------------------------------------------------------------
  // Agents
  // ---------------------------------------------------------------------------------------------

  lemma CasStep(s: State, a: nat)
    requires Inv(s) && AgentEnabled(s, a, Advance) && s.agents[a].pc == Cas
    ensures Inv(Advanced(s, a))
  {
  }

  lemma RecordStep(s: State, a: nat)
    requires Inv(s) && AgentEnabled(s, a, Advance) && (s.agents[a].pc == StoreFailed || s.agents[a].pc == Record)
    ensures Inv(Advanced(s, a))
  {
  }

  lemma TakeGenLock(s: State, a: nat)
    requires Inv(s) && AgentEnabled(s, a, Advance) && s.agents[a].pc.SetWant?
    ensures Inv(Advanced(s, a))
  {
  }

  lemma TargetAccepted(s: State, a: nat)
    requires Inv(s) && AgentEnabled(s, a, Advance) && s.agents[a].pc.SetCheck? && !Refused(s, s.agents[a].pc.target)
    ensures Inv(Advanced(s, a))
  {
  }

  lemma TargetRefused(s: State, a: nat)
    requires Inv(s) && AgentEnabled(s, a, Advance) && s.agents[a].pc.SetCheck? && Refused(s, s.agents[a].pc.target)
    ensures Inv(Advanced(s, a))
  {
    assert !Marking(s.agents[a]);
  }

  // The parts of the invariant that speak of agents, the state lock and the state, put together again.
  lemma AssembleAgents(s: State, agents': seq<Agent>, genLock': Option<nat>, state': ConnState)
    requires Inv(s) && GenLockInv(genLock', agents')
    requires TerminalInv(s.flag, s.winner, s.failed, s.reason, state', agents') && AgentsInv(agents', s.winner, state')
    requires SweepInv(s.winner, agents', s.table, s.calls)
    ensures Inv(s.(agents := agents', genLock := genLock', state := state'))
  {
  }

  lemma GenLockFreed(agents: seq<Agent>, a: nat, ag': Agent)
    requires GenLockInv(Some(a), agents) && a < |agents| && !HoldsGen(ag'.pc)
    ensures GenLockInv(None, agents[a := ag'])
  {
  }

  lemma StoreTarget(s: State, a: nat)
    requires Inv(s) && AgentEnabled(s, a, Advance) && s.agents[a].pc.SetStore?
    ensures Inv(Advanced(s, a))
  {
    var ag := s.agents[a];
    var target := ag.pc.target;
    var agents' := s.agents[a := ag.(pc := AfterSet(target))];
    GenLockFreed(s.agents, a, agents'[a]);
    assert AgentsInv(agents', s.winner, target);
    AssembleAgents(s, agents', None, target);
  }

  lemma StartSweepStep(s: State, a: nat)
    requires Inv(s) && AgentEnabled(s, a, Advance) && s.agents[a].pc == StartSweep
    ensures Inv(Advanced(s, a))
  {
  }

  // The pcs of a sweep or a hand-over, after the state is set.
  predicate Delivering(pc: AgentPc) {
    pc.Sweeping? || pc.Holding? || pc.SweepOwes?
  }

  // A sweeping agent moves on; if it is the winner, only keys that left the table leave its list.
  lemma SweeperMoves(s: State, a: nat, pc: AgentPc)
    requires Inv(s) && a < |s.agents|
    requires (Delivering(s.agents[a].pc) && (Delivering(pc) || pc == Finished)) ||
             ((s.agents[a].pc.Take? || s.agents[a].pc.Owes?) && (pc.Owes? || pc == Finished))
    requires forall k :: k in s.table && k in Pending(s.agents[a].pc) ==> k in Pending(pc)
    ensures Inv(SetAgent(s, a, pc))
  {
  }

  lemma RemovingStep(s: State, a: nat)
    requires Inv(s) && AgentEnabled(s, a, Advance) && (s.agents[a].pc.Holding? || s.agents[a].pc.Take?)
    ensures Inv(Advanced(s, a))
  {
    var pc := s.agents[a].pc;
    if pc.key in s.table {
      var target := if pc.Holding? then pc.callee else s.table[pc.key];
      var s1 := Remove(s, pc.key, target, s.calls[target], Loop(a));
      assert Inv(s1) by { Removes(s, pc.key, target, s.calls[target], Loop(a)); }
      SweeperMoves(s1, a, if pc.Holding? then SweepOwes(pc.todo, target) else Owes(target));
    } else {
      SweeperMoves(s, a, if pc.Holding? then Sweeping(pc.todo) else Finished);
    }
  }

  lemma DeliveringStep(s: State, a: nat)
    requires Inv(s) && AgentEnabled(s, a, Advance) && (s.agents[a].pc.SweepOwes? || s.agents[a].pc.Owes?)
    ensures Inv(Advanced(s, a))
  {
    var ag := s.agents[a];
    var out := if ag.pc.Owes? then Answered else SweepOutcome(ag);
    var s1 := Deliver(s, ag.pc.callee, out);
    assert Inv(s1) by { DeliverKeeps(s, ag.pc.callee, out); }
    SweeperMoves(s1, a, if ag.pc.Owes? then Finished else Sweeping(ag.pc.todo));
  }

  lemma VisitStep(s: State, a: nat, act: AgentAct)
    requires Inv(s) && AgentEnabled(s, a, act) && !act.Advance?
    ensures Inv(AgentApply(s, a, act))
  {
    SweeperMoves(s, a, AgentApply(s, a, act).agents[a].pc);
  }

  lemma AdvanceStep(s: State, a: nat)
    requires Inv(s) && AgentEnabled(s, a, Advance)
    ensures Inv(Advanced(s, a))
  {
    match s.agents[a].pc
    case Cas => CasStep(s, a);
    case StoreFailed => RecordStep(s, a);
    case Record => RecordStep(s, a);
    case SetWant(_) => TakeGenLock(s, a);
    case SetCheck(target) => if Refused(s, target) { TargetRefused(s, a); } else { TargetAccepted(s, a); }
    case SetStore(_) => StoreTarget(s, a);
    case StartSweep => StartSweepStep(s, a);
    case Holding(_, _, _) => RemovingStep(s, a);
    case Take(_) => RemovingStep(s, a);
    case SweepOwes(_, _) => DeliveringStep(s, a);
    case Owes(_) => DeliveringStep(s, a);
  }

  lemma CallArrives(s: State, replay: bool)
    requires Inv(s)
    ensures Inv(Apply(s, Arrive(replay)))
  {
    var s' := Apply(s, Arrive(replay));
    assert WriteLockInv(s'.writeLock, s'.calls) && CallsInv(s'.calls);
    assert WireInv(s'.flag, s'.wire, s'.wireAtFlag, s'.writeLock, s'.calls);
  }

  // A goroutine that has touched nothing yet.
  lemma AgentArrives(s: State, ag: Agent)
    requires Inv(s) && (ag.reason.Some? ==> ag.pc == Cas) && !HoldsGen(ag.pc) && !Delivering(ag.pc)
    requires ag.reason == None ==> AgentOk(ag.pc, s.state)
    ensures Inv(s.(agents := s.agents + [ag]))
  {
    var agents' := s.agents + [ag];
    assert GenLockInv(s.genLock, agents') && AgentsInv(agents', s.winner, s.state);
    AssembleAgents(s, agents', s.genLock, s.state);
  }

  lemma ArrivalStep(s: State, a: Action)
    requires Inv(s) && Enabled(s, a) && !a.ByCall? && !a.ByAgent?
    ensures Inv(Apply(s, a))
  {
    match a
    case Arrive(replay) => CallArrives(s, replay);
    case MarkEnded(r) => AgentArrives(s, Agent(Some(r), Cas));
    case SetState(target) => AgentArrives(s, Agent(None, SetWant(target)));
    case LoseConnection => AgentArrives(s, Agent(None, StartSweep));
    case Dispatch(n) => AgentArrives(s, Agent(None, Take(n)));
    case CloseMark =>
  }

  lemma StepInv(s: State, a: Action, s': State)
    requires Inv(s) && Step(s, a, s')
    ensures Inv(s')
  {
    match a
    case ByCall(c, act) => CallStep(s, c, act);
    case ByAgent(g, act) => if act == Advance { AdvanceStep(s, g); } else { VisitStep(s, g, act); }
    case _ => ArrivalStep(s, a);
  }
}
