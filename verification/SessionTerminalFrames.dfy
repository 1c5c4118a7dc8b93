/** What each kind of step of the terminal protocol leaves alone. */
module SessionTerminalFrames {
  import opened SessionTerminal

  predicate ToDraw(pc: CallPc) {
    pc.Begin? || pc.PastFlag? || pc.Ready?
  }

  // ---------------------------------------------------------------------------------------------
  // Callers
  // ---------------------------------------------------------------------------------------------

  // A caller's step changes that call alone and nothing of the terminal state; only drawing a number moves the counter.
  predicate CallFrame(s: State, c: nat, act: CallAct, s': State)
    requires c < |s.calls|
  {
    && s'.flag == s.flag && s'.failed == s.failed && s'.reason == s.reason && s'.winner == s.winner && s'.state == s.state
    && s'.closed == s.closed && s'.genLock == s.genLock && s'.agents == s.agents && s'.wireAtFlag == s.wireAtFlag
    && |s'.calls| == |s.calls| && s'.calls == s.calls[c := s'.calls[c]] && s.wire <= s'.wire
    && (act != Alloc ==>
          && s'.counter == s.counter && s'.bumps == s.bumps && s'.calls[c].num == s.calls[c].num
          && (ToDraw(s'.calls[c].pc) ==> ToDraw(s.calls[c].pc)))
  }

  lemma CheckFrame(s: State, c: nat, act: CallAct)
    requires CallEnabled(s, c, act) && (act.CheckFlag? || act.CheckState? || act.PreCheck?)
    ensures CallFrame(s, c, act, CallApply(s, c, act))
  {
  }

  lemma StoreFrame(s: State, c: nat, act: CallAct)
    requires CallEnabled(s, c, act) && (act.Alloc? || act.Store?)
    ensures CallFrame(s, c, act, CallApply(s, c, act))
  {
  }

  lemma LockFrame(s: State, c: nat, act: CallAct)
    requires CallEnabled(s, c, act) && (act.Lock? || act.LockedCheck?)
    ensures CallFrame(s, c, act, CallApply(s, c, act))
  {
  }

  lemma WriteFrame(s: State, c: nat, act: CallAct)
    requires CallEnabled(s, c, act) && act.Write?
    ensures CallFrame(s, c, act, CallApply(s, c, act))
  {
  }

  lemma TimerFrame(s: State, c: nat, act: CallAct)
    requires CallEnabled(s, c, act) && (act.TimerFires? || act.TimerClaims? || act.TimerSends?)
    ensures CallFrame(s, c, act, CallApply(s, c, act))
  {
  }

  lemma WaitFrame(s: State, c: nat, act: CallAct)
    requires CallEnabled(s, c, act) && (act.Receive? || act.GraceEnds? || act.SeeClosed?)
    ensures CallFrame(s, c, act, CallApply(s, c, act))
  {
  }

  lemma CancelFrame(s: State, c: nat, act: CallAct)
    requires CallEnabled(s, c, act) && act.CtxEnds?
    ensures CallFrame(s, c, act, CallApply(s, c, act))
  {
  }

  lemma LeaveFrame(s: State, c: nat, act: CallAct)
    requires CallEnabled(s, c, act) && act.Leave?
    ensures CallFrame(s, c, act, CallApply(s, c, act))
  {
    if s.calls[c].num in s.table {
      RemoveOwnFrame(s, c);
    }
  }

  lemma RemoveOwnFrame(s: State, c: nat)
    requires CallEnabled(s, c, Leave) && s.calls[c].num in s.table
    ensures CallFrame(s, c, Leave, CallApply(s, c, Leave))
  {
  }

  lemma CallFrames(s: State, c: nat, act: CallAct)
    requires CallEnabled(s, c, act)
    ensures CallFrame(s, c, act, CallApply(s, c, act))
  {
    match act
    case CheckFlag => CheckFrame(s, c, act);
    case CheckState => CheckFrame(s, c, act);
    case PreCheck => CheckFrame(s, c, act);
    case Alloc => StoreFrame(s, c, act);
    case Store => StoreFrame(s, c, act);
    case Lock => LockFrame(s, c, act);
    case LockedCheck => LockFrame(s, c, act);
    case Write(_) => WriteFrame(s, c, act);
    case Receive => WaitFrame(s, c, act);
    case GraceEnds => WaitFrame(s, c, act);
    case SeeClosed => WaitFrame(s, c, act);
    case CtxEnds => CancelFrame(s, c, act);
    case Leave => LeaveFrame(s, c, act);
    case _ => TimerFrame(s, c, act);
  }

  // ---------------------------------------------------------------------------------------------
  // Agents
  // ---------------------------------------------------------------------------------------------

  // An agent's step may claim a call or hand it a value, but moves none on.
  predicate SameCalls(calls: seq<Call>, calls': seq<Call>) {
    && |calls'| == |calls|
    && forall c :: 0 <= c < |calls| ==>
         calls'[c].pc == calls[c].pc && calls'[c].num == calls[c].num && calls'[c].passed == calls[c].passed
  }

  predicate AgentFrame(s: State, s': State) {
    && s'.closed == s.closed && s'.writeLock == s.writeLock && s'.counter == s.counter && s'.bumps == s.bumps
    && s'.wire == s.wire && SameCalls(s.calls, s'.calls)
    && (s.flag ==> s'.flag && s'.winner == s.winner && s'.wireAtFlag == s.wireAtFlag)
  }

  predicate StateKept(s: State, s': State) {
    s'.state == s.state && s'.failed == s.failed && s'.reason == s.reason
  }

  // The agent writes the state, its failed mark or its reason.
  predicate WritesState(pc: AgentPc) {
    pc == StoreFailed || pc == Record || pc.SetStore?
  }

  lemma MarkFrame(s: State, a: nat)
    requires AgentEnabled(s, a, Advance) && (s.agents[a].pc == Cas || s.agents[a].pc == StartSweep)
    ensures AgentFrame(s, Advanced(s, a)) && StateKept(s, Advanced(s, a))
  {
  }

  lemma StateFrame(s: State, a: nat)
    requires AgentEnabled(s, a, Advance) && WritesState(s.agents[a].pc)
    ensures AgentFrame(s, Advanced(s, a))
  {
  }

  lemma SetFrame(s: State, a: nat)
    requires AgentEnabled(s, a, Advance) && (s.agents[a].pc.SetWant? || s.agents[a].pc.SetCheck?)
    ensures AgentFrame(s, Advanced(s, a)) && StateKept(s, Advanced(s, a))
  {
  }

  lemma RemoveFrame(s: State, a: nat)
    requires AgentEnabled(s, a, Advance) && (s.agents[a].pc.Holding? || s.agents[a].pc.Take?)
    ensures AgentFrame(s, Advanced(s, a)) && StateKept(s, Advanced(s, a))
  {
  }

  lemma DeliverFrame(s: State, a: nat)
    requires AgentEnabled(s, a, Advance) && (s.agents[a].pc.SweepOwes? || s.agents[a].pc.Owes?)
    ensures AgentFrame(s, Advanced(s, a)) && StateKept(s, Advanced(s, a))
  {
  }

  lemma VisitFrame(s: State, a: nat, act: AgentAct)
    requires AgentEnabled(s, a, act) && act != Advance
    ensures AgentFrame(s, AgentApply(s, a, act)) && StateKept(s, AgentApply(s, a, act))
  {
  }

  lemma AgentFrames(s: State, a: nat, act: AgentAct)
    requires AgentEnabled(s, a, act)
    ensures AgentFrame(s, AgentApply(s, a, act))
    ensures (act == Advance && WritesState(s.agents[a].pc)) || StateKept(s, AgentApply(s, a, act))
  {
    if act != Advance {
      VisitFrame(s, a, act);
    } else {
      match s.agents[a].pc
      case Cas => MarkFrame(s, a);
      case StartSweep => MarkFrame(s, a);
      case StoreFailed => StateFrame(s, a);
      case Record => StateFrame(s, a);
      case SetStore(_) => StateFrame(s, a);
      case SetWant(_) => SetFrame(s, a);
      case SetCheck(_) => SetFrame(s, a);
      case Holding(_, _, _) => RemoveFrame(s, a);
      case Take(_) => RemoveFrame(s, a);
      case _ => DeliverFrame(s, a);
    }
  }
}
