/** Every step of the terminal protocol keeps track of who settles whom, a store under the number of a call still about excepted. */
module SessionSettlingInvariant {
  import opened Basics
  import opened SequenceNumbers
  import opened SessionTerminal
  import opened SessionTerminalFrames

  lemma InitSettle()
    ensures SettleInv(Init())
  {
  }

  // ---------------------------------------------------------------------------------------------
  // Whose entry is under a number
  // ---------------------------------------------------------------------------------------------

  // No entry is put in, no call stores one, and whoever has departed stays so.
  lemma OwnKept(s: State, table': map<nat, nat>, calls': seq<Call>, agents': seq<Agent>)
    requires OwnInv(s.table, s.calls, s.agents) && |calls'| == |s.calls|
    requires forall k :: k in table' ==> k in s.table && table'[k] == s.table[k]
    requires forall c :: 0 <= c < |calls'| && Entered(calls'[c]) ==> Entered(s.calls[c]) && calls'[c].num == s.calls[c].num
    requires forall c :: 0 <= c < |calls'| && Departed(c, s.calls[c], s.agents) ==> Departed(c, calls'[c], agents')
    ensures OwnInv(table', calls', agents')
  {
  }

  lemma CallOwn(s: State, c: nat, call': Call, table': map<nat, nat>)
    requires OwnInv(s.table, s.calls, s.agents) && c < |s.calls| && (Left(s.calls[c]) ==> Left(call'))
    requires Entered(call') ==> Entered(s.calls[c]) && call'.num == s.calls[c].num
    requires forall k :: k in table' ==> k in s.table && table'[k] == s.table[k]
    ensures OwnInv(table', s.calls[c := call'], s.agents)
  {
    OwnKept(s, table', s.calls[c := call'], s.agents);
  }

  // No agent takes hold of a call that has left.
  lemma AgentOwn(table: map<nat, nat>, calls: seq<Call>, agents: seq<Agent>, a: nat, pc: AgentPc)
    requires OwnInv(table, calls, agents) && a < |agents|
    requires pc.Holding? ==> pc.callee < |calls| && !Left(calls[pc.callee])
    ensures OwnInv(table, calls, agents[a := agents[a].(pc := pc)])
  {
    forall c | 0 <= c < |calls| && Departed(c, calls[c], agents) ensures Departed(c, calls[c], agents[a := agents[a].(pc := pc)]) {
    }
  }

  // ---------------------------------------------------------------------------------------------
  // Callers
  // ---------------------------------------------------------------------------------------------

  // A call that has not stored its entry yet moves on.
  lemma UnenteredMoves(s: State, c: nat, call': Call)
    requires SettleInv(s) && c < |s.calls| && !Entered(s.calls[c]) && ClaimInv(call') && !Entered(call')
    requires Left(s.calls[c]) ==> Left(call')
    ensures SettleInv(SetCall(s, c, call'))
  {
    assert ClaimInv(s.calls[c]);
    assert OwnInv(s.table, s.calls[c := call'], s.agents) by { CallOwn(s, c, call', s.table); }
  }

  // A call moves on without touching its entry, its claim or its result channel.
  predicate SameEntry(call: Call, call': Call) {
    && call'.num == call.num && Entered(call) && Entered(call') && call'.claimed == call.claimed && call'.inbox == call.inbox
    && (Left(call) ==> Left(call'))
  }

  lemma EntryMoves(s: State, c: nat, call': Call)
    requires SettleInv(s) && c < |s.calls| && SameEntry(s.calls[c], call') && ClaimInv(call')
    ensures SettleInv(SetCall(s, c, call'))
  {
    var calls' := s.calls[c := call'];
    assert StoredInv(c, s.calls[c], s.table);
    assert DebtsInv(s.agents, calls') by { EntryDebts(s.agents, s.calls, c, call'); }
    assert EntriesInv(s.table, calls') by { EntryTable(s.table, s.calls, c, call'); }
    assert ServedInv(calls', s.agents) by { assert Served(c, s.calls[c], s.agents); }
    assert OwnInv(s.table, calls', s.agents) by { CallOwn(s, c, call', s.table); }
  }

  lemma EntryDebts(agents: seq<Agent>, calls: seq<Call>, c: nat, call': Call)
    requires DebtsInv(agents, calls) && c < |calls| && SameEntry(calls[c], call')
    ensures DebtsInv(agents, calls[c := call'])
  {
  }

  lemma EntryTable(table: map<nat, nat>, calls: seq<Call>, c: nat, call': Call)
    requires EntriesInv(table, calls) && c < |calls| && SameEntry(calls[c], call')
    ensures EntriesInv(table, calls[c := call'])
  {
  }

  // The entry found under a call's number is that call's entry.
  lemma OwnEntry(s: State, c: nat)
    requires SettleInv(s) && c < |s.calls| && Entered(s.calls[c]) && !Departed(c, s.calls[c], s.agents) && s.calls[c].num in s.table
    ensures s.table[s.calls[c].num] == c && s.calls[c].claimed == None && !Left(s.calls[c])
  {
    assert InTable(s.calls[c].num, s.calls[c]);
    assert ClaimInv(s.calls[c]);
  }

  lemma RemovedTable(table: map<nat, nat>, calls: seq<Call>, c: nat, call': Call)
    requires EntriesInv(table, calls) && c < |calls| && calls[c].num in table && table[calls[c].num] == c
    ensures EntriesInv(table - {calls[c].num}, calls[c := call'])
  {
    forall k | k in table && k != calls[c].num ensures table[k] < |calls| && table[k] != c && InTable(k, calls[table[k]]) {
      assert InTable(k, calls[table[k]]);
    }
  }

  lemma RemovedClaims(table: map<nat, nat>, calls: seq<Call>, c: nat, call': Call)
    requires ClaimsInv(calls, table) && c < |calls| && Entered(calls[c]) && calls[c].num in table && table[calls[c].num] == c
    requires ClaimInv(call') && call'.claimed.Some?
    ensures ClaimsInv(calls[c := call'], table - {calls[c].num})
  {
    forall d | 0 <= d < |calls| && d != c ensures ClaimInv(calls[d]) && StoredInv(d, calls[d], table - {calls[c].num}) {
      assert StoredInv(d, calls[d], table);
    }
  }

  lemma ClaimedDebts(agents: seq<Agent>, calls: seq<Call>, c: nat, call': Call)
    requires DebtsInv(agents, calls) && c < |calls| && calls[c].claimed == None
    requires call'.num == calls[c].num && (Entered(calls[c]) ==> Entered(call'))
    ensures DebtsInv(agents, calls[c := call'])
  {
  }

  // A call removes its own entry: by its timer, its context or its return.
  lemma SelfClaims(s: State, c: nat, call': Call, who: Claimant)
    requires SettleInv(s) && c < |s.calls| && Entered(s.calls[c]) && !Departed(c, s.calls[c], s.agents) && s.calls[c].num in s.table
    requires who in {Timer, Context, Return} && SameEntry(s.calls[c], call') && ClaimInv(call'.(claimed := Some(who)))
    ensures SettleInv(Remove(s, s.calls[c].num, c, call', who))
  {
    OwnEntry(s, c);
    var claimed' := call'.(claimed := Some(who));
    var calls' := s.calls[c := claimed'];
    assert DebtsInv(s.agents, calls') by { ClaimedDebts(s.agents, s.calls, c, claimed'); }
    assert EntriesInv(s.table - {s.calls[c].num}, calls') by { RemovedTable(s.table, s.calls, c, claimed'); }
    assert ClaimsInv(calls', s.table - {s.calls[c].num}) by { RemovedClaims(s.table, s.calls, c, claimed'); }
    assert OwnInv(s.table - {s.calls[c].num}, calls', s.agents) by { CallOwn(s, c, claimed', s.table - {s.calls[c].num}); }
  }

  lemma CheckStep(s: State, c: nat, act: CallAct)
    requires SettleInv(s) && CallEnabled(s, c, act) && (act == CheckFlag || act == CheckState)
    ensures SettleInv(CallApply(s, c, act))
  {
    assert ClaimInv(s.calls[c]);
    UnenteredMoves(s, c, CallApply(s, c, act).calls[c]);
  }

  lemma AllocStep(s: State, c: nat)
    requires SettleInv(s) && CallEnabled(s, c, Alloc)
    ensures SettleInv(CallApply(s, c, Alloc))
  {
    var n := Bump(s.counter);
    assert ClaimInv(s.calls[c]);
    if n == 0 {
      assert CallApply(s, c, Alloc).calls == s.calls;
    } else {
      UnenteredMoves(s, c, s.calls[c].(pc := Allocated, num := n));
    }
  }

  lemma StoreStep(s: State, c: nat)
    requires SettleInv(s) && CallEnabled(s, c, CallAct.Store) && FreshNumber(s, c)
    ensures SettleInv(CallApply(s, c, CallAct.Store))
  {
    var call' := s.calls[c].(pc := Stored);
    var s' := CallApply(s, c, CallAct.Store);
    assert ClaimInv(s.calls[c]);
    assert EntriesInv(s'.table, s'.calls) by { StoredEntry(s, c, call'); }
    assert ClaimsInv(s'.calls, s'.table) by { StoredClaims(s, c, call'); }
    assert DebtsInv(s.agents, s'.calls) by { ClaimedDebts(s.agents, s.calls, c, call'); }
    assert OwnInv(s'.table, s'.calls, s.agents) by { StoredOwn(s, c, call'); }
  }

  // Under a fresh number there is no entry.
  lemma FreshNumberUnused(s: State, c: nat, d: nat)
    requires ClaimsInv(s.calls, s.table) && c < |s.calls| && FreshNumber(s, c) && d < |s.calls| && d != c
    requires Entered(s.calls[d]) && s.calls[d].claimed == None
    ensures s.calls[d].num != s.calls[c].num
  {
    assert ClaimInv(s.calls[d]);
  }

  lemma StoredOwn(s: State, c: nat, call': Call)
    requires OwnInv(s.table, s.calls, s.agents) && c < |s.calls| && FreshNumber(s, c) && call' == s.calls[c].(pc := Stored)
    ensures OwnInv(s.table[call'.num := c], s.calls[c := call'], s.agents)
  {
    var calls' := s.calls[c := call'];
    forall d | 0 <= d < |calls'| && d != c && Entered(calls'[d]) && !Departed(d, calls'[d], s.agents)
      ensures calls'[d].num != call'.num
    {
      assert !Departed(d, s.calls[d], s.agents);
    }
  }

  lemma StoredEntry(s: State, c: nat, call': Call)
    requires EntriesInv(s.table, s.calls) && ClaimsInv(s.calls, s.table) && c < |s.calls| && FreshNumber(s, c)
    requires s.calls[c].pc == Allocated && call' == s.calls[c].(pc := Stored)
    ensures EntriesInv(s.table[call'.num := c], s.calls[c := call'])
  {
    assert ClaimInv(s.calls[c]);
    forall k | k in s.table ensures s.table[k] < |s.calls| && InTable(k, s.calls[s.table[k]]) && s.table[k] != c && k != call'.num {
      assert InTable(k, s.calls[s.table[k]]);
      FreshNumberUnused(s, c, s.table[k]);
    }
  }

  lemma StoredClaims(s: State, c: nat, call': Call)
    requires ClaimsInv(s.calls, s.table) && c < |s.calls| && FreshNumber(s, c)
    requires s.calls[c].pc == Allocated && call' == s.calls[c].(pc := Stored)
    ensures ClaimsInv(s.calls[c := call'], s.table[call'.num := c])
  {
    assert ClaimInv(s.calls[c]);
    forall d | 0 <= d < |s.calls| && d != c ensures ClaimInv(s.calls[d]) && StoredInv(d, s.calls[d], s.table[call'.num := c]) {
      assert StoredInv(d, s.calls[d], s.table);
      if Entered(s.calls[d]) && s.calls[d].claimed == None {
        FreshNumberUnused(s, c, d);
      }
    }
  }

  lemma LockingStep(s: State, c: nat, act: CallAct)
    requires SettleInv(s) && CallEnabled(s, c, act) && (act == PreCheck || act == Lock)
    ensures SettleInv(CallApply(s, c, act))
  {
    var call := s.calls[c];
    assert ClaimInv(call);
    EntryMoves(s, c, call.(pc := if act == Lock then HoldsLock else if s.flag then Leaving(LocallyEnded) else WantLock));
  }

  lemma LockedCheckStep(s: State, c: nat)
    requires SettleInv(s) && CallEnabled(s, c, LockedCheck)
    ensures SettleInv(CallApply(s, c, LockedCheck))
  {
    var call := s.calls[c];
    assert ClaimInv(call);
    EntryMoves(s, c, if s.flag then call.(pc := Leaving(LocallyEnded)) else call.(pc := Writing, passed := true));
  }

  lemma WriteStep(s: State, c: nat, ok: bool)
    requires SettleInv(s) && CallEnabled(s, c, CallAct.Write(ok))
    ensures SettleInv(CallApply(s, c, CallAct.Write(ok)))
  {
    var call := s.calls[c];
    assert ClaimInv(call);
    EntryMoves(s, c, if ok then call.(pc := Waiting, timer := Armed) else call.(pc := Leaving(WriteFailed)));
  }

  lemma WaitingStep(s: State, c: nat, act: CallAct)
    requires SettleInv(s) && CallEnabled(s, c, act) && act in {TimerFires, Receive, GraceEnds, SeeClosed}
    ensures SettleInv(CallApply(s, c, act))
  {
    var call' := CallApply(s, c, act).calls[c];
    assert ClaimInv(s.calls[c]);
    assert SameEntry(s.calls[c], call') && ClaimInv(call');
    EntryMoves(s, c, call');
  }

  lemma ClaimingStep(s: State, c: nat, act: CallAct)
    requires SettleInv(s) && CallEnabled(s, c, act) && act in {TimerClaims, CtxEnds, Leave}
    ensures SettleInv(CallApply(s, c, act))
  {
    var call := s.calls[c];
    assert ClaimInv(call) && StoredInv(c, call, s.table);
    if call.num in s.table {
      OwnEntry(s, c);
      match act
      case TimerClaims => SelfClaims(s, c, call.(timer := TimerOwes), Timer);
      case CtxEnds => SelfClaims(s, c, call.(pc := Leaving(Cancelled), timer := StopTimer(call.timer)), Context);
      case Leave => SelfClaims(s, c, call.(pc := Returned(call.pc.out)), Return);
    } else {
      EntryMoves(s, c, CallApply(s, c, act).calls[c]);
    }
  }

  // A value reaches the result channel of a call whose entry was removed.
  lemma DeliverEntries(table: map<nat, nat>, calls: seq<Call>, c: nat, call': Call)
    requires EntriesInv(table, calls) && ClaimsInv(calls, table) && c < |calls| && calls[c].claimed.Some?
    requires call' == calls[c].(inbox := call'.inbox, timer := call'.timer) && ClaimInv(call')
    ensures EntriesInv(table, calls[c := call']) && ClaimsInv(calls[c := call'], table)
  {
    forall k | k in table ensures table[k] < |calls| && table[k] != c && InTable(k, calls[table[k]]) {
      assert InTable(k, calls[table[k]]);
    }
  }

  lemma TimerSendsStep(s: State, c: nat)
    requires SettleInv(s) && CallEnabled(s, c, TimerSends)
    ensures SettleInv(CallApply(s, c, TimerSends))
  {
    var call := s.calls[c];
    var call' := call.(timer := TimerDone, inbox := call.inbox + [TimedOut]);
    assert ClaimInv(call);
    assert call'.inbox == [TimedOut];
    DeliverEntries(s.table, s.calls, c, call');
    assert DebtsInv(s.agents, s.calls[c := call']) by { TimedDebts(s.agents, s.calls, c, call'); }
    assert OwnInv(s.table, s.calls[c := call'], s.agents) by { CallOwn(s, c, call', s.table); }
  }

  lemma TimedDebts(agents: seq<Agent>, calls: seq<Call>, c: nat, call': Call)
    requires DebtsInv(agents, calls) && c < |calls| && calls[c].claimed == Some(Timer) && Entered(calls[c])
    requires call' == calls[c].(inbox := call'.inbox, timer := call'.timer)
    ensures DebtsInv(agents, calls[c := call'])
  {
    forall a | 0 <= a < |agents| ensures DebtInv(a, agents[a], calls[c := call']) {
      assert DebtInv(a, agents[a], calls);
    }
  }

  lemma CallSettles(s: State, c: nat, act: CallAct)
    requires SettleInv(s) && CallEnabled(s, c, act) && (act.Store? ==> FreshNumber(s, c))
    ensures SettleInv(CallApply(s, c, act))
  {
    match act
    case CheckFlag => CheckStep(s, c, act);
    case CheckState => CheckStep(s, c, act);
    case Alloc => AllocStep(s, c);
    case Store => StoreStep(s, c);
    case TimerClaims => ClaimingStep(s, c, act);
    case TimerSends => TimerSendsStep(s, c);
    case CtxEnds => ClaimingStep(s, c, act);
    case Leave => ClaimingStep(s, c, act);
    case PreCheck => LockingStep(s, c, act);
    case Lock => LockingStep(s, c, act);
    case LockedCheck => LockedCheckStep(s, c);
    case Write(ok) => WriteStep(s, c, ok);
    case _ => WaitingStep(s, c, act);
  }

  // ---------------------------------------------------------------------------------------------
  // Agents
  // ---------------------------------------------------------------------------------------------

  predicate Owing(pc: AgentPc) {
    pc.Owes? || pc.SweepOwes?
  }

  // An agent moves on without gaining or losing a claim.
  lemma AgentMoves(s: State, a: nat, pc: AgentPc)
    requires SettleInv(s) && a < |s.agents| && !Owing(s.agents[a].pc) && !Owing(pc) && DebtInv(a, s.agents[a].(pc := pc), s.calls)
    requires pc.Holding? ==> !Left(s.calls[pc.callee])
    ensures SettleInv(SetAgent(s, a, pc))
  {
    AgentOwn(s.table, s.calls, s.agents, a, pc);
    forall c | 0 <= c < |s.calls| ensures Served(c, s.calls[c], SetAgent(s, a, pc).agents) {
      assert Served(c, s.calls[c], s.agents);
    }
  }

  // Agent a removes the entry of call t and now owes it a value.
  lemma AgentClaims(s: State, a: nat, t: nat, pc: AgentPc)
    requires SettleInv(s) && a < |s.agents| && !Owing(s.agents[a].pc) && t < |s.calls|
    requires Entered(s.calls[t]) && !Departed(t, s.calls[t], s.agents)
    requires s.calls[t].num in s.table && OwesTo(pc, t) && (pc.Owes? ==> s.agents[a].reason == None)
    ensures SettleInv(SetAgent(Remove(s, s.calls[t].num, t, s.calls[t], Loop(a)), a, pc))
  {
    var call' := s.calls[t].(claimed := Some(Loop(a)));
    var calls' := s.calls[t := call'];
    var agents' := s.agents[a := s.agents[a].(pc := pc)];
    OwnEntry(s, t);
    assert ClaimInv(s.calls[t]);
    assert EntriesInv(s.table - {s.calls[t].num}, calls') by { RemovedTable(s.table, s.calls, t, call'); }
    assert ClaimsInv(calls', s.table - {s.calls[t].num}) by { RemovedClaims(s.table, s.calls, t, call'); }
    assert DebtsInv(s.agents, calls') by { ClaimedDebts(s.agents, s.calls, t, call'); }
    assert DebtInv(a, agents'[a], calls');
    assert ServedInv(calls', agents') by { ClaimedServed(s.calls, s.agents, a, t, pc); }
    assert OwnInv(s.table - {s.calls[t].num}, calls', agents') by {
      CallOwn(s, t, call', s.table - {s.calls[t].num});
      AgentOwn(s.table - {s.calls[t].num}, calls', s.agents, a, pc);
    }
    AssembleClaim(s, s.table - {s.calls[t].num}, calls', agents');
  }

  lemma ClaimedServed(calls: seq<Call>, agents: seq<Agent>, a: nat, t: nat, pc: AgentPc)
    requires ServedInv(calls, agents) && a < |agents| && !Owing(agents[a].pc) && OwesTo(pc, t)
    requires t < |calls| && calls[t].inbox == []
    ensures ServedInv(calls[t := calls[t].(claimed := Some(Loop(a)))], agents[a := agents[a].(pc := pc)])
  {
    var calls' := calls[t := calls[t].(claimed := Some(Loop(a)))];
    var agents' := agents[a := agents[a].(pc := pc)];
    forall c | 0 <= c < |calls'| ensures Served(c, calls'[c], agents') {
      assert Served(c, calls[c], agents);
    }
  }

  lemma AssembleClaim(s: State, table': map<nat, nat>, calls': seq<Call>, agents': seq<Agent>)
    requires EntriesInv(table', calls') && ClaimsInv(calls', table') && OwnInv(table', calls', agents')
    requires DebtsInv(agents', calls') && ServedInv(calls', agents')
    ensures SettleInv(s.(table := table', calls := calls', agents := agents'))
  {
  }

  lemma RemovingSettles(s: State, a: nat)
    requires SettleInv(s) && AgentEnabled(s, a, Advance) && (s.agents[a].pc.Holding? || s.agents[a].pc.Take?)
    ensures SettleInv(Advanced(s, a))
  {
    var pc := s.agents[a].pc;
    assert DebtInv(a, s.agents[a], s.calls);
    if pc.key in s.table {
      var t := if pc.Holding? then pc.callee else s.table[pc.key];
      assert InTable(pc.key, s.calls[s.table[pc.key]]) && ClaimInv(s.calls[s.table[pc.key]]);
      AgentClaims(s, a, t, Advanced(s, a).agents[a].pc);
    } else {
      AgentMoves(s, a, Advanced(s, a).agents[a].pc);
    }
  }

  lemma DeliveringSettles(s: State, a: nat)
    requires SettleInv(s) && AgentEnabled(s, a, Advance) && Owing(s.agents[a].pc)
    ensures SettleInv(Advanced(s, a))
  {
    var ag := s.agents[a];
    var t := ag.pc.callee;
    var out := if ag.pc.Owes? then Answered else SweepOutcome(ag);
    var call' := s.calls[t].(inbox := s.calls[t].inbox + [out]);
    var pc' := Advanced(s, a).agents[a].pc;
    assert DebtInv(a, ag, s.calls) && ClaimInv(s.calls[t]);
    assert call'.inbox == [out];
    DeliverEntries(s.table, s.calls, t, call');
    assert DebtsInv(s.agents[a := ag.(pc := pc')], s.calls[t := call']) by { SentDebts(s.agents, s.calls, a, call', pc'); }
    assert ServedInv(s.calls[t := call'], s.agents[a := ag.(pc := pc')]) by { SentServed(s.agents, s.calls, a, call', pc'); }
    assert OwnInv(s.table, s.calls[t := call'], s.agents[a := ag.(pc := pc')]) by {
      CallOwn(s, t, call', s.table);
      AgentOwn(s.table, s.calls[t := call'], s.agents, a, pc');
    }
    AssembleClaim(s, s.table, s.calls[t := call'], s.agents[a := ag.(pc := pc')]);
  }

  lemma SentServed(agents: seq<Agent>, calls: seq<Call>, a: nat, call': Call, pc: AgentPc)
    requires ServedInv(calls, agents) && a < |agents| && Owing(agents[a].pc) && agents[a].pc.callee < |calls|
    requires call' == calls[agents[a].pc.callee].(inbox := call'.inbox) && call'.inbox != []
    requires call'.claimed == Some(Loop(a)) && (agents[a].reason.Some? ==> call'.inbox == [Settled(agents[a].reason.value)])
    ensures ServedInv(calls[agents[a].pc.callee := call'], agents[a := agents[a].(pc := pc)])
  {
    var calls' := calls[agents[a].pc.callee := call'];
    forall c | 0 <= c < |calls'| ensures Served(c, calls'[c], agents[a := agents[a].(pc := pc)]) {
      assert Served(c, calls[c], agents);
    }
  }

  lemma SentDebts(agents: seq<Agent>, calls: seq<Call>, a: nat, call': Call, pc: AgentPc)
    requires DebtsInv(agents, calls) && a < |agents| && Owing(agents[a].pc) && agents[a].pc.callee < |calls|
    requires call' == calls[agents[a].pc.callee].(inbox := call'.inbox) && (pc.Sweeping? || pc.Finished?)
    ensures DebtsInv(agents[a := agents[a].(pc := pc)], calls[agents[a].pc.callee := call'])
  {
    forall b | 0 <= b < |agents| && b != a ensures DebtInv(b, agents[b], calls[agents[a].pc.callee := call']) {
      assert DebtInv(b, agents[b], calls) && DebtInv(a, agents[a], calls);
    }
  }

  // The steps of an agent that touch neither the table nor a result channel.
  predicate CallsUntouched(s: State, a: nat, s': State)
    requires a < |s.agents|
  {
    && s'.calls == s.calls && s'.table == s.table && |s'.agents| == |s.agents|
    && s'.agents == SetAgent(s, a, s'.agents[a].pc).agents
    && !Owing(s'.agents[a].pc) && !s'.agents[a].pc.Holding? && !s'.agents[a].pc.Take?
  }

  lemma MarkingTouchesNoCall(s: State, a: nat)
    requires AgentEnabled(s, a, Advance) && s.agents[a].pc in {Cas, StoreFailed, Record, StartSweep}
    ensures CallsUntouched(s, a, Advanced(s, a))
  {
  }

  lemma SettingTouchesNoCall(s: State, a: nat)
    requires AgentEnabled(s, a, Advance) && (s.agents[a].pc.SetWant? || s.agents[a].pc.SetCheck? || s.agents[a].pc.SetStore?)
    ensures CallsUntouched(s, a, Advanced(s, a))
  {
  }

  lemma WritingTouchesNoCall(s: State, a: nat)
    requires AgentEnabled(s, a, Advance)
    requires !Owing(s.agents[a].pc) && !s.agents[a].pc.Holding? && !s.agents[a].pc.Take?
    ensures CallsUntouched(s, a, Advanced(s, a))
  {
    if s.agents[a].pc in {Cas, StoreFailed, Record, StartSweep} {
      MarkingTouchesNoCall(s, a);
    } else {
      SettingTouchesNoCall(s, a);
    }
  }

  lemma WritingSettles(s: State, a: nat)
    requires SettleInv(s) && AgentEnabled(s, a, Advance)
    requires !Owing(s.agents[a].pc) && !s.agents[a].pc.Holding? && !s.agents[a].pc.Take?
    ensures SettleInv(Advanced(s, a))
  {
    WritingTouchesNoCall(s, a);
    AgentMoves(s, a, Advanced(s, a).agents[a].pc);
  }

  lemma AgentSettles(s: State, a: nat, act: AgentAct)
    requires SettleInv(s) && AgentEnabled(s, a, act)
    ensures SettleInv(AgentApply(s, a, act))
  {
    var pc := s.agents[a].pc;
    if act != Advance {
      if act.Visit? && act.key in s.table {
        assert InTable(act.key, s.calls[s.table[act.key]]) && ClaimInv(s.calls[s.table[act.key]]);
      }
      AgentMoves(s, a, AgentApply(s, a, act).agents[a].pc);
    } else if Owing(pc) {
      DeliveringSettles(s, a);
    } else if pc.Holding? || pc.Take? {
      RemovingSettles(s, a);
    } else {
      WritingSettles(s, a);
    }
  }

  // A call arrives.
  lemma ArrivalSettles(s: State, call: Call)
    requires SettleInv(s) && call == Call(call.pc, 0, false, Off, None, []) && (call.pc == Ready || call.pc == Begin)
    ensures SettleInv(s.(calls := s.calls + [call]))
  {
    var calls' := s.calls + [call];
    forall c | 0 <= c < |calls'| ensures Served(c, calls'[c], s.agents) {
      if c < |s.calls| {
        assert Served(c, s.calls[c], s.agents);
      }
    }
    assert OwnInv(s.table, calls', s.agents) && EntriesInv(s.table, calls');
  }

  // An agent starts.
  lemma AgentArrives(s: State, ag: Agent)
    requires SettleInv(s) && (ag.pc == Cas || ag.pc.SetWant? || ag.pc == StartSweep || (ag.pc.Take? && ag.reason == None))
    ensures SettleInv(s.(agents := s.agents + [ag]))
  {
    var agents' := s.agents + [ag];
    forall c | 0 <= c < |s.calls| ensures Served(c, s.calls[c], agents') {
      assert Served(c, s.calls[c], s.agents);
    }
    forall c | 0 <= c < |s.calls| && Departed(c, s.calls[c], s.agents) ensures Departed(c, s.calls[c], agents') {
    }
    OwnKept(s, s.table, s.calls, agents');
  }

  lemma OutsideSettles(s: State, a: Action)
    requires SettleInv(s) && Enabled(s, a) && !a.ByCall? && !a.ByAgent?
    ensures SettleInv(Apply(s, a))
  {
    match a
    case Arrive(replay) => ArrivalSettles(s, Call(if replay then Ready else Begin, 0, false, Off, None, []));
    case MarkEnded(r) => AgentArrives(s, Agent(Some(r), Cas));
    case SetState(target) => AgentArrives(s, Agent(None, SetWant(target)));
    case LoseConnection => AgentArrives(s, Agent(None, StartSweep));
    case Dispatch(n) => AgentArrives(s, Agent(None, Take(n)));
    case CloseMark =>
  }

  lemma StepSettles(s: State, a: Action, s': State)
    requires SettleInv(s) && Step(s, a, s') && StoresFresh(s, a)
    ensures SettleInv(s')
  {
    match a
    case ByCall(c, act) => CallSettles(s, c, act);
    case ByAgent(g, act) => AgentSettles(s, g, act);
    case _ => OutsideSettles(s, a);
  }

  // ---------------------------------------------------------------------------------------------
  // Numbers
  // ---------------------------------------------------------------------------------------------

  // A call that has yet to draw its number has none.
  predicate Undrawn(calls: seq<Call>) {
    forall c :: 0 <= c < |calls| && ToDraw(calls[c].pc) ==> calls[c].num == 0
  }

  // Numbers, once drawn, stay with their calls.
  predicate NumbersStay(calls: seq<Call>, calls': seq<Call>) {
    && |calls| <= |calls'|
    && forall c :: 0 <= c < |calls| && calls[c].num != 0 ==> calls'[c].num == calls[c].num
  }

  // One call is replaced by one with the same number, or by one that had none.
  lemma OneKeeps(calls: seq<Call>, c: nat, call': Call)
    requires Undrawn(calls) && c < |calls| && (calls[c].num != 0 ==> call'.num == calls[c].num)
    requires ToDraw(call'.pc) ==> call'.num == 0
    ensures Undrawn(calls[c := call']) && NumbersStay(calls, calls[c := call'])
  {
  }

  lemma StepKeepsNumbers(s: State, a: Action, s': State)
    requires Undrawn(s.calls) && Step(s, a, s')
    ensures Undrawn(s'.calls) && NumbersStay(s.calls, s'.calls)
  {
    match a
    case ByCall(c, act) =>
      CallFrames(s, c, act);
      if act != Alloc {
        OneKeeps(s.calls, c, s'.calls[c]);
      }
    case ByAgent(g, act) => AgentFrames(s, g, act);
    case _ =>
  }

  // One number more is a new number, unless it is the forbidden 0.
  lemma NextNumber(bumps: nat)
    requires bumps < SEQ_WIDTH
    ensures Bump(bumps % SEQ_WIDTH) == (bumps + 1) % SEQ_WIDTH
    ensures (bumps + 1) % SEQ_WIDTH == if bumps + 1 == SEQ_WIDTH then 0 else bumps + 1
  {
  }

  // One call gets a new number, or keeps its own.
  lemma NewNumber(calls: seq<Call>, c: nat, call': Call, bumps: nat)
    requires DistinctNumbers(calls) && c < |calls| && (call'.num == bumps + 1 || call'.num == calls[c].num)
    requires forall d :: 0 <= d < |calls| ==> calls[d].num <= bumps
    ensures DistinctNumbers(calls[c := call'])
  {
  }

  lemma AllocCounts(s: State, c: nat)
    requires CounterInv(s) && CallEnabled(s, c, Alloc) && s.bumps < SEQ_WIDTH
    ensures CounterInv(CallApply(s, c, Alloc))
  {
    NextNumber(s.bumps);
    var n := Bump(s.counter);
    if n != 0 {
      NewNumber(s.calls, c, s.calls[c].(pc := Allocated, num := n), s.bumps);
    }
  }

  lemma CallCounts(s: State, c: nat, act: CallAct)
    requires CounterInv(s) && CallEnabled(s, c, act) && act != Alloc
    ensures CounterInv(CallApply(s, c, act))
  {
    CallFrames(s, c, act);
    NewNumber(s.calls, c, CallApply(s, c, act).calls[c], s.bumps);
  }

  lemma StepCounts(s: State, a: Action, s': State)
    requires CounterInv(s) && Step(s, a, s') && s'.bumps <= SEQ_WIDTH
    ensures CounterInv(s')
  {
    match a
    case ByCall(c, act) => if act == Alloc { AllocCounts(s, c); } else { CallCounts(s, c, act); }
    case ByAgent(g, act) => AgentFrames(s, g, act);
    case _ =>
  }
}
