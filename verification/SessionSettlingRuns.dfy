/**
 Runs of the terminal protocol that leave a call unsettled: with one bump of the counter more than 2^32 a number is drawn
 twice; and whenever a call stores its entry under the number of one that is still about, while the battle goes on, the run
 can go on so that it is forgotten.
 */
module SessionSettlingRuns {
  import opened Basics
  import opened SequenceNumbers
  import opened SessionTerminal
  import opened SessionTerminalRuns
  import Terminal = SessionTerminalResults
  import Settling = SessionSettlingResults

  // Numbers 1 to n are drawn, nobody is at work; the first call wrote its frame under number 1 and stands as given.
  predicate Idle(s: State, n: nat, first: Call, table: map<nat, nat>, agents: seq<Agent>) {
    && !s.flag && !s.failed && s.reason == None && s.winner == None && s.state == Connected && !s.closed
    && s.genLock == None && s.writeLock == None && s.counter == n && s.bumps == n
    && s.table == table && s.agents == agents && |s.calls| > 0 && s.calls[0] == first
  }

  // A call that wrote its frame and waits.
  const WAITING := Call(Waiting, 1, true, Armed, None, [])

  const DONE := Agent(None, Finished)

  lemma FirstCallWaits() returns (s: State)
    ensures Reachable(s) && Idle(s, 1, WAITING, map[1 := 0], [DONE])
  {
    s := RequestPassesTheCheck();
    s := Go(s, ByCall(0, CallAct.Write(true)));
  }

  // Call c, with its entry stored, fails to write and leaves.
  lemma CallGivesUp(s0: State, c: nat) returns (s: State)
    requires Reachable(s0) && !s0.flag && s0.writeLock == None && c < |s0.calls| && s0.calls[c].pc == Stored
    requires s0.calls[c].num in s0.table
    ensures Reachable(s) && s == s0.(calls := s.calls, table := s0.table - {s0.calls[c].num})
    ensures |s.calls| == |s0.calls| && forall d :: 0 <= d < |s.calls| && d != c ==> s.calls[d] == s0.calls[d]
  {
    s := CallWrites(s0, c);
    s := Go(s, ByCall(c, CallAct.Write(false)));
    s := Go(s, ByCall(c, Leave));
  }

  lemma CallWrites(s0: State, c: nat) returns (s: State)
    requires Reachable(s0) && !s0.flag && s0.writeLock == None && c < |s0.calls| && s0.calls[c].pc == Stored
    ensures Reachable(s) && s == s0.(writeLock := Some(c), calls := s0.calls[c := s0.calls[c].(pc := Writing, passed := true)])
  {
    s := Go(s0, ByCall(c, PreCheck));
    s := Go(s, ByCall(c, Lock));
    s := Go(s, ByCall(c, LockedCheck));
    assert s.calls == s0.calls[c := s0.calls[c].(pc := Writing, passed := true)];
  }

  // A replayed call draws the next number.
  lemma CallAllocates(s0: State, n: nat) returns (s: State)
    requires Reachable(s0) && s0.counter == n && n + 1 < SEQ_WIDTH
    ensures Reachable(s) && s == s0.(counter := n + 1, bumps := s0.bumps + 1, calls := s.calls)
    ensures s.calls == s0.calls + [Call(Allocated, n + 1, false, Off, None, [])]
  {
    s := Go(s0, Arrive(true));
    s := Go(s, ByCall(|s0.calls|, Alloc));
  }

  // It stores its entry.
  lemma CallDraws(s0: State, n: nat) returns (s: State)
    requires Reachable(s0) && s0.counter == n && n + 1 < SEQ_WIDTH
    ensures Reachable(s)
    ensures s == s0.(counter := n + 1, bumps := s0.bumps + 1, table := s0.table[n + 1 := |s0.calls|], calls := s.calls)
    ensures s.calls == s0.calls + [Call(Stored, n + 1, false, Off, None, [])]
  {
    s := CallAllocates(s0, n);
    s := Go(s, ByCall(|s0.calls|, CallAct.Store));
  }

  lemma BurnOne(s: State, n: nat, first: Call, table: map<nat, nat>, agents: seq<Agent>) returns (s': State)
    requires Reachable(s) && Idle(s, n, first, table, agents) && n + 1 < SEQ_WIDTH && n + 1 !in table
    ensures Reachable(s') && Idle(s', n + 1, first, table, agents)
  {
    s' := CallDraws(s, n);
    s' := CallGivesUp(s', |s.calls|);
    assert s'.table == table;
  }

  lemma {:induction false} Burn(s: State, n: nat, m: nat, first: Call, table: map<nat, nat>, agents: seq<Agent>)
      returns (s': State)
    requires Reachable(s) && Idle(s, n, first, table, agents) && 1 <= n <= m < SEQ_WIDTH && table.Keys <= {1}
    ensures Reachable(s') && Idle(s', m, first, table, agents)
    decreases m - n
  {
    s' := s;
    if n < m {
      s' := BurnOne(s, n, first, table, agents);
      s' := Burn(s', n + 1, m, first, table, agents);
    }
  }

  // With all numbers used up, the next call draws 0, then 1 again.
  lemma NumberWraps(s0: State) returns (s: State)
    requires Reachable(s0) && s0.counter == SEQ_WIDTH - 1
    ensures Reachable(s) && s == s0.(counter := 1, bumps := s0.bumps + 2, calls := s.calls)
    ensures s.calls == s0.calls + [Call(Allocated, 1, false, Off, None, [])]
  {
    s := Go(s0, Arrive(true));
    s := Go(s, ByCall(|s0.calls|, Alloc));
    s := Go(s, ByCall(|s0.calls|, Alloc));
  }

  // It stores its entry under the first call's number.
  lemma NumberComesRound(s0: State) returns (s: State)
    requires Reachable(s0) && s0.counter == SEQ_WIDTH - 1
    ensures Reachable(s)
    ensures s == s0.(counter := 1, bumps := s0.bumps + 2, table := s0.table[1 := |s0.calls|], calls := s.calls)
    ensures s.calls == s0.calls + [Call(Stored, 1, false, Off, None, [])]
  {
    s := NumberWraps(s0);
    s := Go(s, ByCall(|s0.calls|, CallAct.Store));
  }

  // The first call's timer has fired and its answer is there, about to be matched.
  lemma AnswerArrives() returns (s: State)
    ensures Reachable(s) && Idle(s, 1, WAITING.(timer := Fired), map[1 := 0], [DONE, Agent(None, Take(1))])
  {
    s := FirstCallWaits();
    s := Go(s, ByCall(0, TimerFires));
    s := Go(s, Dispatch(1));
  }

  // It is answered; its timer has yet to look at the table.
  lemma FirstCallAnswered() returns (s: State, first: Call)
    ensures Reachable(s) && Idle(s, 1, first, map[], [DONE, DONE])
    ensures first == WAITING.(timer := Fired, claimed := Some(Loop(1)), inbox := [Answered])
  {
    s := AnswerArrives();
    s := Go(s, ByAgent(1, Advance));
    assert s.table == map[];
    s := Go(s, ByAgent(1, Advance));
    first := s.calls[0];
  }

  /** A sender blocks: the first call's slow timer takes the entry of the call that draws its number again for its own, and
      sends a second value. */
  lemma AfterWrapTwoResults() returns (s: State)
    ensures Reachable(s) && s.bumps == SEQ_WIDTH + 1 && |s.calls| > 0
    ensures s.calls[0].inbox == [Answered, TimedOut]
  {
    var first;
    s, first := FirstCallAnswered();
    s := Burn(s, 1, SEQ_WIDTH - 1, first, map[], [DONE, DONE]);
    s := NumberComesRound(s);
    s := Go(s, ByCall(0, TimerClaims));
    s := Go(s, ByCall(0, TimerSends));
  }

  // The first call's entry has been pushed out and removed, and its timer is spent.
  lemma FirstCallForgotten() returns (s: State)
    ensures Reachable(s) && s.bumps == SEQ_WIDTH + 1 && s.table == map[] && s.agents == [DONE]
    ensures !s.flag && !s.failed && s.reason == None && s.state == Connected && s.genLock == None && !s.closed
    ensures |s.calls| > 0 && s.calls[0] == WAITING.(timer := TimerDone)
  {
    s := FirstCallWaits();
    s := Burn(s, 1, SEQ_WIDTH - 1, WAITING, map[1 := 0], [DONE]);
    var c := |s.calls|;
    s := NumberComesRound(s);
    s := CallGivesUp(s, c);
    assert s.table == map[];
    s := Go(s, ByCall(0, TimerFires));
    s := Go(s, ByCall(0, TimerClaims));
  }

  // The battle ends, and the winner records it.
  lemma BattleIsRecorded(s0: State) returns (s: State)
    requires Reachable(s0) && s0.agents == [DONE] && !s0.flag
    ensures Reachable(s) && s.calls == s0.calls && s.bumps == s0.bumps && s.table == s0.table && s.genLock == s0.genLock
    ensures s.winner == Some(1) && s.agents == [DONE, Agent(Some(BattleEnded), SetWant(Ended))]
  {
    s := Go(s0, MarkEnded(BattleEnded));
    s := Go(s, ByAgent(1, Advance));
    s := Go(s, ByAgent(1, Advance));
    s := Go(s, ByAgent(1, Advance));
  }

  // It sets the state and is about to sweep.
  lemma BattleEnds(s0: State) returns (s: State)
    requires Reachable(s0) && s0.agents == [DONE] && !s0.flag && s0.genLock == None && s0.table == map[]
    ensures Reachable(s) && s.calls == s0.calls && s.bumps == s0.bumps && s.table == map[]
    ensures s.winner == Some(1) && s.agents == [DONE, Agent(Some(BattleEnded), StartSweep)]
  {
    s := BattleIsRecorded(s0);
    s := Go(s, ByAgent(1, Advance));
    s := Go(s, ByAgent(1, Advance));
    s := Go(s, ByAgent(1, Advance));
  }

  /** A writer is left unsettled: its entry was pushed out by the call that drew its number again, so the sweep, when the
      battle ends, does not find it. */
  lemma AfterWrapWriterUnsettled() returns (s: State)
    ensures Reachable(s) && s.bumps == SEQ_WIDTH + 1 && |s.calls| > 0
    ensures s.winner == Some(1) && s.agents == [DONE, Agent(Some(BattleEnded), Finished)]
    ensures s.calls[0].pc == Waiting && s.calls[0].passed && s.calls[0].inbox == [] && s.calls[0].timer == TimerDone
  {
    s := FirstCallForgotten();
    s := BattleEnds(s);
    s := Go(s, ByAgent(1, Advance));
    s := Go(s, ByAgent(1, EndSweep));
  }

  // ---------------------------------------------------------------------------------------------
  // A number that is still in use
  // ---------------------------------------------------------------------------------------------

  // Some run that begins with these steps ends in s.
  ghost predicate Continues(acts: seq<Action>, s: State) {
    exists states, acts' :: Execution(states, acts') && acts <= acts' && states[|acts'|] == s
  }

  lemma GoOn(acts: seq<Action>, s: State, a: Action) returns (s': State)
    requires Continues(acts, s) && Enabled(s, a)
    ensures Continues(acts, s') && s' == Apply(s, a)
  {
    var states1, acts1 :| Execution(states1, acts1) && acts <= acts1 && states1[|acts1|] == s;
    s' := Apply(s, a);
    var states', acts' := Extend(states1, acts1, a);
    assert states'[|acts'|] == s';
  }

  predicate NobodyOwes(c: nat, agents: seq<Agent>) {
    forall a :: 0 <= a < |agents| ==> !OwesTo(agents[a].pc, c)
  }

  // The battle goes on; call c has stored its entry and is about to ask for the write lock.
  predicate AboutToLock(s: State, c: nat) {
    && c < |s.calls| && NobodyOwes(c, s.agents) && !s.flag
    && s.calls[c].pc == Stored && s.calls[c].inbox == [] && s.calls[c].timer == Off
  }

  // Call c waits, and nobody will ever serve it.
  predicate Forgotten(s: State, c: nat) {
    && c < |s.calls| && NobodyOwes(c, s.agents)
    && s.calls[c].pc == Waiting && s.calls[c].inbox == [] && s.calls[c].timer == TimerDone
    && s.calls[c].num !in s.table
  }

  // Call c has stored its entry under the number of call d, which is still about.
  predicate Shadows(s: State, c: nat, d: nat) {
    && AboutToLock(s, c) && d < |s.calls| && d != c && s.calls[d].num == s.calls[c].num
    && s.calls[c].num in s.table && s.table[s.calls[c].num] == c
    && !BeforeEntry(s.calls[d].pc) && !Departed(d, s.calls[d], s.agents)
    && forall a :: 0 <= a < |s.agents| && s.agents[a].pc.Holding? && s.agents[a].pc.callee == d ==>
         s.agents[a].pc.key == s.calls[c].num
  }

  predicate BeforeEntry(pc: CallPc) {
    pc.Begin? || pc.PastFlag? || pc.Ready? || pc.Allocated?
  }

  // The entry of call c is out of the table, and nobody holds the write lock.
  predicate Lost(s: State, c: nat) {
    AboutToLock(s, c) && s.calls[c].num !in s.table && s.writeLock == None
  }

  // A call gets the write lock and is let through.
  lemma GetsThrough(acts: seq<Action>, s0: State, c: nat) returns (s: State)
    requires Continues(acts, s0) && !s0.flag && s0.writeLock == None && c < |s0.calls|
    requires s0.calls[c].pc == Stored || s0.calls[c].pc == WantLock
    ensures Continues(acts, s)
    ensures s == s0.(writeLock := Some(c), calls := s0.calls[c := s0.calls[c].(pc := Writing, passed := true)])
  {
    s := s0;
    if s.calls[c].pc == Stored {
      s := GoOn(acts, s, ByCall(c, PreCheck));
    }
    s := GoOn(acts, s, ByCall(c, Lock));
    s := GoOn(acts, s, ByCall(c, LockedCheck));
    assert s.calls == s0.calls[c := s0.calls[c].(pc := Writing, passed := true)];
  }

  // A call that has lost its entry before it wrote waits for nothing.
  lemma LostEntry(acts: seq<Action>, s: State, c: nat) returns (s': State)
    requires Continues(acts, s) && Lost(s, c)
    ensures Continues(acts, s') && Forgotten(s', c)
  {
    s' := GetsThrough(acts, s, c);
    s' := GoOn(acts, s', ByCall(c, CallAct.Write(true)));
    s' := GoOn(acts, s', ByCall(c, TimerFires));
    s' := GoOn(acts, s', ByCall(c, TimerClaims));
  }

  // Whoever holds the write lock is let through.
  lemma HolderPasses(acts: seq<Action>, s: State, c: nat, d: nat, e: nat) returns (s': State)
    requires Continues(acts, s) && Shadows(s, c, d) && e < |s.calls| && s.calls[e].pc == HoldsLock
    requires WriteLockInv(s.writeLock, s.calls)
    ensures Continues(acts, s') && Shadows(s', c, d) && s'.writeLock == s.writeLock
    ensures WriteLockInv(s'.writeLock, s'.calls) && |s'.calls| == |s.calls| && s'.calls[e].pc == Writing
  {
    s' := GoOn(acts, s, ByCall(e, LockedCheck));
  }

  // It fails to write and lets go of the lock.
  lemma HolderFails(acts: seq<Action>, s: State, c: nat, d: nat, e: nat) returns (s': State)
    requires Continues(acts, s) && Shadows(s, c, d) && e < |s.calls| && s.calls[e].pc == Writing
    requires WriteLockInv(s.writeLock, s.calls)
    ensures Continues(acts, s') && Shadows(s', c, d) && s'.writeLock == None && !HoldsWrite(s'.calls[d].pc)
  {
    s' := GoOn(acts, s, ByCall(e, CallAct.Write(false)));
  }

  lemma LockIsReleased(acts: seq<Action>, s: State, c: nat, d: nat) returns (s': State)
    requires Continues(acts, s) && Shadows(s, c, d) && WriteLockInv(s.writeLock, s.calls)
    ensures Continues(acts, s') && Shadows(s', c, d) && s'.writeLock == None && !HoldsWrite(s'.calls[d].pc)
  {
    s' := s;
    if s.writeLock.Some? {
      var e := s.writeLock.value;
      assert HoldsWrite(s.calls[e].pc);
      if s.calls[e].pc.HoldsLock? {
        s' := HolderPasses(acts, s', c, d, e);
      }
      s' := HolderFails(acts, s', c, d, e);
    }
  }

  // Call d returns.
  lemma LeavingTakes(acts: seq<Action>, s: State, c: nat, d: nat) returns (s': State)
    requires Continues(acts, s) && Shadows(s, c, d) && s.calls[d].pc.Leaving? && s.writeLock == None
    ensures Continues(acts, s') && Lost(s', c)
  {
    s' := GoOn(acts, s, ByCall(d, Leave));
  }

  // Call d fails to write, and returns.
  lemma WriterTakes(acts: seq<Action>, s: State, c: nat, d: nat) returns (s': State)
    requires Continues(acts, s) && Shadows(s, c, d) && s.writeLock == None
    requires s.calls[d].pc == Stored || s.calls[d].pc == WantLock
    ensures Continues(acts, s') && Lost(s', c)
  {
    s' := GetsThrough(acts, s, d);
    s' := GoOn(acts, s', ByCall(d, CallAct.Write(false)));
    s' := LeavingTakes(acts, s', c, d);
  }

  // Call d, which waits, is cancelled.
  lemma WaiterTakes(acts: seq<Action>, s: State, c: nat, d: nat) returns (s': State)
    requires Continues(acts, s) && Shadows(s, c, d) && s.calls[d].pc == Waiting && s.writeLock == None
    ensures Continues(acts, s') && Lost(s', c)
  {
    s' := GoOn(acts, s, ByCall(d, CtxEnds));
  }

  // Its grace period over, call d returns.
  lemma GraceTakes(acts: seq<Action>, s: State, c: nat, d: nat) returns (s': State)
    requires Continues(acts, s) && Shadows(s, c, d) && s.calls[d].pc == Grace && s.writeLock == None
    ensures Continues(acts, s') && Lost(s', c)
  {
    s' := GoOn(acts, s, ByCall(d, GraceEnds));
    s' := LeavingTakes(acts, s', c, d);
  }

  // The timer of call d takes the entry out.
  lemma TimerTakes(acts: seq<Action>, s: State, c: nat, d: nat) returns (s': State)
    requires Continues(acts, s) && Shadows(s, c, d) && s.writeLock == None
    requires s.calls[d].timer == Armed || s.calls[d].timer == Fired
    ensures Continues(acts, s') && Lost(s', c)
  {
    s' := s;
    if s.calls[d].timer == Armed {
      s' := GoOn(acts, s', ByCall(d, TimerFires));
    }
    s' := GoOn(acts, s', ByCall(d, TimerClaims));
  }

  // A sweep that found the entry of call d takes out what is there now.
  lemma SweepTakes(acts: seq<Action>, s: State, c: nat, d: nat, a: nat) returns (s': State)
    requires Continues(acts, s) && Shadows(s, c, d) && a < |s.agents| && s.writeLock == None
    requires s.agents[a].pc.Holding? && s.agents[a].pc.callee == d
    ensures Continues(acts, s') && Lost(s', c)
  {
    s' := GoOn(acts, s, ByAgent(a, Advance));
  }

  // Whatever keeps call d about lets it, or the sweep that holds it, take the entry out.
  lemma SomeoneTakes(acts: seq<Action>, s: State, c: nat, d: nat) returns (s': State)
    requires Continues(acts, s) && Shadows(s, c, d) && s.writeLock == None && !HoldsWrite(s.calls[d].pc)
    ensures Continues(acts, s') && Lost(s', c)
  {
    if s.calls[d].timer == Armed || s.calls[d].timer == Fired {
      s' := TimerTakes(acts, s, c, d);
    } else if s.calls[d].pc.Leaving? {
      s' := LeavingTakes(acts, s, c, d);
    } else if s.calls[d].pc == Waiting {
      s' := WaiterTakes(acts, s, c, d);
    } else if s.calls[d].pc == Grace {
      s' := GraceTakes(acts, s, c, d);
    } else if !s.calls[d].pc.Returned? {
      s' := WriterTakes(acts, s, c, d);
    } else {
      var a :| 0 <= a < |s.agents| && s.agents[a].pc.Holding? && s.agents[a].pc.callee == d;
      s' := SweepTakes(acts, s, c, d, a);
    }
  }

  // Storing an entry under the number of call d.
  lemma StoreShadows(s: State, c: nat, d: nat)
    requires SettleInv(s) && Inv(s) && CallEnabled(s, c, CallAct.Store) && !s.flag
    requires d < |s.calls| && d != c && s.calls[d].num == s.calls[c].num && Entered(s.calls[d])
    requires !Departed(d, s.calls[d], s.agents)
    ensures var s' := CallApply(s, c, CallAct.Store); Shadows(s', c, d) && WriteLockInv(s'.writeLock, s'.calls)
  {
    assert ClaimInv(s.calls[c]) && ClaimInv(s.calls[d]);
    forall a | 0 <= a < |s.agents|
      ensures !OwesTo(s.agents[a].pc, c)
      ensures s.agents[a].pc.Holding? && s.agents[a].pc.callee == d ==> s.agents[a].pc.key == s.calls[d].num
    {
      assert DebtInv(a, s.agents[a], s.calls);
    }
  }

  /** The condition is exact while the battle goes on: as soon as a call stores its entry under the number of one that is still
      about, the run can go on so that this call is forgotten. It waits, it has no entry and no result, its timer is spent and
      nobody owes it one. */
  lemma StaleNumberForgetsWaiter(states: seq<State>, acts: seq<Action>, c: nat) returns (s': State)
    requires Execution(states, acts) && FreshRun(states, acts, |acts|) && !states[|acts|].flag
    requires CallEnabled(states[|acts|], c, CallAct.Store) && !FreshNumber(states[|acts|], c)
    ensures Continues(acts + [ByCall(c, CallAct.Store)], s') && Forgotten(s', c)
  {
    var s, acts1 := states[|acts|], acts + [ByCall(c, CallAct.Store)];
    assert SettleInv(s) by { Settling.ExecutionSettles(states, acts, |acts|); }
    assert Inv(s) by { Terminal.ExecutionInv(states, acts, |acts|); }
    var d :| 0 <= d < |s.calls| && d != c && Entered(s.calls[d]) && s.calls[d].num == s.calls[c].num
             && !Departed(d, s.calls[d], s.agents);
    s' := Apply(s, ByCall(c, CallAct.Store));
    assert Continues(acts1, s') by {
      var states', acts' := Extend(states, acts, ByCall(c, CallAct.Store));
      assert states'[|acts'|] == s';
    }
    StoreShadows(s, c, d);
    s' := LockIsReleased(acts1, s', c, d);
    s' := SomeoneTakes(acts1, s', c, d);
    s' := LostEntry(acts1, s', c);
  }
}
