/** What every run of the terminal protocol owes its callers, while no call stores its entry under the number of one still about. */
module SessionSettlingResults {
  import opened Basics
  import opened SequenceNumbers
  import opened SessionTerminal
  import opened SessionTerminalFrames
  import opened SessionSettlingInvariant
  import Terminal = SessionTerminalResults

  // ---------------------------------------------------------------------------------------------
  // Numbers over a run
  // ---------------------------------------------------------------------------------------------

  lemma {:induction false} ExecutionUndrawn(states: seq<State>, acts: seq<Action>, i: nat)
    requires Execution(states, acts) && i < |states|
    ensures Undrawn(states[i].calls)
  {
    if i > 0 {
      ExecutionUndrawn(states, acts, i - 1);
      StepKeepsNumbers(states[i - 1], acts[i - 1], states[i]);
    }
  }

  lemma StepBumps(s: State, a: Action, s': State)
    requires Step(s, a, s')
    ensures s.bumps <= s'.bumps
  {
    match a
    case ByCall(c, act) => CallFrames(s, c, act);
    case ByAgent(g, act) => AgentFrames(s, g, act);
    case _ =>
  }

  lemma {:induction false} ExecutionCounts(states: seq<State>, acts: seq<Action>, i: nat)
    requires Execution(states, acts) && i < |states| && states[i].bumps <= SEQ_WIDTH
    ensures CounterInv(states[i])
  {
    if i > 0 {
      StepBumps(states[i - 1], acts[i - 1], states[i]);
      ExecutionCounts(states, acts, i - 1);
      StepCounts(states[i - 1], acts[i - 1], states[i]);
    }
  }

  lemma DistinctBefore(calls: seq<Call>, calls': seq<Call>)
    requires NumbersStay(calls, calls') && DistinctNumbers(calls')
    ensures DistinctNumbers(calls)
  {
    forall c, d | 0 <= c < d < |calls| && calls[c].num != 0 ensures calls[c].num != calls[d].num {
      if calls[d].num != 0 {
        assert calls'[c].num != calls'[d].num;
      }
    }
  }

  // If the numbers are distinct at the end of a run, they were so all along.
  lemma EarlierDistinct(states: seq<State>, acts: seq<Action>, i: nat)
    requires Execution(states, acts) && 0 < i < |states| && DistinctNumbers(states[i].calls)
    ensures DistinctNumbers(states[i - 1].calls)
  {
    ExecutionUndrawn(states, acts, i - 1);
    StepKeepsNumbers(states[i - 1], acts[i - 1], states[i]);
    DistinctBefore(states[i - 1].calls, states[i].calls);
  }

  // ---------------------------------------------------------------------------------------------
  // The invariant over a run
  // ---------------------------------------------------------------------------------------------

  lemma {:induction false} ExecutionSettles(states: seq<State>, acts: seq<Action>, i: nat)
    requires Execution(states, acts) && i < |states| && FreshRun(states, acts, i)
    ensures SettleInv(states[i])
  {
    if i == 0 {
      InitSettle();
    } else {
      ExecutionSettles(states, acts, i - 1);
      StepSettles(states[i - 1], acts[i - 1], states[i]);
    }
  }

  lemma DistinctIsFresh(s: State, a: Action)
    requires SettleInv(s) && Enabled(s, a) && DistinctNumbers(s.calls)
    ensures StoresFresh(s, a)
  {
    if a.ByCall? && a.call.Store? {
      assert ClaimInv(s.calls[a.c]);
    }
  }

  /** As long as no two calls drew the same number, no call stores its entry under another's. */
  lemma {:induction false} DistinctNumbersAreFresh(states: seq<State>, acts: seq<Action>, i: nat)
    requires Execution(states, acts) && i < |states| && DistinctNumbers(states[i].calls)
    ensures FreshRun(states, acts, i)
  {
    if i > 0 {
      EarlierDistinct(states, acts, i);
      DistinctNumbersAreFresh(states, acts, i - 1);
      ExecutionSettles(states, acts, i - 1);
      DistinctIsFresh(states[i - 1], acts[i - 1]);
    }
  }

  /** As long as the counter was bumped at most 2^32 times, no two calls share a number, and every number is fresh. */
  lemma BoundKeepsNumbersDistinct(states: seq<State>, acts: seq<Action>, i: nat)
    requires Execution(states, acts) && i < |states| && states[i].bumps <= SEQ_WIDTH
    ensures DistinctNumbers(states[i].calls) && FreshRun(states, acts, i)
  {
    ExecutionCounts(states, acts, i);
    DistinctNumbersAreFresh(states, acts, i);
  }

  // ---------------------------------------------------------------------------------------------
  // Results
  // ---------------------------------------------------------------------------------------------

  /** In every race of answer, timer, context, lost connection and terminal sweep at most one value reaches a call's result
      channel, sent by whoever removed the call's entry. */
  lemma AtMostOneResult(states: seq<State>, acts: seq<Action>, i: nat, c: nat)
    requires Execution(states, acts) && i < |states| && FreshRun(states, acts, i) && c < |states[i].calls|
    ensures |states[i].calls[c].inbox| <= 1
    ensures states[i].calls[c].inbox != [] ==>
              states[i].calls[c].claimed.Some? && states[i].calls[c].claimed.value !in {Context, Return}
  {
    ExecutionSettles(states, acts, i);
    assert ClaimInv(states[i].calls[c]);
  }

  // Call c has its result, or is owed one by its timer or an agent that has removed its entry.
  ghost predicate Heard(s: State, c: nat)
    requires c < |s.calls|
  {
    || s.calls[c].inbox != []
    || s.calls[c].timer == TimerOwes
    || exists a :: 0 <= a < |s.agents| && OwesTo(s.agents[a].pc, c)
  }

  lemma ClaimedIsHeard(s: State, c: nat)
    requires SettleInv(s) && c < |s.calls| && s.calls[c].claimed.Some? && s.calls[c].claimed.value !in {Context, Return}
    ensures Heard(s, c)
  {
    assert ClaimInv(s.calls[c]) && Served(c, s.calls[c], s.agents);
    if s.calls[c].claimed.value.Loop? && s.calls[c].inbox == [] {
      assert OwesTo(s.agents[s.calls[c].claimed.value.a].pc, c);
    }
  }

  /** Once the winner's sweep has finished, every call that passed the in-lock check and has not left has its result or is
      owed it by whoever removed its entry: nobody waits for an answer or a timeout any more. */
  lemma SweepSettlesEveryWriter(states: seq<State>, acts: seq<Action>, i: nat, c: nat)
    requires Execution(states, acts) && i < |states| && FreshRun(states, acts, i)
    requires states[i].winner.Some? && states[i].winner.value < |states[i].agents|
    requires states[i].agents[states[i].winner.value].pc == Finished
    requires c < |states[i].calls| && states[i].calls[c].passed && states[i].calls[c].pc in {Writing, Waiting, Grace}
    ensures Heard(states[i], c)
  {
    var s, call := states[i], states[i].calls[c];
    ExecutionSettles(states, acts, i);
    assert ClaimInv(call) && StoredInv(c, call, s.table);
    if call.claimed == None {
      Terminal.SweepLeavesNoWriter(states, acts, i, call.num);
      assert false;
    }
    ClaimedIsHeard(s, c);
  }

  /** What the winner takes out of the table it settles with the recorded reason, and with nothing else; when it has
      finished, it owes nobody. */
  lemma WinnerDeliversTheReason(states: seq<State>, acts: seq<Action>, i: nat, c: nat)
    requires Execution(states, acts) && i < |states| && FreshRun(states, acts, i) && c < |states[i].calls|
    requires states[i].winner.Some? && states[i].calls[c].claimed == Some(Loop(states[i].winner.value))
    requires states[i].winner.value < |states[i].agents| && states[i].agents[states[i].winner.value].pc == Finished
    ensures states[i].reason.Some? && states[i].calls[c].inbox == [Settled(states[i].reason.value)]
  {
    var s := states[i];
    ExecutionSettles(states, acts, i);
    Terminal.ExecutionInv(states, acts, i);
    assert Served(c, s.calls[c], s.agents);
  }

  /** Before and besides any sweep a waiting call is never forgotten: it has its result or is owed it, or its entry is in the
      table with its timer running. */
  lemma WaiterIsServed(states: seq<State>, acts: seq<Action>, i: nat, c: nat)
    requires Execution(states, acts) && i < |states| && FreshRun(states, acts, i) && c < |states[i].calls|
    requires states[i].calls[c].pc == Waiting
    ensures var s, call := states[i], states[i].calls[c];
            || Heard(s, c)
            || (call.num in s.table && s.table[call.num] == c && call.timer in {Armed, Fired})
  {
    var s := states[i];
    ExecutionSettles(states, acts, i);
    assert ClaimInv(s.calls[c]) && StoredInv(c, s.calls[c], s.table);
    if s.calls[c].claimed.Some? {
      ClaimedIsHeard(s, c);
    }
  }
}
