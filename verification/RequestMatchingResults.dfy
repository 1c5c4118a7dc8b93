/** What holds over every run of the request-matching machine, and where it stops. */
module RequestMatchingResults {
  import opened SequenceNumbers
  import opened RequestMatching
  import opened RequestMatchingInvariant

  // ---------------------------------------------------------------------------------------------
  // Numbers over a run
  // ---------------------------------------------------------------------------------------------

  lemma {:induction false} ExecutionUndrawn(states: seq<State>, acts: seq<Action>, i: nat)
    requires Execution(states, acts) && i < |states|
    ensures Undrawn(states[i].calls)
  {
    if i > 0 {
      ExecutionUndrawn(states, acts, i - 1);
      StepKeepsKeys(states[i - 1], acts[i - 1], states[i]);
    }
  }

  lemma AddsGrow(s: State, a: Action, s': State)
    requires Step(s, a, s')
    ensures s.adds <= s'.adds
  {
  }

  lemma {:induction false} ExecutionCounts(states: seq<State>, acts: seq<Action>, i: nat)
    requires Execution(states, acts) && i < |states| && states[i].adds <= SEQ_WIDTH
    ensures CounterInv(states[i])
  {
    if i > 0 {
      AddsGrow(states[i - 1], acts[i - 1], states[i]);
      ExecutionCounts(states, acts, i - 1);
      ExecutionUndrawn(states, acts, i - 1);
      StepCounts(states[i - 1], acts[i - 1], states[i]);
    }
  }

  // Numbers stay with their calls over a whole run.
  lemma {:induction false} KeysStayOverRuns(states: seq<State>, acts: seq<Action>, i: nat, j: nat)
    requires Execution(states, acts) && i <= j < |states|
    ensures KeysStay(states[i].calls, states[j].calls)
    decreases j - i
  {
    if i < j {
      assert KeysStay(states[i].calls, states[j - 1].calls) by { KeysStayOverRuns(states, acts, i, j - 1); }
      assert KeysStay(states[j - 1].calls, states[j].calls) by {
        ExecutionUndrawn(states, acts, j - 1);
        StepKeepsKeys(states[j - 1], acts[j - 1], states[j]);
      }
      KeysStayOn(states[i].calls, states[j - 1].calls, states[j].calls);
    }
  }

  lemma KeysStayOn(a: seq<Call>, b: seq<Call>, c: seq<Call>)
    requires KeysStay(a, b) && KeysStay(b, c)
    ensures KeysStay(a, c)
  {
    forall k | 0 <= k < |a| && a[k].num != 0 ensures KeyOf(c[k]) == KeyOf(a[k]) {
      assert KeyOf(b[k]) == KeyOf(a[k]);
    }
  }

  // If the numbers are distinct at the end of a run, they were so all along.
  lemma EarlierDistinct(states: seq<State>, acts: seq<Action>, i: nat, j: nat)
    requires Execution(states, acts) && i <= j < |states|
    ensures DistinctKeys(states[j].calls) ==> DistinctKeys(states[i].calls)
    ensures DistinctNumbers(states[j].calls) ==> DistinctNumbers(states[i].calls)
  {
    KeysStayOverRuns(states, acts, i, j);
    DistinctBefore(states[i].calls, states[j].calls);
  }

  lemma KeysBefore(calls: seq<Call>, calls': seq<Call>)
    requires KeysStay(calls, calls') && DistinctKeys(calls')
    ensures DistinctKeys(calls)
  {
    forall c, d | 0 <= c < d < |calls| && calls[c].num != 0 ensures KeyOf(calls[c]) != KeyOf(calls[d]) {
      if calls[d].num != 0 {
        assert KeyOf(calls'[c]) != KeyOf(calls'[d]);
      }
    }
  }

  lemma NumbersBefore(calls: seq<Call>, calls': seq<Call>)
    requires KeysStay(calls, calls') && DistinctNumbers(calls')
    ensures DistinctNumbers(calls)
  {
    forall c, d | 0 <= c < d < |calls| && calls[c].num != 0 ensures calls[c].num != calls[d].num {
      if calls[d].num != 0 {
        assert KeyOf(calls'[c]) == KeyOf(calls[c]) && KeyOf(calls'[d]) == KeyOf(calls[d]);
        assert calls'[c].num != calls'[d].num;
      }
    }
  }

  lemma DistinctBefore(calls: seq<Call>, calls': seq<Call>)
    requires KeysStay(calls, calls')
    ensures DistinctKeys(calls') ==> DistinctKeys(calls)
    ensures DistinctNumbers(calls') ==> DistinctNumbers(calls)
  {
    if DistinctKeys(calls') {
      KeysBefore(calls, calls');
    }
    if DistinctNumbers(calls') {
      NumbersBefore(calls, calls');
    }
  }

  // ---------------------------------------------------------------------------------------------
  // The invariant over a run
  // ---------------------------------------------------------------------------------------------

  lemma {:induction false} ExecutionInv(states: seq<State>, acts: seq<Action>, i: nat)
    requires Execution(states, acts) && i < |states| && FreshRun(states, acts, i)
    ensures Inv(states[i])
  {
    if i == 0 {
      InitInv();
    } else {
      ExecutionInv(states, acts, i - 1);
      StepInv(states[i - 1], acts[i - 1], states[i]);
    }
  }

  lemma DistinctIsFresh(s: State, a: Action)
    requires Inv(s) && Enabled(s, a) && DistinctKeys(s.calls)
    ensures StoresFresh(s, a)
  {
    if a.ByCall? && a.call.Store? {
      assert CallInv(s.calls[a.c]);
    }
  }

  /** As long as no two calls of one generation drew the same number, no call stores its entry under another's key. */
  lemma {:induction false} DistinctKeysAreFresh(states: seq<State>, acts: seq<Action>, i: nat)
    requires Execution(states, acts) && i < |states| && DistinctKeys(states[i].calls)
    ensures FreshRun(states, acts, i)
  {
    if i > 0 {
      EarlierDistinct(states, acts, i - 1, i);
      DistinctKeysAreFresh(states, acts, i - 1);
      ExecutionInv(states, acts, i - 1);
      DistinctIsFresh(states[i - 1], acts[i - 1]);
    }
  }

  lemma NumbersAreKeys(calls: seq<Call>)
    requires DistinctNumbers(calls)
    ensures DistinctKeys(calls)
  {
  }

  /** As long as the counter was bumped at most 2^32 times, no two calls share a number, and every key is fresh. */
  lemma BoundKeepsNumbersDistinct(states: seq<State>, acts: seq<Action>, i: nat)
    requires Execution(states, acts) && i < |states| && states[i].adds <= SEQ_WIDTH
    ensures DistinctNumbers(states[i].calls) && DistinctKeys(states[i].calls) && FreshRun(states, acts, i)
  {
    ExecutionCounts(states, acts, i);
    NumbersAreKeys(states[i].calls);
    DistinctKeysAreFresh(states, acts, i);
  }

  lemma {:induction false} ExecutionReplies(states: seq<State>, acts: seq<Action>, i: nat)
    requires Execution(states, acts) && i < |states| && DistinctNumbers(states[i].calls) && HonestPeer(states, acts, i)
    ensures RepliesInv(states[i])
  {
    if i > 0 {
      EarlierDistinct(states, acts, i - 1, i);
      ExecutionReplies(states, acts, i - 1);
      NumbersAreKeys(states[i - 1].calls);
      DistinctKeysAreFresh(states, acts, i - 1);
      ExecutionInv(states, acts, i - 1);
      StepReplies(states[i - 1], acts[i - 1], states[i]);
    }
  }

  // ---------------------------------------------------------------------------------------------
  // Results
  // ---------------------------------------------------------------------------------------------

  /** Whatever the peer sends, of response, timer, context and disconnect sweep at most one puts a value into a call's result
      channel, as long as no call stored its entry under the key of one that was still about. */
  lemma AtMostOneResult(states: seq<State>, acts: seq<Action>, i: nat, c: nat)
    requires Execution(states, acts) && i < |states| && FreshRun(states, acts, i) && c < |states[i].calls|
    ensures |states[i].calls[c].inbox| <= 1
    ensures states[i].calls[c].inbox != [] ==>
              states[i].calls[c].claimed.Some? && states[i].calls[c].claimed.value !in {Context, Return}
  {
    ExecutionInv(states, acts, i);
    assert CallInv(states[i].calls[c]);
  }

  /** A reply completes only the call whose frame it answers, across any number of generations, as long as the peer answers
      only requests it was sent and no two calls drew the same number. */
  lemma ReplyCompletesItsOwnCall(states: seq<State>, acts: seq<Action>, i: nat, c: nat)
    requires Execution(states, acts) && i < |states| && c < |states[i].calls|
    requires HonestPeer(states, acts, i) && DistinctNumbers(states[i].calls)
    ensures var call := states[i].calls[c];
            && (call.inbox != [] && call.inbox[0].Reply? ==> call.inbox[0].from == c)
            && (call.pc.Returned? && call.pc.out.Reply? ==> call.pc.out.from == c)
  {
    ExecutionReplies(states, acts, i);
    NumbersAreKeys(states[i].calls);
    DistinctKeysAreFresh(states, acts, i);
    ExecutionInv(states, acts, i);
    assert CallInv(states[i].calls[c]);
  }

  /** A waiting call is never forgotten, whatever the peer sends: its result is there, someone who removed its entry still
      owes it one, or the entry is in the table and its timer has yet to claim it; as long as no call stored its entry under
      the key of one that was still about. */
  lemma WaiterIsServed(states: seq<State>, acts: seq<Action>, i: nat, c: nat)
    requires Execution(states, acts) && i < |states| && FreshRun(states, acts, i) && c < |states[i].calls|
    requires states[i].calls[c].pc == Waiting
    ensures var s, call := states[i], states[i].calls[c];
            || call.inbox != []
            || call.timer == TimerOwes
            || (exists a :: 0 <= a < |s.agents| && (s.agents[a].pc.Owes? || s.agents[a].pc.SweepOwes?) && s.agents[a].pc.target == c)
            || (KeyOf(call) in s.table && s.table[KeyOf(call)] == c && call.timer in {Armed, Fired})
  {
    ExecutionInv(states, acts, i);
    var s, call := states[i], states[i].calls[c];
    assert CallInv(call) && StoredInv(c, call, s.table) && CallServed(c, call, s.agents);
    if call.inbox == [] && call.claimed.Some? && call.claimed.value.Loop? {
      var a := call.claimed.value.a;
      assert 0 <= a < |s.agents| && s.agents[a].pc.target == c;
    }
  }
}
