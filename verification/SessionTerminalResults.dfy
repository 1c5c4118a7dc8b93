/** What holds over every run of the terminal protocol. */
module SessionTerminalResults {
  import opened Basics
  import opened SessionTerminal
  import opened SessionTerminalFrames
  import opened SessionTerminalInvariant

  lemma {:induction false} ExecutionInv(states: seq<State>, acts: seq<Action>, i: nat)
    requires Execution(states, acts) && i < |states|
    ensures Inv(states[i])
  {
    if i == 0 {
      InitInv();
    } else {
      ExecutionInv(states, acts, i - 1);
      StepInv(states[i - 1], acts[i - 1], states[i]);
    }
  }

  /** Once the winner's sweep has finished, no call that passed the in-lock check, and so none that wrote its frame, is
      still pending in the in-flight table, then or ever after. */
  lemma SweepLeavesNoWriter(states: seq<State>, acts: seq<Action>, i: nat, key: nat)
    requires Execution(states, acts) && i < |states|
    requires states[i].winner.Some? && states[i].winner.value < |states[i].agents|
    requires states[i].agents[states[i].winner.value].pc == Finished
    requires key in states[i].table
    ensures states[i].table[key] < |states[i].calls| && !states[i].calls[states[i].table[key]].passed
    ensures states[i].table[key] !in states[i].wire
  {
    ExecutionInv(states, acts, i);
  }

  /** The final state, the failed mark and the recorded reason agree with each other and with the reason of the one
      goroutine that won the flag. */
  lemma TerminalStateAgrees(states: seq<State>, acts: seq<Action>, i: nat)
    requires Execution(states, acts) && i < |states|
    ensures var s := states[i];
            && (Final(s.state) ==> s.reason.Some? && s.state == FinalOf(s.reason.value)
                                   && (s.failed <==> !EndsNormally(s.reason.value)))
            && (s.reason.Some? ==> s.flag && s.winner.Some? && s.winner.value < |s.agents|
                                   && s.agents[s.winner.value].reason == s.reason)
            && (s.failed ==> s.flag)
  {
    ExecutionInv(states, acts, i);
  }

  /** After the flag is set at most one more frame reaches the wire. */
  lemma AtMostOneFrameAfterFlag(states: seq<State>, acts: seq<Action>, i: nat, j: nat)
    requires Execution(states, acts) && i <= j < |states| && states[i].flag
    ensures states[i].wire <= states[j].wire && |states[j].wire| <= |states[i].wire| + 1
  {
    ExecutionInv(states, acts, i);
    ExecutionInv(states, acts, j);
    RunsOnlyGrow(states, acts, i, j);
  }

  // What no run ever undoes.
  predicate Later(s: State, s': State) {
    && (s.flag ==> s'.flag && s'.winner == s.winner && s'.wireAtFlag == s.wireAtFlag)
    && (s.reason.Some? ==> s'.reason == s.reason)
    && (s.flag && Final(s.state) ==> s'.state == s.state && s'.failed == s.failed)
    && s.wire <= s'.wire
  }

  lemma StateWriterLater(s: State, a: nat)
    requires TerminalInv(s.flag, s.winner, s.failed, s.reason, s.state, s.agents) && AgentsInv(s.agents, s.winner, s.state)
    requires AgentEnabled(s, a, Advance)
    requires s.agents[a].pc == StoreFailed || s.agents[a].pc == Record || s.agents[a].pc.SetStore?
    ensures Later(s, Advanced(s, a))
  {
    assert Marking(s.agents[a]) || AgentOk(s.agents[a].pc, s.state);
  }

  lemma StepLater(s: State, a: Action, s': State)
    requires Inv(s) && Step(s, a, s')
    ensures Later(s, s')
  {
    match a
    case ByCall(c, act) => CallFrames(s, c, act);
    case ByAgent(g, act) =>
      if act == Advance && WritesState(s.agents[g].pc) {
        StateWriterLater(s, g);
      } else {
        AgentFrames(s, g, act);
      }
    case _ =>
  }

  lemma {:induction false} RunsOnlyGrow(states: seq<State>, acts: seq<Action>, i: nat, j: nat)
    requires Execution(states, acts) && i <= j < |states|
    ensures Later(states[i], states[j])
    decreases j - i
  {
    if i < j {
      RunsOnlyGrow(states, acts, i, j - 1);
      assert Inv(states[j - 1]) by { ExecutionInv(states, acts, j - 1); }
      assert Inv(states[i]) by { ExecutionInv(states, acts, i); }
      StepLater(states[j - 1], acts[j - 1], states[j]);
    }
  }

  /** Ended and Failed are absorbing: whatever Close, a reconnect or a late setState does, the first final state and its
      reason stay. */
  lemma FinalStateIsAbsorbing(states: seq<State>, acts: seq<Action>, i: nat, j: nat)
    requires Execution(states, acts) && i <= j < |states| && Final(states[i].state)
    ensures states[j].state == states[i].state && states[j].reason == states[i].reason && states[j].failed == states[i].failed
  {
    ExecutionInv(states, acts, i);
    RunsOnlyGrow(states, acts, i, j);
  }

  /** A terminal status delivered to a caller names the recorded reason. */
  lemma SettledWithTheReason(states: seq<State>, acts: seq<Action>, i: nat, c: nat, k: nat)
    requires Execution(states, acts) && i < |states| && c < |states[i].calls| && k < |states[i].calls[c].inbox|
    requires states[i].calls[c].inbox[k].Settled?
    ensures states[i].reason == Some(states[i].calls[c].inbox[k].reason)
  {
    ExecutionInv(states, acts, i);
  }

  // A call that arrived after the flag was set.
  predicate Late(s: State, c: nat) {
    && s.flag && c < |s.calls| && !s.calls[c].passed
    && s.calls[c].pc in {Begin, Ready, Allocated, Stored, Leaving(LocallyEnded), Returned(LocallyEnded)}
  }

  // The late call's own steps lead to the refusal; a timer does not move it on.
  lemma LateOwnStep(s: State, c: nat, act: CallAct)
    requires CallEnabled(s, c, act) && Late(s, c) && !act.TimerFires? && !act.TimerClaims? && !act.TimerSends?
    ensures Late(CallApply(s, c, act), c)
  {
  }

  lemma LateTimerStep(s: State, c: nat, act: CallAct)
    requires CallEnabled(s, c, act) && Late(s, c) && (act.TimerFires? || act.TimerClaims? || act.TimerSends?)
    ensures Late(CallApply(s, c, act), c)
  {
  }

  lemma LateCallStep(s: State, b: nat, act: CallAct, c: nat)
    requires CallEnabled(s, b, act) && Late(s, c)
    ensures Late(CallApply(s, b, act), c)
  {
    if b != c {
      CallFrames(s, b, act);
    } else if act.TimerFires? || act.TimerClaims? || act.TimerSends? {
      LateTimerStep(s, c, act);
    } else {
      LateOwnStep(s, c, act);
    }
  }

  lemma LateAgentStep(s: State, a: nat, act: AgentAct, c: nat)
    requires AgentEnabled(s, a, act) && Late(s, c)
    ensures Late(AgentApply(s, a, act), c)
  {
    AgentFrames(s, a, act);
  }

  lemma LateStep(s: State, a: Action, s': State, c: nat)
    requires Step(s, a, s') && Late(s, c)
    ensures Late(s', c)
  {
    match a
    case ByCall(b, act) => LateCallStep(s, b, act, c);
    case ByAgent(g, act) => LateAgentStep(s, g, act, c);
    case _ =>
  }

  lemma {:induction false} StaysLate(states: seq<State>, acts: seq<Action>, i: nat, j: nat, c: nat)
    requires Execution(states, acts) && i <= j < |states| && Late(states[i], c)
    ensures Late(states[j], c)
    decreases j - i
  {
    if i < j {
      StaysLate(states, acts, i, j - 1, c);
      assert Step(states[j - 1], acts[j - 1], states[j]);
      LateStep(states[j - 1], acts[j - 1], states[j], c);
    }
  }

  /** A request made after the flag is set never reaches the wire, and if it returns, it returns the local refusal. */
  lemma LateCallsAreRefused(states: seq<State>, acts: seq<Action>, i: nat, j: nat)
    requires Execution(states, acts) && i < |acts| && i < j < |states| && states[i].flag && acts[i].Arrive?
    ensures var c := |states[i].calls|;
            && c < |states[j].calls| && c !in states[j].wire
            && (states[j].calls[c].pc.Returned? ==> states[j].calls[c].pc.out == LocallyEnded)
  {
    var c := |states[i].calls|;
    assert Late(states[i + 1], c);
    StaysLate(states, acts, i + 1, j, c);
    ExecutionInv(states, acts, j);
  }
}
