/** A run of the terminal protocol that reaches its bound: one frame does go out after the flag is set. */
module SessionTerminalRuns {
  import opened Basics
  import opened SessionTerminal

  lemma Extend(states: seq<State>, acts: seq<Action>, a: Action) returns (states': seq<State>, acts': seq<Action>)
    requires Execution(states, acts) && Enabled(states[|acts|], a)
    ensures states' == states + [Apply(states[|acts|], a)] && acts' == acts + [a]
    ensures Execution(states', acts')
  {
    states', acts' := states + [Apply(states[|acts|], a)], acts + [a];
    forall i | 0 <= i < |acts'| ensures Step(states'[i], acts'[i], states'[i + 1]) {
      if i < |acts| {
        assert Step(states[i], acts[i], states[i + 1]);
      }
    }
  }

  ghost predicate Reachable(s: State) {
    exists states, acts :: Execution(states, acts) && states[|acts|] == s
  }

  lemma Go(s: State, a: Action) returns (s': State)
    requires Reachable(s) && Enabled(s, a)
    ensures Reachable(s') && s' == Apply(s, a)
  {
    var states, acts :| Execution(states, acts) && states[|acts|] == s;
    s' := Apply(s, a);
    var states', acts' := Extend(states, acts, a);
    assert states'[|acts'|] == s';
  }

  // The session is connected.
  lemma SessionConnects() returns (s: State)
    ensures Reachable(s)
    ensures s == Init().(state := Connected, agents := [Agent(None, Finished)])
  {
    s := Init();
    assert Execution([s], []);
    s := Go(s, SetState(Connected));
    s := Go(s, ByAgent(0, Advance));
    s := Go(s, ByAgent(0, Advance));
    s := Go(s, ByAgent(0, Advance));
  }

  // A request has drawn its number and stored its entry.
  lemma RequestIsStored() returns (s: State)
    ensures Reachable(s)
    ensures s == Init().(state := Connected, agents := [Agent(None, Finished)], counter := 1, bumps := 1, table := map[1 := 0],
                         calls := [Call(Stored, 1, false, Off, None, [])])
  {
    s := SessionConnects();
    s := Go(s, Arrive(false));
    s := Go(s, ByCall(0, CheckFlag));
    s := Go(s, ByCall(0, CheckState));
    s := Go(s, ByCall(0, Alloc));
    s := Go(s, ByCall(0, CallAct.Store));
  }

  // It has passed the in-lock check and is about to write.
  lemma RequestPassesTheCheck() returns (s: State)
    ensures Reachable(s)
    ensures s == Init().(state := Connected, agents := [Agent(None, Finished)], counter := 1, bumps := 1, table := map[1 := 0],
                         writeLock := Some(0), calls := [Call(Writing, 1, true, Off, None, [])])
  {
    s := RequestIsStored();
    s := Go(s, ByCall(0, PreCheck));
    s := Go(s, ByCall(0, Lock));
    s := Go(s, ByCall(0, LockedCheck));
  }

  /** A request already past the in-lock check writes its frame although the battle has ended meanwhile: the one frame the
      bound allows. */
  lemma OneFrameAfterFlag() returns (s: State)
    ensures Reachable(s) && s.flag && s.wireAtFlag == 0 && s.wire == [0]
  {
    s := RequestPassesTheCheck();
    s := Go(s, MarkEnded(BattleEnded));
    s := Go(s, ByAgent(1, Advance));
    s := Go(s, ByCall(0, CallAct.Write(true)));
  }
}
