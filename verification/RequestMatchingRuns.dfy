/**
 Runs of the request-matching machine that break its promises: with one bump of the counter more than 2^32 a number is drawn
 a second time within one generation; and whenever a call stores its entry under the key of one that is still about, the run
 can go on so that it is forgotten.
 */
module RequestMatchingRuns {
  import opened Basics
  import opened SequenceNumbers
  import opened RequestMatching
  import Results = RequestMatchingResults

  lemma Extend(states: seq<State>, acts: seq<Action>, a: Action) returns (states': seq<State>, acts': seq<Action>)
    requires Execution(states, acts) && Enabled(states[|acts|], a)
    ensures states' == states + [Apply(states[|acts|], a)] && acts' == acts + [a]
    ensures Execution(states', acts')
  {
    states', acts' := states + [Apply(states[|acts|], a)], acts + [a];
    forall i | 0 <= i < |acts'| ensures Step(states'[i], acts'[i], states'[i + 1]) {
      if i < |acts| {
        assert Step(states[i], acts[i], states[i + 1]);
      }
    }
  }

  // ---------------------------------------------------------------------------------------------
  // After 2^32 bumps, with a peer that answers only what it was sent
  // ---------------------------------------------------------------------------------------------

  ghost predicate Reachable(s: State) {
    exists states, acts :: Execution(states, acts) && HonestPeer(states, acts, |acts|) && states[|acts|] == s
  }

  lemma Start()
    ensures Reachable(Init())
  {
    assert Execution([Init()], []) && HonestPeer([Init()], [], 0);
  }

  lemma Go(s: State, a: Action) returns (s': State)
    requires Reachable(s) && Enabled(s, a) && Honest(s, a)
    ensures Reachable(s') && s' == Apply(s, a)
  {
    var states, acts :| Execution(states, acts) && HonestPeer(states, acts, |acts|) && states[|acts|] == s;
    s' := Apply(s, a);
    var states', acts' := Extend(states, acts, a);
    assert HonestPeer(states', acts', |acts'|) by {
      forall k | 0 <= k < |acts'| ensures Honest(states'[k], acts'[k]) {
        if k < |acts| {
          assert Honest(states[k], acts[k]);
        }
      }
    }
    assert states'[|acts'|] == s';
  }

  const KEY := Key(1, 1)
  const FRAME := Sent(KEY, 0)

  // Numbers 1 to n are drawn, nobody is at work; the first call wrote a frame under number 1 and stands as given.
  predicate Idle(s: State, n: nat, first: Call, table: map<Key, nat>) {
    && s.adds == n && s.counter == n % SEQ_WIDTH && s.epoch == 1 && !s.closed
    && s.table == table && s.agents == [Agent(1, Reading)] && s.wire == {FRAME}
    && |s.calls| > 0 && s.calls[0] == first
  }

  // A call that wrote its frame and waits.
  const WAITING := Call(Waiting, 1, 1, true, true, false, Armed, None, [])

  lemma FirstCallWaits() returns (s: State)
    ensures Reachable(s) && Idle(s, 1, WAITING, map[KEY := 0])
  {
    s := Init();
    Start();
    s := Go(s, Arrive);
    s := Go(s, ByCall(0, Snapshot));
    s := Go(s, ByCall(0, Alloc));
    s := Go(s, ByCall(0, Store));
    s := Go(s, ByCall(0, Write(true)));
  }

  // A call draws the next number.
  lemma DrawOne(s0: State, n: nat) returns (s: State)
    requires Reachable(s0) && s0.counter == n % SEQ_WIDTH && s0.epoch == 1 && !s0.closed && n + 1 < SEQ_WIDTH
    ensures Reachable(s) && s == s0.(counter := n + 1, adds := s0.adds + 1, calls := s.calls)
    ensures s.calls == s0.calls + [Call(Allocated, 1, n + 1, false, false, false, Off, None, [])]
  {
    var c := |s0.calls|;
    s := Go(s0, Arrive);
    s := Go(s, ByCall(c, Snapshot));
    s := Go(s, ByCall(c, Alloc));
  }

  // A call whose write fails uses up one number.
  lemma BurnOne(s: State, n: nat, first: Call, table: map<Key, nat>) returns (s': State)
    requires Reachable(s) && Idle(s, n, first, table) && n + 1 < SEQ_WIDTH && Key(1, n + 1) !in table
    ensures Reachable(s') && Idle(s', n + 1, first, table)
  {
    var c := |s.calls|;
    s' := DrawOne(s, n);
    s' := Go(s', ByCall(c, Store));
    s' := Go(s', ByCall(c, Write(false)));
    s' := Go(s', ByCall(c, Leave));
    assert s'.table == table;
  }

  lemma {:induction false} Burn(s: State, n: nat, m: nat, first: Call, table: map<Key, nat>) returns (s': State)
    requires Reachable(s) && Idle(s, n, first, table) && 1 <= n <= m < SEQ_WIDTH && table.Keys <= {KEY}
    ensures Reachable(s') && Idle(s', m, first, table)
    decreases m - n
  {
    s' := s;
    if n < m {
      s' := BurnOne(s, n, first, table);
      s' := Burn(s', n + 1, m, first, table);
    }
  }

  // With all numbers used up, the next call draws 0, then 1 again, and stores its entry under the first call's key.
  lemma NumberComesRound(s0: State, first: Call, table: map<Key, nat>) returns (s: State, c: nat)
    requires Reachable(s0) && Idle(s0, SEQ_WIDTH - 1, first, table)
    ensures Reachable(s) && c == |s0.calls| && s.adds == SEQ_WIDTH + 1 && s.epoch == 1 && !s.closed
    ensures s.table == table[KEY := c] && s.agents == s0.agents && s.wire == s0.wire
    ensures s.calls == s0.calls + [Call(Registered, 1, 1, true, false, false, Off, None, [])]
  {
    c := |s0.calls|;
    s := Go(s0, Arrive);
    s := Go(s, ByCall(c, Snapshot));
    s := Go(s, ByCall(c, Alloc));
    s := Go(s, ByCall(c, Alloc));
    s := Go(s, ByCall(c, Store));
  }

  lemma FirstCallCancelled() returns (s: State, first: Call)
    ensures Reachable(s) && Idle(s, 1, first, map[])
  {
    s := FirstCallWaits();
    s := Go(s, ByCall(0, CtxEnds));
    s := Go(s, ByCall(0, CtxClaims));
    assert s.table == map[];
    first := s.calls[0];
  }

  // The first call's late answer is read and delivered to whoever holds its key.
  lemma LateAnswer(s0: State, c: nat) returns (s: State)
    requires Reachable(s0) && s0.agents == [Agent(1, Reading)] && FRAME in s0.wire && s0.epoch == 1
    requires s0.table == map[KEY := c] && c < |s0.calls| && s0.calls[c].inbox == []
    ensures Reachable(s) && s.adds == s0.adds && |s.calls| == |s0.calls| && s.calls[c].inbox == [Reply(0, 7)]
  {
    s := Go(s0, ByAgent(0, Frame(FRAME, 7)));
    s := Go(s, ByAgent(0, LoadEpoch));
    s := Go(s, ByAgent(0, AgentAct.Claim));
    s := Go(s, ByAgent(0, Send));
  }

  /** A reply reaches a stranger: the first call is cancelled, its late answer is delivered to the call that draws its number
      again. */
  lemma AfterWrapReplyReachesStranger() returns (s: State, c: nat)
    ensures Reachable(s) && s.adds == SEQ_WIDTH + 1 && c < |s.calls| && c != 0
    ensures s.calls[c].inbox == [Reply(0, 7)]
  {
    var first;
    s, first := FirstCallCancelled();
    s := Burn(s, 1, SEQ_WIDTH - 1, first, map[]);
    s, c := NumberComesRound(s, first, map[]);
    s := LateAnswer(s, c);
  }

  // The first call's timer has fired when its answer arrives; it has yet to look at the table.
  lemma FirstCallAnswered() returns (s: State, first: Call)
    ensures Reachable(s) && Idle(s, 1, first, map[])
    ensures first == WAITING.(timer := Fired, claimed := Some(Loop(0)), inbox := [Reply(0, 7)])
  {
    s := FirstCallWaits();
    s := Go(s, ByCall(0, TimerFires));
    s := Go(s, ByAgent(0, Frame(FRAME, 7)));
    s := Go(s, ByAgent(0, LoadEpoch));
    s := Go(s, ByAgent(0, AgentAct.Claim));
    assert s.table == map[];
    s := Go(s, ByAgent(0, Send));
    first := s.calls[0];
  }

  /** A sender blocks: the first call's slow timer takes the entry of the call that draws its number again for its own, and
      sends a second value. */
  lemma AfterWrapTwoResults() returns (s: State)
    ensures Reachable(s) && s.adds == SEQ_WIDTH + 1 && |s.calls| > 0
    ensures s.calls[0].inbox == [Reply(0, 7), TimedOut]
  {
    var first, c;
    s, first := FirstCallAnswered();
    s := Burn(s, 1, SEQ_WIDTH - 1, first, map[]);
    s, c := NumberComesRound(s, first, map[]);
    s := Go(s, ByCall(0, TimerClaims));
    s := Go(s, ByCall(0, TimerSends));
  }

  /** A waiter is forgotten: the call that draws its number again pushes its entry out and leaves, and its timer finds
      nothing to claim. */
  lemma AfterWrapWaiterForgotten() returns (s: State)
    ensures Reachable(s) && s.adds == SEQ_WIDTH + 1 && |s.calls| > 0
    ensures s.calls[0].pc == Waiting && s.calls[0].inbox == [] && s.calls[0].timer == TimerDone
    ensures s.table == map[] && s.agents == [Agent(1, Reading)]
  {
    var c;
    s := FirstCallWaits();
    s := Burn(s, 1, SEQ_WIDTH - 1, WAITING, map[KEY := 0]);
    s, c := NumberComesRound(s, WAITING, map[KEY := 0]);
    s := Go(s, ByCall(c, Write(false)));
    s := Go(s, ByCall(c, Leave));
    assert s.table == map[];
    s := Go(s, ByCall(0, TimerFires));
    s := Go(s, ByCall(0, TimerClaims));
  }

  // ---------------------------------------------------------------------------------------------
  // A key that is still in use
  // ---------------------------------------------------------------------------------------------

  // Some run that begins with these steps ends in s.
  ghost predicate Continues(acts: seq<Action>, s: State) {
    exists states, acts' :: Execution(states, acts') && acts <= acts' && states[|acts'|] == s
  }

  lemma GoOn(acts: seq<Action>, s: State, a: Action) returns (s': State)
    requires Continues(acts, s) && Enabled(s, a)
    ensures Continues(acts, s') && s' == Apply(s, a)
  {
    var states1, acts1 :| Execution(states1, acts1) && acts <= acts1 && states1[|acts1|] == s;
    s' := Apply(s, a);
    var states', acts' := Extend(states1, acts1, a);
    assert states'[|acts'|] == s';
  }

  predicate NobodyOwes(c: nat, agents: seq<Agent>) {
    forall a :: 0 <= a < |agents| ==> !((agents[a].pc.Owes? || agents[a].pc.SweepOwes?) && agents[a].pc.target == c)
  }

  // Call c has its entry in the table and is about to write.
  predicate AboutToWrite(s: State, c: nat) {
    && c < |s.calls| && NobodyOwes(c, s.agents)
    && s.calls[c].pc == Registered && s.calls[c].inbox == [] && s.calls[c].timer == Off
  }

  // Call c waits, and nobody will ever serve it.
  predicate Forgotten(s: State, c: nat) {
    && c < |s.calls| && NobodyOwes(c, s.agents)
    && s.calls[c].pc == Waiting && s.calls[c].inbox == [] && s.calls[c].timer == TimerDone
    && KeyOf(s.calls[c]) !in s.table
  }

  // Call c has stored its entry under the key of call d, which may still take it out as its own.
  predicate Shadows(s: State, c: nat, d: nat) {
    && AboutToWrite(s, c) && d < |s.calls| && d != c && KeyOf(s.calls[d]) == KeyOf(s.calls[c])
    && KeyOf(s.calls[c]) in s.table && s.table[KeyOf(s.calls[c])] == c
  }

  // A call that has lost its entry before it wrote waits for nothing.
  lemma LostEntry(acts: seq<Action>, s: State, c: nat) returns (s': State)
    requires Continues(acts, s) && AboutToWrite(s, c) && KeyOf(s.calls[c]) !in s.table
    ensures Continues(acts, s') && Forgotten(s', c)
  {
    s' := GoOn(acts, s, ByCall(c, Write(true)));
    s' := GoOn(acts, s', ByCall(c, TimerFires));
    s' := GoOn(acts, s', ByCall(c, TimerClaims));
  }

  // Call d returns.
  lemma LeavingTakes(acts: seq<Action>, s: State, c: nat, d: nat) returns (s': State)
    requires Continues(acts, s) && Shadows(s, c, d) && s.calls[d].pc.Leaving?
    ensures Continues(acts, s') && AboutToWrite(s', c) && KeyOf(s'.calls[c]) !in s'.table
  {
    s' := GoOn(acts, s, ByCall(d, Leave));
  }

  // Call d, which has not returned, takes the entry out.
  lemma CallTakes(acts: seq<Action>, s: State, c: nat, d: nat) returns (s': State)
    requires Continues(acts, s) && Shadows(s, c, d) && s.calls[d].pc in {Registered, Waiting, Grace}
    ensures Continues(acts, s') && AboutToWrite(s', c) && KeyOf(s'.calls[c]) !in s'.table
  {
    match s.calls[d].pc
    case Registered =>
      s' := GoOn(acts, s, ByCall(d, Write(false)));
      s' := LeavingTakes(acts, s', c, d);
    case Waiting =>
      s' := GoOn(acts, s, ByCall(d, CtxEnds));
      s' := GoOn(acts, s', ByCall(d, CtxClaims));
    case Grace =>
      s' := GoOn(acts, s, ByCall(d, GraceEnds));
      s' := LeavingTakes(acts, s', c, d);
  }

  // The timer of call d takes the entry out.
  lemma TimerTakes(acts: seq<Action>, s: State, c: nat, d: nat) returns (s': State)
    requires Continues(acts, s) && Shadows(s, c, d) && (s.calls[d].timer == Armed || s.calls[d].timer == Fired)
    ensures Continues(acts, s') && AboutToWrite(s', c) && KeyOf(s'.calls[c]) !in s'.table
  {
    s' := s;
    if s.calls[d].timer == Armed {
      s' := GoOn(acts, s', ByCall(d, TimerFires));
    }
    s' := GoOn(acts, s', ByCall(d, TimerClaims));
  }

  // A sweep that found the entry of call d takes out what is there now.
  lemma SweepTakes(acts: seq<Action>, s: State, c: nat, d: nat, a: nat) returns (s': State)
    requires Continues(acts, s) && Shadows(s, c, d) && a < |s.agents|
    requires s.agents[a].pc.Holding? && s.agents[a].pc.target == d && s.agents[a].pc.key == KeyOf(s.calls[c])
    ensures Continues(acts, s') && AboutToWrite(s', c) && KeyOf(s'.calls[c]) !in s'.table
  {
    s' := GoOn(acts, s, ByAgent(a, SweepClaim));
  }

  // Whatever keeps call d about lets it, or the sweep that holds it, take the entry out.
  lemma SomeoneTakes(acts: seq<Action>, s: State, c: nat, d: nat) returns (s': State)
    requires Continues(acts, s) && Shadows(s, c, d) && !Departed(d, s.calls[d], s.agents)
    requires AgentsInv(s.agents, s.calls) && CallInv(s.calls[d]) && s.calls[d].stored
    ensures Continues(acts, s') && AboutToWrite(s', c) && KeyOf(s'.calls[c]) !in s'.table
  {
    if s.calls[d].timer == Armed || s.calls[d].timer == Fired {
      s' := TimerTakes(acts, s, c, d);
    } else if s.calls[d].pc.Leaving? {
      s' := LeavingTakes(acts, s, c, d);
    } else if !s.calls[d].pc.Returned? {
      s' := CallTakes(acts, s, c, d);
    } else {
      var a :| 0 <= a < |s.agents| && s.agents[a].pc.Holding? && s.agents[a].pc.target == d;
      assert AgentInv(a, s.agents[a], s.calls);
      s' := SweepTakes(acts, s, c, d, a);
    }
  }

  // Storing an entry under the key of call d.
  lemma StoreShadows(s: State, c: nat, d: nat)
    requires Inv(s) && CallEnabled(s, c, Store) && d < |s.calls| && d != c && KeyOf(s.calls[d]) == KeyOf(s.calls[c])
    ensures var s' := CallApply(s, c, Store);
            Shadows(s', c, d) && s'.calls[d] == s.calls[d] && s'.agents == s.agents && AgentsInv(s'.agents, s'.calls)
  {
    assert CallInv(s.calls[c]);
    forall a | 0 <= a < |s.agents|
      ensures !((s.agents[a].pc.Owes? || s.agents[a].pc.SweepOwes?) && s.agents[a].pc.target == c)
      ensures AgentInv(a, s.agents[a], CallApply(s, c, Store).calls)
    {
      assert AgentInv(a, s.agents[a], s.calls);
    }
  }

  /** The condition is exact: as soon as a call stores its entry under the key of one that is still about, the run can go on
      so that this call is forgotten. It waits, it has no entry and no result, its timer is spent and nobody owes it one. */
  lemma StaleKeyForgetsWaiter(states: seq<State>, acts: seq<Action>, c: nat) returns (s': State)
    requires Execution(states, acts) && FreshRun(states, acts, |acts|)
    requires CallEnabled(states[|acts|], c, Store) && !FreshKey(states[|acts|], c)
    ensures Continues(acts + [ByCall(c, Store)], s') && Forgotten(s', c)
  {
    var s, acts1 := states[|acts|], acts + [ByCall(c, Store)];
    assert Inv(s) by { Results.ExecutionInv(states, acts, |acts|); }
    var d :| 0 <= d < |s.calls| && d != c && s.calls[d].stored && KeyOf(s.calls[d]) == KeyOf(s.calls[c])
             && !Departed(d, s.calls[d], s.agents);
    s' := Apply(s, ByCall(c, Store));
    assert Continues(acts1, s') by {
      var states', acts' := Extend(states, acts, ByCall(c, Store));
      assert states'[|acts'|] == s';
    }
    StoreShadows(s, c, d);
    assert CallInv(s.calls[d]);
    s' := SomeoneTakes(acts1, s', c, d);
    s' := LostEntry(acts1, s', c);
  }
}
