/** Every step of the request-matching machine keeps its invariant, a store under the key of a call still about excepted. */
module RequestMatchingInvariant {
  import opened Basics
  import opened SequenceNumbers
  import opened RequestMatching

  lemma InitInv()
    ensures Inv(Init())
  {
  }

  // ---------------------------------------------------------------------------------------------
  // Whose entry is under a key
  // ---------------------------------------------------------------------------------------------

  // No entry is put in, no call stores one, and whoever has departed stays so.
  lemma OwnKept(s: State, table': map<Key, nat>, calls': seq<Call>, agents': seq<Agent>)
    requires OwnInv(s.table, s.calls, s.agents) && |calls'| == |s.calls|
    requires forall k :: k in table' ==> k in s.table && table'[k] == s.table[k]
    requires forall c :: 0 <= c < |calls'| && calls'[c].stored ==> s.calls[c].stored && KeyOf(calls'[c]) == KeyOf(s.calls[c])
    requires forall c :: 0 <= c < |calls'| && Departed(c, s.calls[c], s.agents) ==> Departed(c, calls'[c], agents')
    ensures OwnInv(table', calls', agents')
  {
  }

  lemma CallOwn(s: State, c: nat, call': Call, table': map<Key, nat>)
    requires OwnInv(s.table, s.calls, s.agents) && c < |s.calls| && (Left(s.calls[c]) ==> Left(call'))
    requires call'.stored ==> s.calls[c].stored && KeyOf(call') == KeyOf(s.calls[c])
    requires forall k :: k in table' ==> k in s.table && table'[k] == s.table[k]
    ensures OwnInv(table', s.calls[c := call'], s.agents)
  {
    OwnKept(s, table', s.calls[c := call'], s.agents);
  }

  // No agent takes hold of a call that has left.
  lemma AgentOwn(table: map<Key, nat>, calls: seq<Call>, agents: seq<Agent>, a: nat, pc: AgentPc)
    requires OwnInv(table, calls, agents) && a < |agents|
    requires pc.Holding? ==> pc.target < |calls| && !Left(calls[pc.target])
    ensures OwnInv(table, calls, agents[a := agents[a].(pc := pc)])
  {
    forall c | 0 <= c < |calls| && Departed(c, calls[c], agents) ensures Departed(c, calls[c], agents[a := agents[a].(pc := pc)]) {
    }
  }

  // The entry found under a call's own key is that call's entry.
  lemma OwnEntry(s: State, c: nat)
    requires Inv(s) && c < |s.calls| && s.calls[c].stored && !Departed(c, s.calls[c], s.agents) && KeyOf(s.calls[c]) in s.table
    ensures s.table[KeyOf(s.calls[c])] == c && s.calls[c].claimed == None && !Left(s.calls[c])
  {
    assert InTable(KeyOf(s.calls[c]), s.calls[c]);
    assert CallInv(s.calls[c]);
  }

  // ---------------------------------------------------------------------------------------------
  // Callers
  // ---------------------------------------------------------------------------------------------

  // A call that has not stored its entry yet moves on.
  lemma UnstoredMoves(s: State, c: nat, call': Call, counter': nat, adds': nat)
    requires Inv(s) && c < |s.calls| && !s.calls[c].stored && CallInv(call') && !call'.stored
    requires Left(s.calls[c]) ==> Left(call')
    ensures Inv(s.(calls := s.calls[c := call'], counter := counter', adds := adds'))
  {
    assert CallInv(s.calls[c]);
    assert OwnInv(s.table, s.calls[c := call'], s.agents) by { CallOwn(s, c, call', s.table); }
  }

  // A stored call moves on without touching its entry, its claim or its result channel.
  predicate SameEntry(call: Call, call': Call) {
    && KeyOf(call') == KeyOf(call) && call.stored && call'.stored && call'.claimed == call.claimed && call'.inbox == call.inbox
    && (Left(call) ==> Left(call'))
  }

  lemma StoredMoves(s: State, c: nat, call': Call)
    requires Inv(s) && c < |s.calls| && SameEntry(s.calls[c], call') && CallInv(call')
    ensures Inv(SetCall(s, c, call'))
  {
    var s' := SetCall(s, c, call');
    assert StoredInv(c, s.calls[c], s.table);
    assert CallServed(c, s.calls[c], s.agents);
    assert AgentsInv(s.agents, s'.calls) by { EntryAgents(s, c, call'); }
    assert TableInv(s.table, s'.calls) by { EntryTable(s.table, s.calls, c, call'); }
    assert OwnInv(s.table, s'.calls, s.agents) by { CallOwn(s, c, call', s.table); }
  }

  lemma EntryAgents(s: State, c: nat, call': Call)
    requires AgentsInv(s.agents, s.calls) && c < |s.calls| && SameEntry(s.calls[c], call')
    ensures AgentsInv(s.agents, s.calls[c := call'])
  {
  }

  lemma EntryTable(table: map<Key, nat>, calls: seq<Call>, c: nat, call': Call)
    requires TableInv(table, calls) && c < |calls| && SameEntry(calls[c], call')
    ensures TableInv(table, calls[c := call'])
  {
  }

  // A call removes its own entry: by its timer, its context or its return.
  lemma SelfClaims(s: State, c: nat, call': Call)
    requires Inv(s) && c < |s.calls| && s.calls[c].stored && !Departed(c, s.calls[c], s.agents) && KeyOf(s.calls[c]) in s.table
    requires call'.claimed in {Some(Timer), Some(Context), Some(Return)}
    requires SameEntry(s.calls[c], call'.(claimed := s.calls[c].claimed)) && CallInv(call')
    ensures Inv(Remove(s, KeyOf(s.calls[c]), c, call'))
  {
    OwnEntry(s, c);
    var s' := Remove(s, KeyOf(s.calls[c]), c, call');
    assert AgentsInv(s.agents, s'.calls) by { ClaimedAgents(s, c, call'); }
    assert TableInv(s'.table, s'.calls) by { RemovedTable(s, c, call'); }
    assert CallsInv(s'.calls, s'.table) by { RemovedCalls(s, c, call'); }
    assert OwnInv(s'.table, s'.calls, s.agents) by { CallOwn(s, c, call', s'.table); }
  }

  lemma ClaimedAgents(s: State, c: nat, call': Call)
    requires AgentsInv(s.agents, s.calls) && c < |s.calls| && s.calls[c].claimed == None
    requires KeyOf(call') == KeyOf(s.calls[c]) && (s.calls[c].stored ==> call'.stored)
    ensures AgentsInv(s.agents, s.calls[c := call'])
  {
  }

  lemma RemovedTable(s: State, c: nat, call': Call)
    requires Inv(s) && c < |s.calls| && KeyOf(s.calls[c]) in s.table && s.table[KeyOf(s.calls[c])] == c
    ensures TableInv(s.table - {KeyOf(s.calls[c])}, s.calls[c := call'])
  {
    forall k | k in s.table && k != KeyOf(s.calls[c]) ensures s.table[k] < |s.calls| && s.table[k] != c && InTable(k, s.calls[s.table[k]]) {
      assert InTable(k, s.calls[s.table[k]]);
    }
  }

  lemma RemovedCalls(s: State, c: nat, call': Call)
    requires Inv(s) && c < |s.calls| && s.calls[c].stored
    requires KeyOf(s.calls[c]) in s.table && s.table[KeyOf(s.calls[c])] == c && CallInv(call') && call'.claimed.Some?
    ensures CallsInv(s.calls[c := call'], s.table - {KeyOf(s.calls[c])})
  {
    forall d | 0 <= d < |s.calls| && d != c ensures CallInv(s.calls[d]) && StoredInv(d, s.calls[d], s.table - {KeyOf(s.calls[c])}) {
      assert StoredInv(d, s.calls[d], s.table) && CallInv(s.calls[c]);
    }
  }

  lemma BeforeStore(s: State, c: nat, act: CallAct)
    requires Inv(s) && CallEnabled(s, c, act) && (act.Snapshot? || act.Alloc?)
    ensures Inv(CallApply(s, c, act))
  {
    var call := s.calls[c];
    assert CallInv(call);
    assert s.calls[c := call] == s.calls;
    if act.Snapshot? {
      var call' := if s.closed then call.(pc := Returned(ClosedError)) else call.(pc := Snapped, epoch := s.epoch);
      UnstoredMoves(s, c, call', s.counter, s.adds);
    } else {
      var n := Bump(s.counter);
      UnstoredMoves(s, c, if n == 0 then call else call.(pc := Allocated, num := n), n, s.adds + 1);
    }
  }

  lemma StoreStep(s: State, c: nat)
    requires Inv(s) && CallEnabled(s, c, Store) && FreshKey(s, c)
    ensures Inv(CallApply(s, c, Store))
  {
    var call' := s.calls[c].(pc := Registered, stored := true);
    var s' := CallApply(s, c, Store);
    assert CallInv(s.calls[c]);
    assert TableInv(s'.table, s'.calls) && CallsInv(s'.calls, s'.table) by { StoreEntry(s, c, call'); }
    assert AgentsInv(s.agents, s'.calls) by { ClaimedAgents(s, c, call'); }
    assert OwnInv(s'.table, s'.calls, s.agents) by { StoreOwn(s, c, call'); }
  }

  lemma StoreOwn(s: State, c: nat, call': Call)
    requires OwnInv(s.table, s.calls, s.agents) && c < |s.calls| && FreshKey(s, c)
    requires call' == s.calls[c].(pc := Registered, stored := true)
    ensures OwnInv(s.table[KeyOf(call') := c], s.calls[c := call'], s.agents)
  {
    var calls' := s.calls[c := call'];
    forall d | 0 <= d < |calls'| && d != c && calls'[d].stored && !Departed(d, calls'[d], s.agents)
      ensures KeyOf(calls'[d]) != KeyOf(call')
    {
      assert !Departed(d, s.calls[d], s.agents);
    }
  }

  // Under a fresh key there is no entry.
  lemma FreshKeyUnused(s: State, c: nat, d: nat)
    requires CallsInv(s.calls, s.table) && c < |s.calls| && FreshKey(s, c) && d < |s.calls| && d != c
    requires s.calls[d].stored && s.calls[d].claimed == None
    ensures KeyOf(s.calls[d]) != KeyOf(s.calls[c])
  {
    assert CallInv(s.calls[d]);
  }

  lemma StoreEntry(s: State, c: nat, call': Call)
    requires TableInv(s.table, s.calls) && CallsInv(s.calls, s.table)
    requires c < |s.calls| && s.calls[c].pc == Allocated && call' == s.calls[c].(pc := Registered, stored := true) && FreshKey(s, c)
    ensures TableInv(s.table[KeyOf(call') := c], s.calls[c := call'])
    ensures CallsInv(s.calls[c := call'], s.table[KeyOf(call') := c])
  {
    var table' := s.table[KeyOf(call') := c];
    assert CallInv(s.calls[c]);
    forall k | k in s.table ensures s.table[k] < |s.calls| && InTable(k, s.calls[s.table[k]]) && k != KeyOf(call') {
      assert InTable(k, s.calls[s.table[k]]);
      FreshKeyUnused(s, c, s.table[k]);
    }
    forall d | 0 <= d < |s.calls| && d != c ensures CallInv(s.calls[d]) && StoredInv(d, s.calls[d], table') {
      assert StoredInv(d, s.calls[d], s.table) && CallInv(s.calls[d]);
      if s.calls[d].stored && s.calls[d].claimed == None {
        FreshKeyUnused(s, c, d);
      }
    }
  }

  lemma WriteStep(s: State, c: nat)
    requires Inv(s) && CallEnabled(s, c, Write(true))
    ensures Inv(CallApply(s, c, Write(true)))
  {
    var call := s.calls[c];
    assert CallInv(call);
    var call' := call.(pc := Waiting, wrote := true, timer := Armed);
    StoredMoves(s, c, call');
    assert KeyOf(call') == KeyOf(call);
  }

  lemma MovingStep(s: State, c: nat, act: CallAct)
    requires Inv(s) && CallEnabled(s, c, act)
    requires act in {Write(false), CtxEnds, TimerFires, Receive, GraceEnds}
    ensures Inv(CallApply(s, c, act))
  {
    var call := s.calls[c];
    assert CallInv(call);
    if act == CtxEnds && !call.stored {
      UnstoredMoves(s, c, call.(ctxDone := true), s.counter, s.adds);
    } else {
      match act
      case Write(_) => StoredMoves(s, c, call.(pc := Leaving(WriteFailed)));
      case CtxEnds => StoredMoves(s, c, call.(ctxDone := true));
      case TimerFires => StoredMoves(s, c, call.(timer := Fired));
      case Receive => StoredMoves(s, c, call.(pc := Leaving(call.inbox[0]), timer := StopTimer(call.timer)));
      case GraceEnds => StoredMoves(s, c, call.(pc := Leaving(GraceExpired), timer := StopTimer(call.timer)));
    }
  }

  lemma ClaimingStep(s: State, c: nat, act: CallAct)
    requires Inv(s) && CallEnabled(s, c, act) && (act.TimerClaims? || act.CtxClaims? || act.Leave?)
    ensures Inv(CallApply(s, c, act))
  {
    var call := s.calls[c];
    assert CallInv(call) && StoredInv(c, call, s.table);
    if !call.stored {
      assert false;
    } else if KeyOf(call) in s.table {
      match act
      case TimerClaims => SelfClaims(s, c, call.(claimed := Some(Timer), timer := TimerOwes));
      case CtxClaims =>
        SelfClaims(s, c, call.(claimed := Some(Context), pc := Leaving(Cancelled), timer := StopTimer(call.timer)));
      case Leave => SelfClaims(s, c, call.(claimed := Some(Return), pc := Returned(call.pc.out)));
    } else {
      match act
      case TimerClaims => StoredMoves(s, c, call.(timer := TimerDone));
      case CtxClaims => StoredMoves(s, c, call.(pc := Grace));
      case Leave => StoredMoves(s, c, call.(pc := Returned(call.pc.out)));
    }
  }

  // A value reaches the result channel of call c.
  lemma DeliverStep(s: State, c: nat, call': Call, agents': seq<Agent>)
    requires Inv(s) && c < |s.calls| && s.calls[c].claimed.Some? && s.calls[c].stored
    requires call' == s.calls[c].(inbox := call'.inbox, timer := call'.timer) && CallInv(call')
    requires AgentsInv(agents', s.calls[c := call']) && OwingInv(s.calls[c := call'], agents')
    requires OwnInv(s.table, s.calls[c := call'], agents')
    ensures Inv(s.(calls := s.calls[c := call'], agents := agents'))
  {
    assert TableInv(s.table, s.calls[c := call']) && CallsInv(s.calls[c := call'], s.table) by {
      DeliverEntries(s.table, s.calls, c, call');
    }
  }

  lemma DeliverEntries(table: map<Key, nat>, calls: seq<Call>, c: nat, call': Call)
    requires TableInv(table, calls) && CallsInv(calls, table) && c < |calls| && calls[c].claimed.Some?
    requires call' == calls[c].(inbox := call'.inbox, timer := call'.timer) && CallInv(call')
    ensures TableInv(table, calls[c := call']) && CallsInv(calls[c := call'], table)
  {
    forall k | k in table ensures table[k] < |calls| && table[k] != c && InTable(k, calls[table[k]]) {
      assert InTable(k, calls[table[k]]);
    }
  }

  lemma TimerSendsStep(s: State, c: nat)
    requires Inv(s) && CallEnabled(s, c, TimerSends)
    ensures Inv(CallApply(s, c, TimerSends))
  {
    var call := s.calls[c];
    assert CallInv(call);
    var call' := call.(timer := TimerDone, inbox := call.inbox + [TimedOut]);
    assert call'.inbox == [TimedOut];
    assert AgentsInv(s.agents, s.calls[c := call']) by {
      forall a | 0 <= a < |s.agents| ensures AgentInv(a, s.agents[a], s.calls[c := call']) {
        assert AgentInv(a, s.agents[a], s.calls);
      }
    }
    assert OwnInv(s.table, s.calls[c := call'], s.agents) by { CallOwn(s, c, call', s.table); }
    DeliverStep(s, c, call', s.agents);
  }

  // ---------------------------------------------------------------------------------------------
  // Agents
  // ---------------------------------------------------------------------------------------------

  // An agent moves on without gaining or losing a claim.
  lemma AgentMoves(s: State, a: nat, pc: AgentPc)
    requires Inv(s) && a < |s.agents| && !s.agents[a].pc.Owes? && !s.agents[a].pc.SweepOwes?
    requires AgentInv(a, s.agents[a].(pc := pc), s.calls) && !pc.Owes? && !pc.SweepOwes?
    requires pc.Holding? ==> !Left(s.calls[pc.target])
    ensures Inv(SetAgent(s, a, pc))
  {
    AgentOwn(s.table, s.calls, s.agents, a, pc);
    forall c | 0 <= c < |s.calls| ensures CallServed(c, s.calls[c], s.agents[a := s.agents[a].(pc := pc)]) {
      assert CallServed(c, s.calls[c], s.agents);
    }
  }

  // Agent a removes the entry of call t and now owes it an answer.
  lemma AgentClaims(s: State, a: nat, t: nat, pc: AgentPc)
    requires Inv(s) && a < |s.agents| && !s.agents[a].pc.Owes? && !s.agents[a].pc.SweepOwes?
    requires t < |s.calls| && s.calls[t].stored && KeyOf(s.calls[t]) in s.table && s.table[KeyOf(s.calls[t])] == t
    requires (pc.Owes? && pc.out.Reply?) || pc.SweepOwes?
    requires pc.target == t
    ensures Inv(SetAgent(Remove(s, KeyOf(s.calls[t]), t, s.calls[t].(claimed := Some(Loop(a)))), a, pc))
  {
    var call' := s.calls[t].(claimed := Some(Loop(a)));
    var calls' := s.calls[t := call'];
    var agents' := s.agents[a := s.agents[a].(pc := pc)];
    assert InTable(KeyOf(s.calls[t]), s.calls[t]) && CallInv(s.calls[t]);
    assert TableInv(s.table - {KeyOf(s.calls[t])}, calls') by { RemovedTable(s, t, call'); }
    assert CallsInv(calls', s.table - {KeyOf(s.calls[t])}) by { RemovedCalls(s, t, call'); }
    assert AgentsInv(s.agents, calls') by { ClaimedAgents(s, t, call'); }
    assert AgentInv(a, agents'[a], calls');
    assert OwingInv(calls', agents') by { ClaimedOwing(s.calls, s.agents, a, t, pc); }
    assert OwnInv(s.table - {KeyOf(s.calls[t])}, calls', agents') by {
      CallOwn(s, t, call', s.table - {KeyOf(s.calls[t])});
      AgentOwn(s.table - {KeyOf(s.calls[t])}, calls', s.agents, a, pc);
    }
    AssembleClaim(s, s.table - {KeyOf(s.calls[t])}, t, call', agents');
  }

  lemma ClaimedOwing(calls: seq<Call>, agents: seq<Agent>, a: nat, t: nat, pc: AgentPc)
    requires OwingInv(calls, agents) && a < |agents| && !agents[a].pc.Owes? && !agents[a].pc.SweepOwes?
    requires t < |calls| && (pc.Owes? || pc.SweepOwes?) && pc.target == t
    ensures OwingInv(calls[t := calls[t].(claimed := Some(Loop(a)))], agents[a := agents[a].(pc := pc)])
  {
    var calls' := calls[t := calls[t].(claimed := Some(Loop(a)))];
    var agents' := agents[a := agents[a].(pc := pc)];
    forall c | 0 <= c < |calls'| ensures CallServed(c, calls'[c], agents') {
      assert CallServed(c, calls[c], agents);
    }
  }

  lemma AssembleClaim(s: State, table': map<Key, nat>, t: nat, call': Call, agents': seq<Agent>)
    requires Inv(s) && t < |s.calls| && call' == s.calls[t].(claimed := call'.claimed)
    requires TableInv(table', s.calls[t := call']) && CallsInv(s.calls[t := call'], table')
    requires AgentsInv(agents', s.calls[t := call']) && OwingInv(s.calls[t := call'], agents')
    requires OwnInv(table', s.calls[t := call'], agents')
    ensures Inv(s.(table := table', calls := s.calls[t := call'], agents := agents'))
  {
  }

  lemma ReadingStep(s: State, a: nat, act: AgentAct)
    requires Inv(s) && AgentEnabled(s, a, act) && (act.Frame? || act.LoadEpoch? || act.Die? || act.Visit? || act.SweepEnd?)
    ensures Inv(AgentApply(s, a, act))
  {
    if act.Visit? && act.key in s.table {
      assert InTable(act.key, s.calls[s.table[act.key]]) && CallInv(s.calls[s.table[act.key]]);
    }
    AgentMoves(s, a, AgentApply(s, a, act).agents[a].pc);
  }

  lemma ClaimStep(s: State, a: nat)
    requires Inv(s) && AgentEnabled(s, a, AgentAct.Claim)
    ensures Inv(AgentApply(s, a, AgentAct.Claim))
  {
    var ag := s.agents[a];
    if ag.pc.key in s.table {
      var t := s.table[ag.pc.key];
      assert InTable(ag.pc.key, s.calls[t]);
      AgentClaims(s, a, t, Owes(t, Reply(ag.pc.frame.call, ag.pc.body)));
    } else {
      AgentMoves(s, a, Reading);
    }
  }

  lemma SweepClaimStep(s: State, a: nat)
    requires Inv(s) && AgentEnabled(s, a, SweepClaim)
    ensures Inv(AgentApply(s, a, SweepClaim))
  {
    var ag := s.agents[a];
    assert AgentInv(a, ag, s.calls);
    if ag.pc.key in s.table {
      var t := s.table[ag.pc.key];
      assert InTable(ag.pc.key, s.calls[t]);
      OwnEntry(s, ag.pc.target);
      AgentClaims(s, a, t, SweepOwes(ag.pc.todo, t));
    } else {
      AgentMoves(s, a, Sweeping(ag.pc.todo));
    }
  }

  lemma SendStep(s: State, a: nat)
    requires Inv(s) && AgentEnabled(s, a, Send)
    ensures Inv(AgentApply(s, a, Send))
  {
    var ag := s.agents[a];
    var t := ag.pc.target;
    var out := if ag.pc.Owes? then ag.pc.out else Disconnected;
    var call' := s.calls[t].(inbox := s.calls[t].inbox + [out]);
    var agents' := AgentApply(s, a, Send).agents;
    assert AgentInv(a, ag, s.calls) && CallInv(s.calls[t]);
    assert call'.inbox == [out];
    assert AgentsInv(agents', s.calls[t := call']) by { SentAgents(s, a, call', agents'[a].pc); }
    assert OwingInv(s.calls[t := call'], agents') by { SentOwing(s, a, call', agents'[a].pc); }
    assert OwnInv(s.table, s.calls[t := call'], agents') by {
      CallOwn(s, t, call', s.table);
      AgentOwn(s.table, s.calls[t := call'], s.agents, a, agents'[a].pc);
    }
    DeliverStep(s, t, call', agents');
  }

  lemma SentOwing(s: State, a: nat, call': Call, pc: AgentPc)
    requires AgentsInv(s.agents, s.calls) && OwingInv(s.calls, s.agents)
    requires a < |s.agents| && (s.agents[a].pc.Owes? || s.agents[a].pc.SweepOwes?)
    requires s.agents[a].pc.target < |s.calls| && call' == s.calls[s.agents[a].pc.target].(inbox := call'.inbox)
    requires call'.inbox != []
    ensures OwingInv(s.calls[s.agents[a].pc.target := call'], s.agents[a := s.agents[a].(pc := pc)])
  {
    var calls' := s.calls[s.agents[a].pc.target := call'];
    var agents' := s.agents[a := s.agents[a].(pc := pc)];
    forall c | 0 <= c < |calls'| ensures CallServed(c, calls'[c], agents') {
      assert CallServed(c, s.calls[c], s.agents);
    }
  }

  lemma SentAgents(s: State, a: nat, call': Call, pc: AgentPc)
    requires AgentsInv(s.agents, s.calls) && a < |s.agents| && (s.agents[a].pc.Owes? || s.agents[a].pc.SweepOwes?)
    requires s.agents[a].pc.target < |s.calls| && call' == s.calls[s.agents[a].pc.target].(inbox := call'.inbox)
    requires pc.Reading? || pc.Sweeping?
    ensures AgentsInv(s.agents[a := s.agents[a].(pc := pc)], s.calls[s.agents[a].pc.target := call'])
  {
    forall b | 0 <= b < |s.agents| && b != a
      ensures AgentInv(b, s.agents[b], s.calls[s.agents[a].pc.target := call'])
    {
      assert AgentInv(b, s.agents[b], s.calls) && AgentInv(a, s.agents[a], s.calls);
    }
  }

  lemma ChannelStep(s: State, a: Action)
    requires Inv(s) && Enabled(s, a) && (a.Arrive? || a.Install? || a.Close?)
    ensures Inv(Apply(s, a))
  {
    var s' := Apply(s, a);
    if a.Arrive? {
      assert OwingInv(s'.calls, s'.agents);
    } else {
      forall c | 0 <= c < |s.calls| ensures CallServed(c, s.calls[c], s'.agents) {
        assert CallServed(c, s.calls[c], s.agents);
      }
    }
  }

  lemma CallStep(s: State, c: nat, act: CallAct)
    requires Inv(s) && CallEnabled(s, c, act) && (act.Store? ==> FreshKey(s, c))
    ensures Inv(CallApply(s, c, act))
  {
    match act
    case Snapshot => BeforeStore(s, c, act);
    case Alloc => BeforeStore(s, c, act);
    case Store => StoreStep(s, c);
    case Write(ok) => if ok { WriteStep(s, c); } else { MovingStep(s, c, act); }
    case TimerSends => TimerSendsStep(s, c);
    case TimerClaims => ClaimingStep(s, c, act);
    case CtxClaims => ClaimingStep(s, c, act);
    case Leave => ClaimingStep(s, c, act);
    case _ => MovingStep(s, c, act);
  }

  lemma AgentStep(s: State, a: nat, act: AgentAct)
    requires Inv(s) && AgentEnabled(s, a, act)
    ensures Inv(AgentApply(s, a, act))
  {
    match act
    case Claim => ClaimStep(s, a);
    case Send => SendStep(s, a);
    case SweepClaim => SweepClaimStep(s, a);
    case _ => ReadingStep(s, a, act);
  }

  lemma StepInv(s: State, a: Action, s': State)
    requires Inv(s) && Step(s, a, s') && StoresFresh(s, a)
    ensures Inv(s')
  {
    match a
    case ByCall(c, act) => CallStep(s, c, act);
    case ByAgent(g, act) => AgentStep(s, g, act);
    case _ => ChannelStep(s, a);
  }

  // ---------------------------------------------------------------------------------------------
  // Replies
  // ---------------------------------------------------------------------------------------------

  // An entry found under the number of a received frame is the entry of the very call that wrote the frame.
  lemma MatchIsOwn(s: State, a: nat)
    requires Inv(s) && DistinctNumbers(s.calls) && WireInv(s.wire, s.calls) && ReadersInv(s.agents, s.wire)
    requires a < |s.agents| && s.agents[a].pc.Lookup? && s.agents[a].pc.key in s.table
    ensures s.table[s.agents[a].pc.key] == s.agents[a].pc.frame.call
  {
    var key, frame := s.agents[a].pc.key, s.agents[a].pc.frame;
    var t := s.table[key];
    assert ReaderInv(s.agents[a].pc, s.wire);
    assert InTable(key, s.calls[t]) && CallInv(s.calls[t]);
    assert KeyOf(s.calls[frame.call]) == frame.key;
    assert s.calls[frame.call].num == s.calls[t].num != 0;
  }

  // A call that hears nothing new.
  lemma SameHeard(calls: seq<Call>, agents: seq<Agent>, c: nat, call': Call)
    requires HeardInv(calls, agents) && c < |calls|
    requires call'.inbox == calls[c].inbox || call'.inbox == calls[c].inbox + [TimedOut]
    ensures HeardInv(calls[c := call'], agents)
  {
  }

  predicate ToDraw(pc: CallPc) {
    pc.Begin? || pc.Snapped?
  }

  // A call's step changes that call alone, and of its result channel nothing but a time-out.
  predicate Touched(s: State, c: nat, act: CallAct, s': State)
    requires c < |s.calls|
  {
    && s'.agents == s.agents && |s'.calls| == |s.calls| && s'.calls == s.calls[c := s'.calls[c]]
    && (s'.calls[c].inbox == s.calls[c].inbox || s'.calls[c].inbox == s.calls[c].inbox + [TimedOut])
    && (!act.Alloc? ==>
          && s'.adds == s.adds && s'.counter == s.counter && s'.calls[c].num == s.calls[c].num
          && (act.Snapshot? || s'.calls[c].epoch == s.calls[c].epoch)
          && (ToDraw(s'.calls[c].pc) ==> ToDraw(s.calls[c].pc)))
  }

  lemma CallTouchesOne(s: State, c: nat, act: CallAct)
    requires CallEnabled(s, c, act)
    ensures Touched(s, c, act, CallApply(s, c, act))
  {
    if act.Snapshot? || act.Alloc? || act.Store? || act.Write? {
      EarlyTouchesOne(s, c, act);
    } else if act.TimerFires? || act.TimerClaims? || act.TimerSends? || act.CtxEnds? {
      TimerTouchesOne(s, c, act);
    } else {
      LateTouchesOne(s, c, act);
    }
  }

  lemma EarlyTouchesOne(s: State, c: nat, act: CallAct)
    requires CallEnabled(s, c, act) && (act.Snapshot? || act.Alloc? || act.Store? || act.Write?)
    ensures Touched(s, c, act, CallApply(s, c, act))
  {
  }

  lemma TimerTouchesOne(s: State, c: nat, act: CallAct)
    requires CallEnabled(s, c, act) && act in {TimerFires, TimerClaims, TimerSends, CtxEnds}
    ensures Touched(s, c, act, CallApply(s, c, act))
  {
  }

  lemma LateTouchesOne(s: State, c: nat, act: CallAct)
    requires CallEnabled(s, c, act) && act in {Receive, CtxClaims, GraceEnds, Leave}
    ensures Touched(s, c, act, CallApply(s, c, act))
  {
  }

  lemma CallWire(s: State, c: nat, act: CallAct)
    requires CallsInv(s.calls, s.table) && WireInv(s.wire, s.calls) && CallEnabled(s, c, act)
    ensures WireInv(CallApply(s, c, act).wire, CallApply(s, c, act).calls) && s.wire <= CallApply(s, c, act).wire
  {
    assert CallInv(s.calls[c]);
  }

  lemma CallReplies(s: State, c: nat, act: CallAct)
    requires Inv(s) && RepliesInv(s) && CallEnabled(s, c, act)
    ensures RepliesInv(CallApply(s, c, act))
  {
    CallTouchesOne(s, c, act);
    CallWire(s, c, act);
    SameHeard(s.calls, s.agents, c, CallApply(s, c, act).calls[c]);
  }

  // An agent takes an entry, or finds none.
  lemma ClaimReplies(s: State, a: nat)
    requires Inv(s) && DistinctNumbers(s.calls) && RepliesInv(s) && AgentEnabled(s, a, AgentAct.Claim)
    ensures RepliesInv(AgentApply(s, a, AgentAct.Claim))
  {
    if s.agents[a].pc.key in s.table {
      MatchIsOwn(s, a);
    }
  }

  lemma SendReplies(s: State, a: nat)
    requires Inv(s) && RepliesInv(s) && AgentEnabled(s, a, Send)
    ensures RepliesInv(AgentApply(s, a, Send))
  {
    assert AgentInv(a, s.agents[a], s.calls);
  }

  lemma SweepReplies(s: State, a: nat)
    requires RepliesInv(s) && AgentEnabled(s, a, SweepClaim)
    ensures RepliesInv(AgentApply(s, a, SweepClaim))
  {
  }

  lemma ReadingReplies(s: State, a: nat, act: AgentAct)
    requires RepliesInv(s) && AgentEnabled(s, a, act) && (act.Frame? ==> act.frame in s.wire)
    requires act.Frame? || act.LoadEpoch? || act.Die? || act.Visit? || act.SweepEnd?
    ensures RepliesInv(AgentApply(s, a, act))
  {
  }

  lemma AgentReplies(s: State, a: nat, act: AgentAct)
    requires Inv(s) && DistinctNumbers(s.calls) && RepliesInv(s) && AgentEnabled(s, a, act)
    requires act.Frame? ==> act.frame in s.wire
    ensures RepliesInv(AgentApply(s, a, act))
  {
    match act
    case Claim => ClaimReplies(s, a);
    case Send => SendReplies(s, a);
    case SweepClaim => SweepReplies(s, a);
    case _ => ReadingReplies(s, a, act);
  }

  lemma StepReplies(s: State, a: Action, s': State)
    requires Inv(s) && DistinctNumbers(s.calls) && RepliesInv(s) && Step(s, a, s') && Honest(s, a)
    ensures RepliesInv(s')
  {
    match a
    case ByCall(c, act) => CallReplies(s, c, act);
    case ByAgent(g, act) => AgentReplies(s, g, act);
    case _ =>
  }

  // ---------------------------------------------------------------------------------------------
  // Numbers
  // ---------------------------------------------------------------------------------------------

  // A call that has yet to draw its number has none.
  predicate Undrawn(calls: seq<Call>) {
    forall c :: 0 <= c < |calls| && ToDraw(calls[c].pc) ==> calls[c].num == 0
  }

  // Numbers, once drawn, stay with their calls and generations.
  predicate KeysStay(calls: seq<Call>, calls': seq<Call>) {
    && |calls| <= |calls'|
    && forall c :: 0 <= c < |calls| && calls[c].num != 0 ==> KeyOf(calls'[c]) == KeyOf(calls[c])
  }

  // One call is replaced by one with the same number and generation, or by one that had no number.
  lemma OneKeeps(calls: seq<Call>, c: nat, call': Call)
    requires Undrawn(calls) && c < |calls| && (calls[c].num != 0 ==> KeyOf(call') == KeyOf(calls[c]))
    requires ToDraw(call'.pc) ==> call'.num == 0
    ensures Undrawn(calls[c := call']) && KeysStay(calls, calls[c := call'])
  {
  }

  lemma CallKeeps(s: State, c: nat, act: CallAct)
    requires Undrawn(s.calls) && CallEnabled(s, c, act)
    ensures Undrawn(CallApply(s, c, act).calls) && KeysStay(s.calls, CallApply(s, c, act).calls)
  {
    CallTouchesOne(s, c, act);
    if !act.Alloc? {
      OneKeeps(s.calls, c, CallApply(s, c, act).calls[c]);
    }
  }

  lemma AgentKeeps(s: State, a: nat, act: AgentAct)
    requires Undrawn(s.calls) && AgentEnabled(s, a, act)
    ensures Undrawn(AgentApply(s, a, act).calls) && KeysStay(s.calls, AgentApply(s, a, act).calls)
  {
  }

  lemma StepKeepsKeys(s: State, a: Action, s': State)
    requires Undrawn(s.calls) && Step(s, a, s')
    ensures Undrawn(s'.calls) && KeysStay(s.calls, s'.calls)
  {
    match a
    case ByCall(c, act) => CallKeeps(s, c, act);
    case ByAgent(g, act) => AgentKeeps(s, g, act);
    case _ =>
  }

  // One number more is a new number, unless it is the forbidden 0.
  lemma NextNumber(adds: nat)
    requires adds < SEQ_WIDTH
    ensures Bump(adds % SEQ_WIDTH) == (adds + 1) % SEQ_WIDTH
    ensures (adds + 1) % SEQ_WIDTH == if adds + 1 == SEQ_WIDTH then 0 else adds + 1
  {
  }

  // One call gets a new number, or keeps its own.
  lemma FreshNumber(calls: seq<Call>, c: nat, call': Call, adds: nat)
    requires DistinctNumbers(calls) && c < |calls| && (call'.num == adds + 1 || call'.num == calls[c].num)
    requires forall d :: 0 <= d < |calls| ==> calls[d].num <= adds
    ensures DistinctNumbers(calls[c := call'])
  {
  }

  lemma CallCounts(s: State, c: nat, act: CallAct)
    requires CounterInv(s) && Undrawn(s.calls) && CallEnabled(s, c, act) && (act.Alloc? ==> s.adds < SEQ_WIDTH)
    ensures CounterInv(CallApply(s, c, act))
  {
    var call' := CallApply(s, c, act).calls[c];
    CallTouchesOne(s, c, act);
    if act.Alloc? {
      NextNumber(s.adds);
    }
    assert DistinctNumbers(s.calls[c := call']) by { FreshNumber(s.calls, c, call', s.adds); }
  }

  lemma AgentCounts(s: State, a: nat, act: AgentAct)
    requires CounterInv(s) && AgentEnabled(s, a, act)
    ensures CounterInv(AgentApply(s, a, act))
  {
  }

  lemma StepCounts(s: State, a: Action, s': State)
    requires CounterInv(s) && Undrawn(s.calls) && Step(s, a, s') && s'.adds <= SEQ_WIDTH
    ensures CounterInv(s')
  {
    match a
    case ByCall(c, act) => CallCounts(s, c, act);
    case ByAgent(g, act) => AgentCounts(s, g, act);
    case _ =>
  }
}
