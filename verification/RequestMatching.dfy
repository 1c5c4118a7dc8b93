/**
 Request matching on one client channel: callers, their timers, one read loop per connection generation and `Close`
 race for the entries of the in-flight table, which is keyed by (epoch, seq). One action is one atomic access.
 */
module RequestMatching {
  import opened Basics
  import opened SequenceNumbers

  // ---------------------------------------------------------------------------------------------
  // State
  // ---------------------------------------------------------------------------------------------

  datatype Key = Key(epoch: nat, num: nat)

  datatype Outcome =
    | Reply(from: nat, body: nat)   // the peer's answer to the frame that call `from` wrote
    | TimedOut
    | Disconnected
    | Cancelled
    | GraceExpired
    | WriteFailed
    | ClosedError

  datatype CallPc =
    | Begin
    | Snapped
    | Allocated
    | Registered
    | Waiting
    | Grace
    | Leaving(out: Outcome)
    | Returned(out: Outcome)

  datatype TimerPc = Off | Armed | Fired | TimerOwes | TimerDone

  datatype Claimant = Timer | Loop(a: nat) | Context | Return

  // `inbox` lists every value ever put into the call's result channel; `claimed` records whose LoadAndDelete removed
  // the call's table entry.
  datatype Call = Call(
    pc: CallPc,
    epoch: nat,
    num: nat,
    stored: bool,
    wrote: bool,
    ctxDone: bool,
    timer: TimerPc,
    claimed: Option<Claimant>,
    inbox: seq<Outcome>)

  // A read loop, or the closing goroutine (which only sweeps).
  datatype AgentPc =
    | Reading
    | Received(frame: Sent, body: nat)
    | Lookup(key: Key, frame: Sent, body: nat)
    | Owes(target: nat, out: Outcome)
    | Sweeping(todo: set<Key>)
    | Holding(todo: set<Key>, key: Key, target: nat)
    | SweepOwes(todo: set<Key>, target: nat)
    | Gone

  datatype Agent = Agent(epoch: nat, pc: AgentPc)

  // A request frame on connection key.epoch, numbered key.num, written by `call`.
  datatype Sent = Sent(key: Key, call: nat)

  // `adds` counts the bumps of the 32-bit counter.
  datatype State = State(
    counter: nat,
    adds: nat,
    epoch: nat,
    closed: bool,
    table: map<Key, nat>,
    calls: seq<Call>,
    agents: seq<Agent>,
    wire: set<Sent>)

  function Init(): State {
    State(0, 0, 1, false, map[], [], [Agent(1, Reading)], {})
  }

  function KeyOf(call: Call): Key {
    Key(call.epoch, call.num)
  }

  // ---------------------------------------------------------------------------------------------
  // Steps
  // ---------------------------------------------------------------------------------------------

  datatype CallAct =
    | Snapshot
    | Alloc
    | Store
    | Write(ok: bool)
    | CtxEnds
    | TimerFires
    | TimerClaims
    | TimerSends
    | Receive
    | CtxClaims
    | GraceEnds
    | Leave

  datatype AgentAct =
    | Frame(frame: Sent, body: nat)
    | LoadEpoch
    | Claim
    | Send
    | Die
    | Visit(key: Key)
    | SweepClaim
    | SweepEnd

  datatype Action = Arrive | Install | Close | ByCall(c: nat, call: CallAct) | ByAgent(a: nat, agent: AgentAct)

  predicate CallEnabled(s: State, c: nat, act: CallAct) {
    && c < |s.calls|
    && var call := s.calls[c];
       match act
       case Snapshot => call.pc == Begin
       case Alloc => call.pc == Snapped
       case Store => call.pc == Allocated
       case Write(_) => call.pc == Registered
       case CtxEnds => true
       case TimerFires => call.timer == Armed
       case TimerClaims => call.timer == Fired
       case TimerSends => call.timer == TimerOwes
       case Receive => (call.pc == Waiting || call.pc == Grace) && call.inbox != []
       case CtxClaims => call.pc == Waiting && call.ctxDone
       case GraceEnds => call.pc == Grace
       case Leave => call.pc.Leaving?
  }

  // What arrives is up to the peer: an answer under any number, at any time and any number of times. `frame` is the request
  // it is meant to answer.
  predicate AgentEnabled(s: State, a: nat, act: AgentAct) {
    && a < |s.agents|
    && var ag := s.agents[a];
       match act
       case Frame(_, _) => ag.pc == Reading
       case LoadEpoch => ag.pc.Received?
       case Claim => ag.pc.Lookup? && (ag.pc.key in s.table ==> s.table[ag.pc.key] < |s.calls|)
       case Send => (ag.pc.Owes? || ag.pc.SweepOwes?) && ag.pc.target < |s.calls|
       case Die => ag.pc == Reading
       case Visit(key) => ag.pc.Sweeping? && (key in ag.pc.todo || key in s.table)
       case SweepClaim => ag.pc.Holding? && ag.pc.target < |s.calls|
       case SweepEnd => ag.pc.Sweeping? && ag.pc.todo == {}
  }

  predicate Enabled(s: State, a: Action) {
    match a
    case Arrive => true
    case Install => !s.closed
    case Close => !s.closed
    case ByCall(c, act) => CallEnabled(s, c, act)
    case ByAgent(a, act) => AgentEnabled(s, a, act)
  }

  function SetCall(s: State, c: nat, call: Call): State
    requires c < |s.calls|
  {
    s.(calls := s.calls[c := call])
  }

  function SetAgent(s: State, a: nat, pc: AgentPc): State
    requires a < |s.agents|
  {
    s.(agents := s.agents[a := s.agents[a].(pc := pc)])
  }

  // A successful LoadAndDelete(key) by `who`, who will use the result channel of call c.
  function Remove(s: State, key: Key, c: nat, call: Call): State
    requires key in s.table && c < |s.calls|
  {
    SetCall(s, c, call).(table := s.table - {key})
  }

  // Returning from the wait stops a timer that has not fired.
  function StopTimer(t: TimerPc): TimerPc {
    if t == Armed then TimerDone else t
  }

  function CallApply(s: State, c: nat, act: CallAct): State
    requires CallEnabled(s, c, act)
  {
    var call := s.calls[c];
    match act
    case Snapshot => SetCall(s, c, if s.closed then call.(pc := Returned(ClosedError)) else call.(pc := Snapped, epoch := s.epoch))
    case Alloc =>
      var n := Bump(s.counter);
      var s1 := s.(counter := n, adds := s.adds + 1);
      if n == 0 then s1 else SetCall(s1, c, call.(pc := Allocated, num := n))
    case Store => SetCall(s, c, call.(pc := Registered, stored := true)).(table := s.table[KeyOf(call) := c])
    case Write(ok) =>
      if ok then SetCall(s, c, call.(pc := Waiting, wrote := true, timer := Armed)).(wire := s.wire + {Sent(KeyOf(call), c)})
      else SetCall(s, c, call.(pc := Leaving(WriteFailed)))
    case CtxEnds => SetCall(s, c, call.(ctxDone := true))
    case TimerFires => SetCall(s, c, call.(timer := Fired))
    case TimerClaims =>
      if KeyOf(call) in s.table then
        Remove(s, KeyOf(call), c, call.(claimed := Some(Timer), timer := TimerOwes))
      else SetCall(s, c, call.(timer := TimerDone))
    case TimerSends => SetCall(s, c, call.(timer := TimerDone, inbox := call.inbox + [TimedOut]))
    case Receive => SetCall(s, c, call.(pc := Leaving(call.inbox[0]), timer := StopTimer(call.timer)))
    case CtxClaims =>
      if KeyOf(call) in s.table then
        Remove(s, KeyOf(call), c, call.(claimed := Some(Context), pc := Leaving(Cancelled), timer := StopTimer(call.timer)))
      else SetCall(s, c, call.(pc := Grace))
    case GraceEnds => SetCall(s, c, call.(pc := Leaving(GraceExpired), timer := StopTimer(call.timer)))
    case Leave =>
      if KeyOf(call) in s.table then
        Remove(s, KeyOf(call), c, call.(claimed := Some(Return), pc := Returned(call.pc.out)))
      else SetCall(s, c, call.(pc := Returned(call.pc.out)))
  }

  function Deliver(s: State, c: nat, out: Outcome): State
    requires c < |s.calls|
  {
    SetCall(s, c, s.calls[c].(inbox := s.calls[c].inbox + [out]))
  }

  function AgentApply(s: State, a: nat, act: AgentAct): State
    requires AgentEnabled(s, a, act)
  {
    var ag := s.agents[a];
    match act
    case Frame(frame, body) => SetAgent(s, a, Received(frame, body))
    // The lookup key uses the generation current now, not the one the frame was read from.
    case LoadEpoch => SetAgent(s, a, Lookup(Key(s.epoch, ag.pc.frame.key.num), ag.pc.frame, ag.pc.body))
    case Claim =>
      if ag.pc.key in s.table then
        var t := s.table[ag.pc.key];
        SetAgent(Remove(s, ag.pc.key, t, s.calls[t].(claimed := Some(Loop(a)))), a,
                 Owes(t, Reply(ag.pc.frame.call, ag.pc.body)))
      else SetAgent(s, a, Reading)
    case Send =>
      if ag.pc.Owes? then SetAgent(Deliver(s, ag.pc.target, ag.pc.out), a, Reading)
      else SetAgent(Deliver(s, ag.pc.target, Disconnected), a, Sweeping(ag.pc.todo))
    case Die => SetAgent(s, a, Sweeping(s.table.Keys))
    case Visit(key) =>
      if key in s.table then SetAgent(s, a, Holding(ag.pc.todo - {key}, key, s.table[key]))
      else SetAgent(s, a, Sweeping(ag.pc.todo - {key}))
    case SweepClaim =>
      var t := ag.pc.target;
      if ag.pc.key in s.table then
        SetAgent(Remove(s, ag.pc.key, t, s.calls[t].(claimed := Some(Loop(a)))), a, SweepOwes(ag.pc.todo, t))
      else SetAgent(s, a, Sweeping(ag.pc.todo))
    case SweepEnd => SetAgent(s, a, Gone)
  }

  function Apply(s: State, a: Action): State
    requires Enabled(s, a)
  {
    match a
    case Arrive => s.(calls := s.calls + [Call(Begin, 0, 0, false, false, false, Off, None, [])])
    case Install => s.(epoch := s.epoch + 1, agents := s.agents + [Agent(s.epoch + 1, Reading)])
    case Close => s.(closed := true, agents := s.agents + [Agent(0, Sweeping(s.table.Keys))])
    case ByCall(c, act) => CallApply(s, c, act)
    case ByAgent(a, act) => AgentApply(s, a, act)
  }

  predicate Step(s: State, a: Action, s': State) {
    Enabled(s, a) && s' == Apply(s, a)
  }

  ghost predicate Execution(states: seq<State>, acts: seq<Action>) {
    && |states| == |acts| + 1
    && states[0] == Init()
    && forall i :: 0 <= i < |acts| ==> Step(states[i], acts[i], states[i + 1])
  }

  // ---------------------------------------------------------------------------------------------
  // The inductive invariant, as long as no call stores its entry under the key of one that is still about
  // ---------------------------------------------------------------------------------------------

  // The call has returned, and its timer will not look for its entry any more.
  predicate Left(call: Call) {
    call.pc.Returned? && call.timer != Armed && call.timer != Fired
  }

  // Call c has left, and no sweep will look for its entry any more.
  predicate Departed(c: nat, call: Call, agents: seq<Agent>) {
    && Left(call)
    && forall a :: 0 <= a < |agents| ==> !(agents[a].pc.Holding? && agents[a].pc.target == c)
  }

  // Whoever stored an entry under the key of call c before has departed.
  predicate FreshKey(s: State, c: nat)
    requires c < |s.calls|
  {
    forall d :: 0 <= d < |s.calls| && d != c && s.calls[d].stored && KeyOf(s.calls[d]) == KeyOf(s.calls[c]) ==>
      Departed(d, s.calls[d], s.agents)
  }

  predicate StoresFresh(s: State, a: Action) {
    a.ByCall? && a.call.Store? && a.c < |s.calls| ==> FreshKey(s, a.c)
  }

  // Up to state i, no call stored its entry under the key of one that was still about.
  predicate FreshRun(states: seq<State>, acts: seq<Action>, i: nat)
    requires i <= |acts| && i <= |states|
  {
    forall k :: 0 <= k < i ==> StoresFresh(states[k], acts[k])
  }

  predicate TableInv(table: map<Key, nat>, calls: seq<Call>) {
    forall k :: k in table ==> table[k] < |calls| && InTable(k, calls[table[k]])
  }

  predicate InTable(k: Key, call: Call) {
    KeyOf(call) == k && call.stored && call.claimed == None
  }

  predicate CallsInv(calls: seq<Call>, table: map<Key, nat>) {
    forall c :: 0 <= c < |calls| ==> CallInv(calls[c]) && StoredInv(c, calls[c], table)
  }

  predicate StoredInv(c: nat, call: Call, table: map<Key, nat>) {
    call.stored && call.claimed == None ==> KeyOf(call) in table && table[KeyOf(call)] == c
  }

  // The entry under the key of a call that is still about is its own.
  predicate OwnInv(table: map<Key, nat>, calls: seq<Call>, agents: seq<Agent>) {
    forall c :: 0 <= c < |calls| && calls[c].stored && !Departed(c, calls[c], agents) && KeyOf(calls[c]) in table ==>
      table[KeyOf(calls[c])] == c
  }

  predicate CallInv(call: Call) {
    && (if call.stored
        then call.num != 0 && !call.pc.Begin? && !call.pc.Snapped? && !call.pc.Allocated?
             && (call.pc.Returned? ==> call.claimed.Some?)
        else call.claimed == None && call.timer == Off && !call.wrote
             && (call.pc in {Begin, Snapped, Allocated, Returned(ClosedError)})
             && (call.pc == Allocated <==> call.num != 0))
    && (match call.claimed
        case None => call.inbox == [] && call.timer != TimerOwes
        case Some(Timer) => if call.timer == TimerOwes then call.inbox == [] else call.inbox == [TimedOut]
        case Some(Loop(_)) => |call.inbox| <= 1 && call.timer != TimerOwes
        case Some(Context) => call.inbox == [] && call.timer != TimerOwes && call.pc in {Leaving(Cancelled), Returned(Cancelled)}
        case Some(Return) => call.inbox == [] && call.timer != TimerOwes && call.pc.Returned?)
    && (call.pc == Registered ==> call.timer == Off && !call.wrote)
    && (call.pc == Waiting ==> call.wrote && (call.claimed == None ==> call.timer in {Armed, Fired}))
    && (call.pc == Grace ==> call.wrote && call.claimed.Some?)
    && (call.timer in {Armed, Fired} ==> call.wrote)
    && ((call.pc.Leaving? || call.pc.Returned?) && call.pc.out.Reply? ==> call.inbox == [call.pc.out])
  }

  predicate AgentsInv(agents: seq<Agent>, calls: seq<Call>) {
    forall a :: 0 <= a < |agents| ==> AgentInv(a, agents[a], calls)
  }

  predicate AgentInv(a: nat, ag: Agent, calls: seq<Call>) {
    match ag.pc
    case Owes(t, out) => Owed(a, t, calls) && out.Reply?
    case SweepOwes(_, t) => Owed(a, t, calls)
    case Holding(_, k, t) => t < |calls| && KeyOf(calls[t]) == k && calls[t].stored
    case _ => true
  }

  // Agent a has removed the entry of call t and not yet delivered.
  predicate Owed(a: nat, t: nat, calls: seq<Call>) {
    t < |calls| && calls[t].claimed == Some(Loop(a)) && calls[t].inbox == []
  }

  predicate OwingInv(calls: seq<Call>, agents: seq<Agent>) {
    forall c :: 0 <= c < |calls| ==> CallServed(c, calls[c], agents)
  }

  // An undelivered claim by an agent is that agent's current business.
  predicate CallServed(c: nat, call: Call, agents: seq<Agent>) {
    call.claimed.Some? && call.claimed.value.Loop? ==>
      && call.claimed.value.a < |agents|
      && var pc := agents[call.claimed.value.a].pc;
         call.inbox == [] ==> (pc.Owes? || pc.SweepOwes?) && pc.target == c
  }

  predicate Inv(s: State) {
    && TableInv(s.table, s.calls)
    && CallsInv(s.calls, s.table)
    && OwnInv(s.table, s.calls, s.agents)
    && AgentsInv(s.agents, s.calls)
    && OwingInv(s.calls, s.agents)
  }

  // ---------------------------------------------------------------------------------------------
  // The numbers
  // ---------------------------------------------------------------------------------------------

  // No two calls share a key: a number is drawn at most once in a generation.
  predicate DistinctKeys(calls: seq<Call>) {
    forall c, d :: 0 <= c < d < |calls| && calls[c].num != 0 ==> KeyOf(calls[c]) != KeyOf(calls[d])
  }

  // A number is drawn at most once.
  predicate DistinctNumbers(calls: seq<Call>) {
    forall c, d :: 0 <= c < d < |calls| && calls[c].num != 0 ==> calls[c].num != calls[d].num
  }

  // The counter, as long as it has not handed out a number twice.
  predicate CounterInv(s: State) {
    && s.adds <= SEQ_WIDTH && s.counter == s.adds % SEQ_WIDTH
    && DistinctNumbers(s.calls)
    && forall c :: 0 <= c < |s.calls| ==> s.calls[c].num <= s.adds && s.calls[c].num < SEQ_WIDTH
  }

  // ---------------------------------------------------------------------------------------------
  // Replies, as long as the peer is honest and no two calls of any generations draw the same number
  // ---------------------------------------------------------------------------------------------

  // The peer answers only requests it was sent.
  predicate Honest(s: State, a: Action) {
    a.ByAgent? && a.agent.Frame? ==> a.agent.frame in s.wire
  }

  predicate HonestPeer(states: seq<State>, acts: seq<Action>, i: nat)
    requires i <= |acts| && i <= |states|
  {
    forall k :: 0 <= k < i ==> Honest(states[k], acts[k])
  }

  // A reply that answers the frame of call c.
  predicate Answers(c: nat, out: Outcome) {
    out.Reply? ==> out.from == c
  }

  // What is on the wire was written by the call it names, under that call's key.
  predicate WireInv(wire: set<Sent>, calls: seq<Call>) {
    forall f :: f in wire ==> f.call < |calls| && KeyOf(calls[f.call]) == f.key && calls[f.call].wrote
  }

  // What is being looked up is the number of a request on the wire.
  predicate ReadersInv(agents: seq<Agent>, wire: set<Sent>) {
    forall a :: 0 <= a < |agents| ==> ReaderInv(agents[a].pc, wire)
  }

  predicate ReaderInv(pc: AgentPc, wire: set<Sent>) {
    && (pc.Received? || pc.Lookup? ==> pc.frame in wire)
    && (pc.Lookup? ==> pc.key.num == pc.frame.key.num)
  }

  // What a call has heard, or is about to hear, answers its own frame.
  predicate HeardInv(calls: seq<Call>, agents: seq<Agent>) {
    && (forall c :: 0 <= c < |calls| && calls[c].inbox != [] ==> Answers(c, calls[c].inbox[0]))
    && (forall a :: 0 <= a < |agents| && agents[a].pc.Owes? ==> Answers(agents[a].pc.target, agents[a].pc.out))
  }

  predicate RepliesInv(s: State) {
    && WireInv(s.wire, s.calls)
    && ReadersInv(s.agents, s.wire)
    && HeardInv(s.calls, s.agents)
  }
}
