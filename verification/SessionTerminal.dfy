/**
 The terminal protocol of a direct session: requesters that check the terminal flag before and inside the write lock,
 whoever finds the battle over and races to set the flag, the sweep that settles what is in flight, and every other
 writer of the session state. One action is one atomic access or lock operation.
 */
module SessionTerminal {
  import opened Basics
  import opened SequenceNumbers

  // ---------------------------------------------------------------------------------------------
  // State
  // ---------------------------------------------------------------------------------------------

  datatype Reason = BattleEnded | BattleNotFound | BattleFull | FrameTargetMismatch

  // A battle that ended normally has a settlement to show.
  predicate EndsNormally(r: Reason) {
    r == BattleEnded
  }

  datatype ConnState = Connected | Reconnecting | Disconnected | Ended | Failed

  predicate Final(st: ConnState) {
    st == Ended || st == Failed
  }

  function FinalOf(r: Reason): ConnState {
    if EndsNormally(r) then Ended else Failed
  }

  datatype Outcome =
    | Settled(reason: Reason)   // by the terminal sweep
    | LocallyEnded              // refused by a check of the terminal flag
    | NotConnected
    | WriteFailed
    | ConnectionLost
    | Answered
    | TimedOut
    | Cancelled
    | GraceExpired
    | SessionClosed

  datatype CallPc =
    | Begin
    | PastFlag
    | Ready
    | Allocated
    | Stored
    | WantLock
    | HoldsLock
    | Writing
    | Waiting
    | Grace
    | Leaving(out: Outcome)
    | Returned(out: Outcome)

  datatype TimerPc = Off | Armed | Fired | TimerOwes | TimerDone

  // Whose LoadAndDelete, or deferred Delete, removed a call's table entry.
  datatype Claimant = Timer | Loop(a: nat) | Context | Return

  // `passed`: the in-lock check of the terminal flag let this call write. `inbox` lists every value ever put into the
  // call's result channel.
  datatype Call = Call(pc: CallPc, num: nat, passed: bool, timer: TimerPc, claimed: Option<Claimant>, inbox: seq<Outcome>)

  datatype AgentPc =
    | Cas
    | StoreFailed
    | Record
    | SetWant(target: ConnState)
    | SetCheck(target: ConnState)
    | SetStore(target: ConnState)
    | StartSweep
    | Sweeping(todo: set<nat>)
    | Holding(todo: set<nat>, key: nat, callee: nat)
    | SweepOwes(todo: set<nat>, callee: nat)
    | Take(key: nat)
    | Owes(callee: nat)
    | Finished

  // A goroutine with a reason marks the session ended; the others set a state, sweep after a loss, or hand over an answer.
  datatype Agent = Agent(reason: Option<Reason>, pc: AgentPc)

  datatype State = State(
    flag: bool,
    failed: bool,
    reason: Option<Reason>,
    winner: Option<nat>,
    state: ConnState,
    closed: bool,
    genLock: Option<nat>,
    writeLock: Option<nat>,
    counter: nat,
    bumps: nat,                // how often the counter was bumped
    table: map<nat, nat>,
    calls: seq<Call>,
    agents: seq<Agent>,
    wire: seq<nat>,
    wireAtFlag: nat)

  function Init(): State {
    State(false, false, None, None, Disconnected, false, None, None, 0, 0, map[], [], [], [], 0)
  }

  // ---------------------------------------------------------------------------------------------
  // Steps
  // ---------------------------------------------------------------------------------------------

  datatype CallAct =
    | CheckFlag
    | CheckState
    | Alloc
    | Store
    | PreCheck
    | Lock
    | LockedCheck
    | Write(ok: bool)
    | TimerFires
    | TimerClaims
    | TimerSends
    | Receive
    | CtxEnds
    | GraceEnds
    | SeeClosed
    | Leave

  datatype AgentAct = Advance | Visit(key: nat) | EndSweep

  datatype Action =
    | Arrive(replay: bool)          // a public Invoke, or one replayed by the reconnect path
    | MarkEnded(reason: Reason)
    | SetState(target: ConnState)   // Close, setFatal, the supervisors
    | LoseConnection
    | Dispatch(num: nat)
    | CloseMark
    | ByCall(c: nat, call: CallAct)
    | ByAgent(a: nat, agent: AgentAct)

  predicate CallEnabled(s: State, c: nat, act: CallAct) {
    && c < |s.calls|
    && var call := s.calls[c];
       match act
       case CheckFlag => call.pc == Begin
       case CheckState => call.pc == PastFlag
       case Alloc => call.pc == Ready
       case Store => call.pc == Allocated
       case PreCheck => call.pc == Stored
       case Lock => call.pc == WantLock && s.writeLock == None
       case LockedCheck => call.pc == HoldsLock
       case Write(_) => call.pc == Writing
       case TimerFires => call.timer == Armed
       case TimerClaims => call.timer == Fired
       case TimerSends => call.timer == TimerOwes
       case Receive => (call.pc == Waiting || call.pc == Grace) && call.inbox != []
       case CtxEnds => call.pc == Waiting
       case GraceEnds => call.pc == Grace
       case SeeClosed => call.pc == Waiting && s.closed
       case Leave => call.pc.Leaving?
  }

  predicate AgentEnabled(s: State, a: nat, act: AgentAct) {
    && a < |s.agents|
    && var pc := s.agents[a].pc;
       match act
       case Visit(key) => pc.Sweeping? && (key in pc.todo || key in s.table)
       case EndSweep => pc.Sweeping? && pc.todo == {}
       case Advance =>
         match pc
         case SetWant(_) => s.genLock == None
         case Cas => s.agents[a].reason.Some?
         case StoreFailed => s.agents[a].reason.Some?
         case Record => s.agents[a].reason.Some?
         case Holding(_, _, t) => t < |s.calls|
         case Take(key) => key in s.table ==> s.table[key] < |s.calls|
         case SweepOwes(_, t) => t < |s.calls|
         case Owes(t) => t < |s.calls|
         case Sweeping(_) => false
         case Finished => false
         case _ => true
  }

  predicate Enabled(s: State, a: Action) {
    match a
    case Arrive(_) => true
    case MarkEnded(_) => true
    case SetState(target) => !Final(target)
    case LoseConnection => true
    case Dispatch(_) => true
    case CloseMark => !s.closed && s.genLock == None
    case ByCall(c, act) => CallEnabled(s, c, act)
    case ByAgent(g, act) => AgentEnabled(s, g, act)
  }

  function SetCall(s: State, c: nat, call: Call): State
    requires c < |s.calls|
  {
    s.(calls := s.calls[c := call])
  }

  function SetPc(s: State, c: nat, pc: CallPc): State
    requires c < |s.calls|
  {
    SetCall(s, c, s.calls[c].(pc := pc))
  }

  function SetAgent(s: State, a: nat, pc: AgentPc): State
    requires a < |s.agents|
  {
    s.(agents := s.agents[a := s.agents[a].(pc := pc)])
  }

  // A call's entry leaves the table, removed by `who`.
  function Remove(s: State, key: nat, c: nat, call: Call, who: Claimant): State
    requires c < |s.calls|
  {
    SetCall(s, c, call.(claimed := Some(who))).(table := s.table - {key})
  }

  // Returning from the wait stops a timer that has not fired.
  function StopTimer(t: TimerPc): TimerPc {
    if t == Armed then TimerDone else t
  }

  function CallApply(s: State, c: nat, act: CallAct): State
    requires CallEnabled(s, c, act)
  {
    var call := s.calls[c];
    match act
    case CheckFlag => SetPc(s, c, if s.flag then Returned(LocallyEnded) else PastFlag)
    case CheckState => SetPc(s, c, if s.state != Connected then Returned(NotConnected) else Ready)
    case Alloc =>
      var n := Bump(s.counter);
      var s1 := s.(counter := n, bumps := s.bumps + 1);
      if n == 0 then s1 else SetCall(s1, c, call.(pc := Allocated, num := n))
    case Store => SetPc(s, c, Stored).(table := s.table[call.num := c])
    case PreCheck => SetPc(s, c, if s.flag then Leaving(LocallyEnded) else WantLock)
    case Lock => SetPc(s, c, HoldsLock).(writeLock := Some(c))
    case LockedCheck =>
      if s.flag then SetPc(s, c, Leaving(LocallyEnded)).(writeLock := None)
      else SetCall(s, c, call.(pc := Writing, passed := true))
    case Write(ok) =>
      if ok then SetCall(s, c, call.(pc := Waiting, timer := Armed)).(writeLock := None, wire := s.wire + [c])
      else SetPc(s, c, Leaving(WriteFailed)).(writeLock := None)
    case TimerFires => SetCall(s, c, call.(timer := Fired))
    case TimerClaims =>
      if call.num in s.table then Remove(s, call.num, c, call.(timer := TimerOwes), Timer)
      else SetCall(s, c, call.(timer := TimerDone))
    case TimerSends => SetCall(s, c, call.(timer := TimerDone, inbox := call.inbox + [TimedOut]))
    case Receive => SetCall(s, c, call.(pc := Leaving(call.inbox[0]), timer := StopTimer(call.timer)))
    case CtxEnds =>
      if call.num in s.table then Remove(s, call.num, c, call.(pc := Leaving(Cancelled), timer := StopTimer(call.timer)), Context)
      else SetPc(s, c, Grace)
    case GraceEnds => SetCall(s, c, call.(pc := Leaving(GraceExpired), timer := StopTimer(call.timer)))
    case SeeClosed => SetCall(s, c, call.(pc := Leaving(SessionClosed), timer := StopTimer(call.timer)))
    case Leave =>
      if call.num in s.table then Remove(s, call.num, c, call.(pc := Returned(call.pc.out)), Return)
      else SetPc(s, c, Returned(call.pc.out))
  }

  function Deliver(s: State, c: nat, out: Outcome): State
    requires c < |s.calls|
  {
    SetCall(s, c, s.calls[c].(inbox := s.calls[c].inbox + [out]))
  }

  // setState refuses to leave a final state, and to leave Disconnected once closed.
  predicate Refused(s: State, target: ConnState) {
    !Final(target) && (s.flag || (s.closed && target != Disconnected))
  }

  // What follows setState: a marker goes on to its sweep.
  function AfterSet(target: ConnState): AgentPc {
    if Final(target) then StartSweep else Finished
  }

  function SweepOutcome(ag: Agent): Outcome {
    if ag.reason.Some? then Settled(ag.reason.value) else ConnectionLost
  }

  function Advanced(s: State, a: nat): State
    requires AgentEnabled(s, a, Advance)
  {
    var ag := s.agents[a];
    match ag.pc
    case Cas =>
      if s.flag then SetAgent(s, a, Finished)
      else SetAgent(s, a, StoreFailed).(flag := true, winner := Some(a), wireAtFlag := |s.wire|)
    case StoreFailed => SetAgent(s, a, Record).(failed := s.failed || !EndsNormally(ag.reason.value))
    case Record => SetAgent(s, a, SetWant(FinalOf(ag.reason.value))).(reason := ag.reason)
    case SetWant(target) => SetAgent(s, a, SetCheck(target)).(genLock := Some(a))
    case SetCheck(target) =>
      if Refused(s, target) then SetAgent(s, a, AfterSet(target)).(genLock := None) else SetAgent(s, a, SetStore(target))
    case SetStore(target) => SetAgent(s, a, AfterSet(target)).(genLock := None, state := target)
    case StartSweep => SetAgent(s, a, Sweeping(s.table.Keys))
    case Sweeping(_) => s
    case Holding(todo, key, target) =>
      if key in s.table then SetAgent(Remove(s, key, target, s.calls[target], Loop(a)), a, SweepOwes(todo, target))
      else SetAgent(s, a, Sweeping(todo))
    case SweepOwes(todo, target) => SetAgent(Deliver(s, target, SweepOutcome(ag)), a, Sweeping(todo))
    case Take(key) =>
      if key in s.table then
        var target := s.table[key];
        SetAgent(Remove(s, key, target, s.calls[target], Loop(a)), a, Owes(target))
      else SetAgent(s, a, Finished)
    case Owes(target) => SetAgent(Deliver(s, target, Answered), a, Finished)
    case Finished => s
  }

  function AgentApply(s: State, a: nat, act: AgentAct): State
    requires AgentEnabled(s, a, act)
  {
    match act
    case Advance => Advanced(s, a)
    case Visit(key) =>
      var todo := s.agents[a].pc.todo - {key};
      SetAgent(s, a, if key in s.table then Holding(todo, key, s.table[key]) else Sweeping(todo))
    case EndSweep => SetAgent(s, a, Finished)
  }

  function Apply(s: State, a: Action): State
    requires Enabled(s, a)
  {
    match a
    case Arrive(replay) => s.(calls := s.calls + [Call(if replay then Ready else Begin, 0, false, Off, None, [])])
    case MarkEnded(r) => s.(agents := s.agents + [Agent(Some(r), Cas)])
    case SetState(target) => s.(agents := s.agents + [Agent(None, SetWant(target))])
    case LoseConnection => s.(agents := s.agents + [Agent(None, StartSweep)])
    case Dispatch(n) => s.(agents := s.agents + [Agent(None, Take(n))])
    case CloseMark => s.(closed := true)
    case ByCall(c, act) => CallApply(s, c, act)
    case ByAgent(g, act) => AgentApply(s, g, act)
  }

  predicate Step(s: State, a: Action, s': State) {
    Enabled(s, a) && s' == Apply(s, a)
  }

  ghost predicate Execution(states: seq<State>, acts: seq<Action>) {
    && |states| == |acts| + 1
    && states[0] == Init()
    && forall i :: 0 <= i < |acts| ==> Step(states[i], acts[i], states[i + 1])
  }

  // ---------------------------------------------------------------------------------------------
  // The inductive invariant
  // ---------------------------------------------------------------------------------------------

  predicate HoldsGen(pc: AgentPc) {
    pc.SetCheck? || pc.SetStore?
  }

  predicate HoldsWrite(pc: CallPc) {
    pc.HoldsLock? || pc.Writing?
  }

  predicate GenLockInv(genLock: Option<nat>, agents: seq<Agent>) {
    && (forall a :: 0 <= a < |agents| ==> (HoldsGen(agents[a].pc) <==> genLock == Some(a)))
    && (genLock.Some? ==> genLock.value < |agents|)
  }

  predicate WriteLockInv(writeLock: Option<nat>, calls: seq<Call>) {
    && (forall c :: 0 <= c < |calls| ==> (HoldsWrite(calls[c].pc) <==> writeLock == Some(c)))
    && (writeLock.Some? ==> writeLock.value < |calls|)
  }

  predicate BeforeCheck(pc: CallPc) {
    pc.Begin? || pc.PastFlag? || pc.Ready? || pc.Allocated? || pc.Stored? || pc.WantLock? || pc.HoldsLock?
  }

  predicate CallsInv(calls: seq<Call>) {
    forall c :: 0 <= c < |calls| ==>
      && (BeforeCheck(calls[c].pc) ==> !calls[c].passed)
      && (calls[c].pc == Writing || calls[c].pc == Waiting || calls[c].pc == Grace ==> calls[c].passed)
  }

  // A marker that has not lost the race.
  predicate Marking(ag: Agent) {
    ag.reason.Some? && ag.pc != Cas && ag.pc != Finished
  }

  // How far the marker with reason r has come is how much of the terminal state is in place.
  predicate Progress(pc: AgentPc, r: Reason, failed: bool, reason: Option<Reason>, state: ConnState) {
    match pc
    case StoreFailed => !failed && reason == None && !Final(state)
    case Record => failed == !EndsNormally(r) && reason == None && !Final(state)
    case SetWant(t) => failed == !EndsNormally(r) && reason == Some(r) && !Final(state) && t == FinalOf(r)
    case SetCheck(t) => failed == !EndsNormally(r) && reason == Some(r) && !Final(state) && t == FinalOf(r)
    case SetStore(t) => failed == !EndsNormally(r) && reason == Some(r) && !Final(state) && t == FinalOf(r)
    case _ => failed == !EndsNormally(r) && reason == Some(r) && state == FinalOf(r)
  }

  predicate TerminalInv(flag: bool, winner: Option<nat>, failed: bool, reason: Option<Reason>, state: ConnState, agents: seq<Agent>) {
    && (flag <==> winner.Some?)
    && (winner == None ==> !failed && reason == None && !Final(state))
    && (winner.Some? ==>
          && winner.value < |agents| && agents[winner.value].reason.Some?
          && agents[winner.value].pc != Cas && !agents[winner.value].pc.Take? && !agents[winner.value].pc.Owes?
          && Progress(agents[winner.value].pc, agents[winner.value].reason.value, failed, reason, state))
  }

  // Only the winner works on the terminal state; any other state writer is still under the lock it checked in.
  predicate AgentsInv(agents: seq<Agent>, winner: Option<nat>, state: ConnState) {
    forall a :: 0 <= a < |agents| ==>
      && (Marking(agents[a]) ==> winner == Some(a))
      && (agents[a].reason == None ==> AgentOk(agents[a].pc, state))
  }

  predicate AgentOk(pc: AgentPc, state: ConnState) {
    && (pc.SetWant? || pc.SetCheck? || pc.SetStore? ==> !Final(pc.target))
    && (pc.SetStore? ==> !Final(state))
    && !pc.Cas? && !pc.StoreFailed? && !pc.Record?
  }

  // The keys the sweep has still to deal with.
  function Pending(pc: AgentPc): set<nat> {
    match pc
    case Sweeping(todo) => todo
    case Holding(todo, key, _) => todo + {key}
    case SweepOwes(todo, _) => todo
    case _ => {}
  }

  predicate SweepStarted(pc: AgentPc) {
    pc.Sweeping? || pc.Holding? || pc.SweepOwes? || pc.Finished?
  }

  predicate TableInv(table: map<nat, nat>, calls: seq<Call>) {
    forall k :: k in table ==> table[k] < |calls|
  }

  // What wrote, or may still write, is on the winner's list.
  predicate SweepInv(winner: Option<nat>, agents: seq<Agent>, table: map<nat, nat>, calls: seq<Call>) {
    winner.Some? && winner.value < |agents| && SweepStarted(agents[winner.value].pc) ==>
      forall k :: k in table && table[k] < |calls| && calls[table[k]].passed ==> k in Pending(agents[winner.value].pc)
  }

  predicate WireInv(flag: bool, wire: seq<nat>, wireAtFlag: nat, writeLock: Option<nat>, calls: seq<Call>) {
    && (forall i :: 0 <= i < |wire| ==> wire[i] < |calls| && calls[wire[i]].passed)
    && (flag ==> wireAtFlag <= |wire| && |wire| + PastCheck(writeLock, calls) <= wireAtFlag + 1)
  }

  // 1 if the holder of the write lock is past the in-lock check.
  function PastCheck(writeLock: Option<nat>, calls: seq<Call>): nat {
    if writeLock.Some? && writeLock.value < |calls| && calls[writeLock.value].pc == Writing then 1 else 0
  }

  predicate InboxInv(calls: seq<Call>, reason: Option<Reason>) {
    forall c, i :: 0 <= c < |calls| && 0 <= i < |calls[c].inbox| && calls[c].inbox[i].Settled? ==>
      reason == Some(calls[c].inbox[i].reason)
  }

  predicate Inv(s: State) {
    && GenLockInv(s.genLock, s.agents)
    && WriteLockInv(s.writeLock, s.calls)
    && CallsInv(s.calls)
    && TerminalInv(s.flag, s.winner, s.failed, s.reason, s.state, s.agents)
    && AgentsInv(s.agents, s.winner, s.state)
    && TableInv(s.table, s.calls)
    && SweepInv(s.winner, s.agents, s.table, s.calls)
    && WireInv(s.flag, s.wire, s.wireAtFlag, s.writeLock, s.calls)
    && InboxInv(s.calls, s.reason)
  }

  // ---------------------------------------------------------------------------------------------
  // Who settles whom, as long as no call stores its entry under the number of one that is still about
  // ---------------------------------------------------------------------------------------------

  // The call has stored its entry.
  predicate Entered(call: Call) {
    call.num != 0 && call.pc != Allocated
  }

  // The call has returned, and its timer will not look for its entry any more.
  predicate Left(call: Call) {
    call.pc.Returned? && call.timer != Armed && call.timer != Fired
  }

  // Call c has left, and no sweep will look for its entry any more.
  predicate Departed(c: nat, call: Call, agents: seq<Agent>) {
    && Left(call)
    && forall a :: 0 <= a < |agents| ==> !(agents[a].pc.Holding? && agents[a].pc.callee == c)
  }

  // Whoever stored an entry under the number of call c before has departed.
  predicate FreshNumber(s: State, c: nat)
    requires c < |s.calls|
  {
    forall d :: 0 <= d < |s.calls| && d != c && Entered(s.calls[d]) && s.calls[d].num == s.calls[c].num ==>
      Departed(d, s.calls[d], s.agents)
  }

  predicate StoresFresh(s: State, a: Action) {
    a.ByCall? && a.call.Store? && a.c < |s.calls| ==> FreshNumber(s, a.c)
  }

  // Up to state i, no call stored its entry under the number of one that was still about.
  predicate FreshRun(states: seq<State>, acts: seq<Action>, i: nat)
    requires i <= |acts| && i <= |states|
  {
    forall k :: 0 <= k < i ==> StoresFresh(states[k], acts[k])
  }

  predicate EntriesInv(table: map<nat, nat>, calls: seq<Call>) {
    forall k :: k in table ==> table[k] < |calls| && InTable(k, calls[table[k]])
  }

  predicate InTable(k: nat, call: Call) {
    call.num == k && Entered(call) && call.claimed == None
  }

  predicate ClaimsInv(calls: seq<Call>, table: map<nat, nat>) {
    forall c :: 0 <= c < |calls| ==> ClaimInv(calls[c]) && StoredInv(c, calls[c], table)
  }

  predicate StoredInv(c: nat, call: Call, table: map<nat, nat>) {
    Entered(call) && call.claimed == None ==> call.num in table && table[call.num] == c
  }

  // The entry under the number of a call that is still about is its own.
  predicate OwnInv(table: map<nat, nat>, calls: seq<Call>, agents: seq<Agent>) {
    forall c :: 0 <= c < |calls| && Entered(calls[c]) && !Departed(c, calls[c], agents) && calls[c].num in table ==>
      table[calls[c].num] == c
  }

  predicate ClaimInv(call: Call) {
    && (if Entered(call)
        then !(call.pc.Begin? || call.pc.PastFlag? || call.pc.Ready?) && (call.pc.Returned? ==> call.claimed.Some?)
        else call.claimed == None && call.timer == Off
             && (call.pc in {Begin, PastFlag, Ready, Allocated, Returned(LocallyEnded), Returned(NotConnected)})
             && (call.pc == Allocated <==> call.num != 0))
    && (match call.claimed
        case None => call.inbox == [] && call.timer != TimerOwes
        case Some(Timer) => if call.timer == TimerOwes then call.inbox == [] else call.inbox == [TimedOut]
        case Some(Loop(_)) => |call.inbox| <= 1 && call.timer != TimerOwes
        case Some(Context) => call.inbox == [] && call.timer != TimerOwes && call.pc in {Leaving(Cancelled), Returned(Cancelled)}
        case Some(Return) => call.inbox == [] && call.timer != TimerOwes && call.pc.Returned?)
    && (call.pc == Waiting && call.claimed == None ==> call.timer in {Armed, Fired})
    && (call.pc == Grace ==> call.claimed.Some?)
    && (call.timer != Off ==> call.pc == Waiting || call.pc == Grace || call.pc.Leaving? || call.pc.Returned?)
  }

  predicate DebtsInv(agents: seq<Agent>, calls: seq<Call>) {
    forall a :: 0 <= a < |agents| ==> DebtInv(a, agents[a], calls)
  }

  predicate DebtInv(a: nat, ag: Agent, calls: seq<Call>) {
    match ag.pc
    case Take(_) => ag.reason == None
    case Owes(t) => Owed(a, t, calls) && ag.reason == None
    case SweepOwes(_, t) => Owed(a, t, calls)
    case Holding(_, k, t) => t < |calls| && calls[t].num == k && Entered(calls[t])
    case _ => true
  }

  // Agent a has removed the entry of call t and not yet delivered.
  predicate Owed(a: nat, t: nat, calls: seq<Call>) {
    t < |calls| && calls[t].claimed == Some(Loop(a)) && calls[t].inbox == []
  }

  predicate ServedInv(calls: seq<Call>, agents: seq<Agent>) {
    forall c :: 0 <= c < |calls| ==> Served(c, calls[c], agents)
  }

  predicate OwesTo(pc: AgentPc, c: nat) {
    (pc.Owes? || pc.SweepOwes?) && pc.callee == c
  }

  // An undelivered claim by an agent is that agent's current business; a marker delivers its reason.
  predicate Served(c: nat, call: Call, agents: seq<Agent>) {
    call.claimed.Some? && call.claimed.value.Loop? ==>
      && call.claimed.value.a < |agents|
      && var ag := agents[call.claimed.value.a];
         if call.inbox == [] then OwesTo(ag.pc, c) else (ag.reason.Some? ==> call.inbox == [Settled(ag.reason.value)])
  }

  predicate SettleInv(s: State) {
    && EntriesInv(s.table, s.calls)
    && ClaimsInv(s.calls, s.table)
    && OwnInv(s.table, s.calls, s.agents)
    && DebtsInv(s.agents, s.calls)
    && ServedInv(s.calls, s.agents)
  }

  // ---------------------------------------------------------------------------------------------
  // The numbers
  // ---------------------------------------------------------------------------------------------

  // A number is drawn at most once.
  predicate DistinctNumbers(calls: seq<Call>) {
    forall c, d :: 0 <= c < d < |calls| && calls[c].num != 0 ==> calls[c].num != calls[d].num
  }

  // The counter, as long as it has not handed out a number twice.
  predicate CounterInv(s: State) {
    && s.bumps <= SEQ_WIDTH && s.counter == s.bumps % SEQ_WIDTH
    && DistinctNumbers(s.calls)
    && forall c :: 0 <= c < |s.calls| ==> s.calls[c].num <= s.bumps && s.calls[c].num < SEQ_WIDTH
  }
}
