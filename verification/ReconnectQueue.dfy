/**
 The reconnect queue of one client channel: every goroutine that touches it, one atomic step at a time.

 The machine interleaves callers of `invoke`, one queue-deadline watch per queued request, the connection
 supervisor (reconnect, session hook, drain), read loops that terminate the channel, and `Close`. A queued request
 is named by its ticket, the position at which it was queued.
 */
module ReconnectQueue {
  import opened Basics

  // ---------------------------------------------------------------------------------------------
  // State
  // ---------------------------------------------------------------------------------------------

  datatype Config = Config(queueSize: nat, hasHook: bool, autoReconnect: bool)

  datatype ConnState = Connected | Reconnecting | Disconnected

  datatype LockOwner = Free | ByCaller(caller: nat) | BySupervisor

  datatype Outcome =
    | TimedOut        // queue deadline
    | Cancelled       // the caller's context ended and the caller itself claimed the request
    | CtxError        // the drain found the context ended
    | GraceExpired    // the caller lost the claim and stopped waiting for the winner
    | ClosedError
    | QueueFull
    | Refused         // invokeOnce: still reconnecting
    | WriteFailed
    | Transmitted

  // The steps of invokeOnce up to the write.
  datatype OncePc = CheckState | CheckBypass | Snapshot | Ready(epoch: nat)

  datatype OnceMove = Go(next: OncePc) | Stop(out: Outcome)

  datatype CallPc =
    | Entered
    | PastBypass
    | HoldsLock
    | MayEnqueue
    | Enqueued(ticket: nat)
    | Awaiting(ticket: nat)
    | GraceWait(ticket: nat)
    | Once(pc: OncePc)
    | Returned(out: Outcome)

  // `gate` is the number of requests ever queued when this caller read Connected under the lock.
  datatype Call = Call(failFast: bool, pc: CallPc, ctxDone: bool, ticket: Option<nat>, gate: Option<nat>)

  datatype Claimant = Watch | Caller | DrainExpired | Drain | CloseSweep

  datatype WatchPc = Sleeping | Claiming | Sending | WatchDone

  // `sent` lists every value ever put into the request's result channel.
  datatype Request = Request(caller: nat, claimedBy: Option<Claimant>, sent: seq<Outcome>, watch: WatchPc)

  datatype SupPc =
    | Watching
    | ConnDied
    | ToReconnecting
    | Dialing(first: bool)
    | Installing(first: bool)
    | Installed(first: bool)
    | HookStart
    | HookRunning
    | HookEnd(ok: bool)
    | WantLock
    | CheckClosed
    | SetConnected
    | DrainPop
    | DrainCtx(t: nat)
    | DrainExpire(t: nat)
    | DrainExpireSend(t: nat)
    | DrainClaim(t: nat)
    | DrainOnce(t: nat, once: OncePc)
    | DrainSend(t: nat, out: Outcome)
    | Unlock
    | ToDisconnected
    | Exited

  datatype SweepPc = NoSweep | WaitGroup | SweepPop | SweepClaim(t: nat) | SweepSend(t: nat) | SweepEnd | Swept

  // One frame put on a connection: by the drain for a queued request, or by a caller directly.
  datatype Tx = Drained(ticket: nat, epoch: nat) | Direct(call: nat, epoch: nat)

  datatype State = State(
    cfg: Config,
    closed: bool,
    state: ConnState,
    owed: nat,             // how often `terminate` has still to store Disconnected
    bypass: bool,
    lock: LockOwner,
    lifecycleHeld: bool,
    epoch: nat,
    hooked: set<nat>,      // generations whose hook returned nil
    calls: seq<Call>,
    requests: seq<Request>,
    queue: seq<nat>,
    sup: SupPc,
    sweep: SweepPc,
    wire: seq<Tx>)

  function Init(cfg: Config): State {
    State(cfg, false, Connected, 0, false, Free, false, 1, {}, [], [], [], Watching, NoSweep, [])
  }

  // ---------------------------------------------------------------------------------------------
  // Steps
  // ---------------------------------------------------------------------------------------------

  datatype CallAct =
    | ReadBypass
    | TakeLock
    | ReadState
    | Enqueue
    | ReleaseLock
    | OnceStep(writeOk: bool)
    | CtxEnds
    | Receive
    | CancelClaim
    | GiveUp
    | SeeClosed

  datatype WatchAct = Wakes | Closes | Claims | Sends

  // `ok` is the answer of the dial, the hook or the write, where the step asks for one.
  datatype Action =
    | Arrive(failFast: bool)
    | ByCall(c: nat, call: CallAct)
    | ByWatch(t: nat, watch: WatchAct)
    | ConnectionEnds
    | SupervisorStops
    | SupStep(ok: bool)
    | Terminate
    | StoreDisconnected
    | CloseBegins
    | SweepStep

  predicate Available(s: State, t: nat) {
    t < |s.requests| && s.requests[t].sent != []
  }

  // The next step of invokeOnce; `writeOk` is the connection's answer to the write.
  function OnceNext(s: State, pc: OncePc, writeOk: bool): OnceMove {
    match pc
    case CheckState => if s.state == Reconnecting then Go(CheckBypass) else Go(Snapshot)
    case CheckBypass => if s.bypass then Go(Snapshot) else Stop(Refused)
    case Snapshot => if s.closed then Stop(ClosedError) else Go(Ready(s.epoch))
    case Ready(_) => Stop(if writeOk then Transmitted else WriteFailed)
  }

  predicate SupEnabled(s: State) {
    match s.sup
    case Watching => false
    case Exited => false
    case Installing(_) => s.lock == Free
    case WantLock => s.lock == Free
    case Dialing(_) => !s.lifecycleHeld
    case DrainExpire(t) => t < |s.requests|
    case DrainExpireSend(t) => t < |s.requests|
    case DrainClaim(t) => t < |s.requests|
    case DrainSend(t, _) => t < |s.requests|
    case _ => true
  }

  predicate SweepEnabled(s: State) {
    match s.sweep
    case NoSweep => false
    case WaitGroup => s.sup == Exited
    case SweepPop => true
    case SweepClaim(t) => t < |s.requests|
    case SweepSend(t) => t < |s.requests|
    case SweepEnd => true
    case Swept => false
  }

  predicate CallEnabled(s: State, c: nat, act: CallAct) {
    && c < |s.calls|
    && var pc := s.calls[c].pc;
       match act
       case ReadBypass => pc == Entered
       case TakeLock => pc == PastBypass && s.lock == Free
       case ReadState => pc == HoldsLock
       case Enqueue => pc == MayEnqueue
       case ReleaseLock => pc.Enqueued?
       case OnceStep(_) => pc.Once?
       case CtxEnds => true
       case Receive => (pc.Awaiting? || pc.GraceWait?) && Available(s, pc.ticket)
       case CancelClaim => pc.Awaiting? && s.calls[c].ctxDone && pc.ticket < |s.requests|
       case GiveUp => pc.GraceWait?
       case SeeClosed => pc.Awaiting? && s.closed
  }

  predicate WatchEnabled(s: State, t: nat, act: WatchAct) {
    && t < |s.requests|
    && match act
       case Wakes => s.requests[t].watch == Sleeping
       case Closes => s.requests[t].watch == Sleeping && s.closed
       case Claims => s.requests[t].watch == Claiming
       case Sends => s.requests[t].watch == Sending
  }

  predicate Enabled(s: State, a: Action) {
    match a
    case Arrive(_) => true
    case ByCall(c, act) => CallEnabled(s, c, act)
    case ByWatch(t, act) => WatchEnabled(s, t, act)
    case ConnectionEnds => s.sup == Watching
    case SupervisorStops => s.sup == Watching && s.closed
    case SupStep(_) => SupEnabled(s)
    case Terminate => !s.lifecycleHeld
    case StoreDisconnected => s.owed > 0
    case CloseBegins => !s.lifecycleHeld && !s.closed
    case SweepStep => SweepEnabled(s)
  }

  function SetPc(s: State, c: nat, pc: CallPc): State
    requires c < |s.calls|
  {
    s.(calls := s.calls[c := s.calls[c].(pc := pc)])
  }

  function SetRequest(s: State, t: nat, r: Request): State
    requires t < |s.requests|
  {
    s.(requests := s.requests[t := r])
  }

  predicate Unclaimed(s: State, t: nat)
    requires t < |s.requests|
  {
    s.requests[t].claimedBy == None
  }

  // The CAS on `claimed`, won by `who`.
  function Claim(s: State, t: nat, who: Claimant): State
    requires t < |s.requests|
  {
    SetRequest(s, t, s.requests[t].(claimedBy := Some(who)))
  }

  function Send(s: State, t: nat, out: Outcome): State
    requires t < |s.requests|
  {
    SetRequest(s, t, s.requests[t].(sent := s.requests[t].sent + [out]))
  }

  function CallApply(s: State, c: nat, act: CallAct): State
    requires CallEnabled(s, c, act)
  {
    var pc := s.calls[c].pc;
    match act
    case ReadBypass => SetPc(s, c, if s.bypass || s.calls[c].failFast then Once(CheckState) else PastBypass)
    case TakeLock => SetPc(s, c, HoldsLock).(lock := ByCaller(c))
    case ReadState =>
      if s.state == Reconnecting then SetPc(s, c, MayEnqueue)
      else
        var gate := if s.state == Connected then Some(|s.requests|) else None;
        s.(calls := s.calls[c := s.calls[c].(pc := Once(CheckState), gate := gate)], lock := Free)
    case Enqueue =>
      if |s.queue| < s.cfg.queueSize then
        var t := |s.requests|;
        s.(calls := s.calls[c := s.calls[c].(pc := Enqueued(t), ticket := Some(t))],
           requests := s.requests + [Request(c, None, [], Sleeping)],
           queue := s.queue + [t])
      else SetPc(s, c, Returned(QueueFull)).(lock := Free)
    case ReleaseLock => SetPc(s, c, Awaiting(pc.ticket)).(lock := Free)
    case OnceStep(ok) =>
      (match OnceNext(s, pc.pc, ok)
       case Go(next) => SetPc(s, c, Once(next))
       case Stop(out) =>
         var s1 := SetPc(s, c, Returned(out));
         if out == Transmitted then s1.(wire := s.wire + [Direct(c, OnceEpoch(pc.pc))]) else s1)
    case CtxEnds => s.(calls := s.calls[c := s.calls[c].(ctxDone := true)])
    case Receive => SetPc(s, c, Returned(s.requests[pc.ticket].sent[0]))
    case CancelClaim =>
      if Unclaimed(s, pc.ticket) then SetPc(Claim(s, pc.ticket, Caller), c, Returned(Cancelled))
      else SetPc(s, c, GraceWait(pc.ticket))
    case GiveUp => SetPc(s, c, Returned(GraceExpired))
    case SeeClosed =>
      SetPc(s, c, Returned(if Available(s, pc.ticket) then s.requests[pc.ticket].sent[0] else ClosedError))
  }

  function WatchApply(s: State, t: nat, act: WatchAct): State
    requires WatchEnabled(s, t, act)
  {
    var r := s.requests[t];
    match act
    case Wakes => SetRequest(s, t, r.(watch := Claiming))
    case Closes => SetRequest(s, t, r.(watch := WatchDone))
    case Claims =>
      SetRequest(s, t, if Unclaimed(s, t) then r.(claimedBy := Some(Watch), watch := Sending) else r.(watch := WatchDone))
    case Sends => SetRequest(s, t, r.(sent := r.sent + [TimedOut], watch := WatchDone))
  }

  function Apply(s: State, a: Action): State
    requires Enabled(s, a)
  {
    match a
    case Arrive(ff) =>
      s.(calls := s.calls + [Call(ff, if s.closed then Returned(ClosedError) else Entered, false, None, None)])
    case ByCall(c, act) => CallApply(s, c, act)
    case ByWatch(t, act) => WatchApply(s, t, act)
    case ConnectionEnds => s.(sup := ConnDied)
    case SupervisorStops => s.(sup := Exited)
    case SupStep(ok) => SupApply(s, ok)
    case Terminate => s.(closed := true, owed := s.owed + 1)
    case StoreDisconnected => s.(state := Disconnected, owed := s.owed - 1)
    case CloseBegins => s.(closed := true, sweep := WaitGroup)
    case SweepStep => SweepApply(s)
  }

  function OnceEpoch(pc: OncePc): nat {
    if pc.Ready? then pc.epoch else 0
  }

  // One step of the supervisor. `ok` is the answer of the dial, the hook or the write, where one is asked.
  function SupApply(s: State, ok: bool): State
    requires SupEnabled(s)
  {
    match s.sup
    case Watching => s
    case Exited => s
    case ConnDied => s.(sup := if s.closed then Exited else if s.cfg.autoReconnect then ToReconnecting else ToDisconnected)
    case ToReconnecting => s.(state := Reconnecting, sup := Dialing(true))
    // Back off and dial; a closed channel gives up, otherwise the lifecycle lock is kept until setConn is done.
    case Dialing(first) =>
      if s.closed then s.(sup := ToDisconnected)
      else if ok then s.(sup := Installing(first), lifecycleHeld := true)
      else s
    case Installing(first) => s.(sup := Installed(first), epoch := s.epoch + 1, lifecycleHeld := false)
    case Installed(first) =>
      if s.closed then s.(sup := if first then Exited else ToDisconnected)
      else s.(sup := if s.cfg.hasHook then HookStart else WantLock)
    case HookStart => s.(bypass := true, sup := HookRunning)
    case HookRunning => s.(sup := HookEnd(ok), hooked := if ok then s.hooked + {s.epoch} else s.hooked)
    case HookEnd(good) => s.(bypass := false, sup := if good then WantLock else Dialing(false))
    case WantLock => s.(lock := BySupervisor, sup := CheckClosed)
    case CheckClosed =>
      if s.closed then s.(lock := Free, sup := ToDisconnected) else s.(sup := SetConnected)
    case SetConnected => s.(state := Connected, sup := DrainPop)
    case DrainPop =>
      if s.queue == [] then s.(sup := Unlock) else s.(queue := s.queue[1..], sup := DrainCtx(s.queue[0]))
    case DrainCtx(t) => s.(sup := if CtxEnded(s, t) then DrainExpire(t) else DrainClaim(t))
    case DrainExpire(t) =>
      if Unclaimed(s, t) then Claim(s, t, DrainExpired).(sup := DrainExpireSend(t))
      else s.(sup := DrainPop)
    case DrainExpireSend(t) => Send(s, t, CtxError).(sup := DrainPop)
    case DrainClaim(t) =>
      if Unclaimed(s, t) then Claim(s, t, Drain).(sup := DrainOnce(t, CheckState))
      else s.(sup := DrainPop)
    case DrainOnce(t, pc) =>
      (match OnceNext(s, pc, ok)
       case Go(next) => s.(sup := DrainOnce(t, next))
       case Stop(out) =>
         var s1 := s.(sup := DrainSend(t, out));
         if out == Transmitted then s1.(wire := s.wire + [Drained(t, OnceEpoch(pc))]) else s1)
    case DrainSend(t, out) => Send(s, t, out).(sup := DrainPop)
    case Unlock => s.(lock := Free, sup := Watching)
    case ToDisconnected => s.(state := Disconnected, sup := Exited)
  }

  predicate CtxEnded(s: State, t: nat) {
    t < |s.requests| && s.requests[t].caller < |s.calls| && s.calls[s.requests[t].caller].ctxDone
  }

  function SweepApply(s: State): State
    requires SweepEnabled(s)
  {
    match s.sweep
    case NoSweep => s
    case WaitGroup => s.(sweep := SweepPop)
    case SweepPop =>
      if s.queue == [] then s.(sweep := SweepEnd) else s.(queue := s.queue[1..], sweep := SweepClaim(s.queue[0]))
    case SweepClaim(t) =>
      if Unclaimed(s, t) then Claim(s, t, CloseSweep).(sweep := SweepSend(t))
      else s.(sweep := SweepPop)
    case SweepSend(t) => Send(s, t, ClosedError).(sweep := SweepPop)
    case SweepEnd => s.(state := Disconnected, sweep := Swept)
    case Swept => s
  }

  predicate Step(s: State, a: Action, s': State) {
    Enabled(s, a) && s' == Apply(s, a)
  }

  // A run: states.Last is reached from the first connection by the listed steps.
  ghost predicate Execution(cfg: Config, states: seq<State>, acts: seq<Action>) {
    && |states| == |acts| + 1
    && states[0] == Init(cfg)
    && forall i :: 0 <= i < |acts| ==> Step(states[i], acts[i], states[i + 1])
  }

  // ---------------------------------------------------------------------------------------------
  // The inductive invariant
  // ---------------------------------------------------------------------------------------------

  // The supervisor is inside the critical section that ends with the drain.
  predicate SupHolds(sup: SupPc) {
    sup.CheckClosed? || sup.SetConnected? || Draining(sup) || sup.Unlock?
  }

  predicate Draining(sup: SupPc) {
    sup.DrainPop? || HoldsTicket(sup)
  }

  predicate HoldsTicket(sup: SupPc) {
    || sup.DrainCtx? || sup.DrainExpire? || sup.DrainExpireSend? || sup.DrainClaim? || sup.DrainOnce? || sup.DrainSend?
  }

  predicate CallHolds(pc: CallPc) {
    pc.HoldsLock? || pc.MayEnqueue? || pc.Enqueued?
  }

  // Requests queued so far minus requests still in the channel.
  function Popped(s: State): int {
    |s.requests| - |s.queue|
  }

  // The channel holds exactly the tickets not yet taken out, in order and within its capacity.
  predicate QueueInv(size: nat, queue: seq<nat>, total: nat) {
    && |queue| <= size
    && |queue| <= total
    && forall i :: 0 <= i < |queue| ==> queue[i] == total - |queue| + i
  }

  predicate SupLockInv(lock: LockOwner, sup: SupPc, lifecycleHeld: bool, bypass: bool) {
    && (lock == BySupervisor <==> SupHolds(sup))
    && (lifecycleHeld <==> sup.Installing?)
    && (bypass <==> sup.HookRunning? || sup.HookEnd?)
  }

  predicate CallLockInv(lock: LockOwner, calls: seq<Call>) {
    && (forall c :: 0 <= c < |calls| ==> (CallHolds(calls[c].pc) <==> lock == ByCaller(c)))
    && (lock.ByCaller? ==> lock.caller < |calls|)
  }

  predicate SweepInv(sweep: SweepPc, closed: bool, sup: SupPc) {
    && (sweep != NoSweep ==> closed)
    && (sweep != NoSweep && sweep != WaitGroup ==> sup == Exited)
    && (sup.Installing? ==> !closed)
  }

  // No caller is about to queue, and no request is queued, behind a connected state.
  predicate QueuersInv(state: ConnState, calls: seq<Call>) {
    forall c :: 0 <= c < |calls| && (calls[c].pc.MayEnqueue? || calls[c].pc.Enqueued?) ==> state != Connected
  }

  predicate ConnectedInv(state: ConnState, sup: SupPc, queue: seq<nat>) {
    && (state == Connected && !Draining(sup) ==> queue == [])
    && (sup == Unlock ==> queue == [])
  }

  // Callers and the requests they queued name each other.
  predicate CallsInv(calls: seq<Call>, requests: seq<Request>) {
    forall c :: 0 <= c < |calls| ==> CallOwns(c, calls[c], requests)
  }

  predicate CallOwns(c: nat, call: Call, requests: seq<Request>) {
    && (call.pc.Enqueued? || call.pc.Awaiting? || call.pc.GraceWait? ==> call.ticket == Some(call.pc.ticket))
    && (call.ticket.Some? ==>
          && call.ticket.value < |requests| && requests[call.ticket.value].caller == c
          && (call.pc.Enqueued? || call.pc.Awaiting? || call.pc.GraceWait? || call.pc.Returned?))
    && (call.pc == Returned(TimedOut) ==> call.ticket.Some? && requests[call.ticket.value].claimedBy == Some(Watch))
    && (call.pc == Returned(Cancelled) ==> call.ticket.Some? && requests[call.ticket.value].claimedBy == Some(Caller))
  }

  predicate OwnersInv(requests: seq<Request>, calls: seq<Call>) {
    forall t :: 0 <= t < |requests| ==> RequestOwned(t, requests[t], calls)
  }

  predicate RequestOwned(t: nat, r: Request, calls: seq<Call>) {
    && r.caller < |calls| && calls[r.caller].ticket == Some(t)
    && (r.claimedBy == Some(Caller) ==> calls[r.caller].pc == Returned(Cancelled))
  }

  // The supervisor or the close sweep has taken ticket t out of the channel and not yet settled it.
  predicate InHand(sup: SupPc, sweep: SweepPc, t: nat) {
    sup == DrainCtx(t) || sup == DrainExpire(t) || sup == DrainClaim(t) || sweep == SweepClaim(t)
  }

  // The winner of the claim on t still has to put its result into the channel.
  predicate Owing(sup: SupPc, sweep: SweepPc, t: nat, who: Claimant) {
    match who
    case DrainExpired => sup == DrainExpireSend(t)
    case Drain => (sup.DrainOnce? || sup.DrainSend?) && sup.t == t
    case CloseSweep => sweep == SweepSend(t)
    case _ => false
  }

  // What a winner may deliver.
  predicate Delivers(who: Claimant, out: Outcome) {
    match who
    case Watch => out == TimedOut
    case DrainExpired => out == CtxError
    case Drain => out in {Refused, ClosedError, WriteFailed, Transmitted}
    case CloseSweep => out == ClosedError
    case Caller => false
  }

  predicate RequestsInv(requests: seq<Request>, sup: SupPc, sweep: SweepPc, popped: int) {
    forall t :: 0 <= t < |requests| ==> RequestInv(t, requests[t], sup, sweep, popped)
  }

  predicate RequestInv(t: nat, r: Request, sup: SupPc, sweep: SweepPc, popped: int) {
    && (r.watch == Sending ==> r.claimedBy == Some(Watch) && r.sent == [])
    && (match r.claimedBy
        case None => r.sent == [] && (t < popped ==> InHand(sup, sweep, t))
        case Some(Watch) => if r.watch == Sending then r.sent == [] else r.sent == [TimedOut]
        case Some(Caller) => r.sent == []
        case Some(who) =>
          && t < popped
          && if Owing(sup, sweep, t, who) then r.sent == [] else |r.sent| == 1 && Delivers(who, r.sent[0]))
  }

  predicate HandInv(requests: seq<Request>, sup: SupPc, sweep: SweepPc, popped: int) {
    && (HoldsTicket(sup) ==> sup.t == popped - 1 && sup.t < |requests|)
    && (sweep.SweepClaim? || sweep.SweepSend? ==> sweep.t == popped - 1 && sweep.t < |requests|)
    && (sup.DrainCtx? || sup.DrainExpire? || sup.DrainClaim? ==> requests[sup.t].claimedBy in {None, Some(Watch), Some(Caller)})
    && (sup.DrainExpireSend? ==> requests[sup.t].claimedBy == Some(DrainExpired))
    && (sup.DrainOnce? || sup.DrainSend? ==> requests[sup.t].claimedBy == Some(Drain))
    && (sup.DrainSend? ==> Delivers(Drain, sup.out))
    && (sweep.SweepSend? ==> requests[sweep.t].claimedBy == Some(CloseSweep))
  }

  // Where the drain may put its next frame: tickets below this bound have had their chance.
  function DrainBound(s: State): int {
    if HoldsTicket(s.sup) && !s.sup.DrainSend? then Popped(s) - 1 else Popped(s)
  }

  predicate HookInv(cfg: Config, sup: SupPc, epoch: nat, hooked: set<nat>) {
    && 1 <= epoch
    && (forall e :: e in hooked ==> 1 <= e <= epoch)
    && (cfg.hasHook && (SupHolds(sup) || sup == WantLock || sup == HookEnd(true)) ==> epoch in hooked)
    && (sup.DrainOnce? && sup.once.Ready? ==> sup.once.epoch == epoch)
  }

  predicate DrainedInv(wire: seq<Tx>, requests: seq<Request>, bound: int) {
    forall i :: 0 <= i < |wire| && wire[i].Drained? ==>
      && wire[i].ticket < bound && wire[i].ticket < |requests|
      && requests[wire[i].ticket].claimedBy == Some(Drain)
  }

  predicate DrainEpochsInv(wire: seq<Tx>, cfg: Config, epoch: nat, hooked: set<nat>) {
    forall i :: 0 <= i < |wire| && wire[i].Drained? ==>
      1 <= wire[i].epoch <= epoch && (cfg.hasHook ==> wire[i].epoch in hooked)
  }

  predicate Fifo(wire: seq<Tx>) {
    forall i, j :: 0 <= i < j < |wire| && wire[i].Drained? && wire[j].Drained? ==> wire[i].ticket < wire[j].ticket
  }

  // A caller that read Connected under the lock has every earlier request settled by the drain behind it.
  predicate GatesInv(calls: seq<Call>, bound: int) {
    forall c :: 0 <= c < |calls| && calls[c].gate.Some? ==> calls[c].gate.value <= bound
  }

  predicate GateWireInv(wire: seq<Tx>, calls: seq<Call>) {
    && (forall i :: 0 <= i < |wire| && wire[i].Direct? ==>
          wire[i].call < |calls| && calls[wire[i].call].pc.Returned?)
    && (forall i, j ::
          (0 <= i < j < |wire| && wire[i].Direct? && wire[j].Drained? && wire[i].call < |calls|
           && calls[wire[i].call].gate.Some?)
          ==> calls[wire[i].call].gate.value <= wire[j].ticket)
  }

  predicate Inv(s: State) {
    && QueueInv(s.cfg.queueSize, s.queue, |s.requests|)
    && SupLockInv(s.lock, s.sup, s.lifecycleHeld, s.bypass)
    && CallLockInv(s.lock, s.calls)
    && SweepInv(s.sweep, s.closed, s.sup)
    && QueuersInv(s.state, s.calls)
    && ConnectedInv(s.state, s.sup, s.queue)
    && CallsInv(s.calls, s.requests)
    && OwnersInv(s.requests, s.calls)
    && RequestsInv(s.requests, s.sup, s.sweep, Popped(s))
    && HandInv(s.requests, s.sup, s.sweep, Popped(s))
    && HookInv(s.cfg, s.sup, s.epoch, s.hooked)
    && DrainedInv(s.wire, s.requests, DrainBound(s))
    && DrainEpochsInv(s.wire, s.cfg, s.epoch, s.hooked)
    && Fifo(s.wire)
    && GatesInv(s.calls, DrainBound(s))
    && GateWireInv(s.wire, s.calls)
  }
}
