/**
 The network-migration glue under a KCP session: a hot-swappable socket with generations. Readers, one writer, whoever
 asks for a switch, the switch loop and `Close` interleave; one action is one atomic access or critical section.
 Sockets are numbered in the order they were dialled; time is a clock that only moves forward.
 */
module NetMigrate {
  import opened Basics

  // ---------------------------------------------------------------------------------------------
  // State
  // ---------------------------------------------------------------------------------------------

  datatype Config = Config(window: nat, idleSwitch: nat, idleDead: nat, swallowMax: nat, retryBase: nat, edgeHello: bool)

  datatype Endpoint = Endpoint(sock: nat, gen: nat)

  datatype DeadReason = DeadIdle | DeadSwallow

  // Why a socket operation failed: the socket had been closed on this side, the deadline passed, or the network failed.
  datatype Cause = SelfClosed | Deadline | Network

  datatype ReadResult = Data | Closed | Dead(reason: DeadReason) | Failure(ep: Endpoint, cause: Cause)

  datatype ReaderPc =
    | ReadEntry
    | LoopTop
    | SnapEp
    | SeenEp(ep: Endpoint)
    | Blocked(ep: Endpoint)
    | ReadFailed(ep: Endpoint, cause: Cause)
    | NotClosed(ep: Endpoint, cause: Cause)
    | StillCurrent(ep: Endpoint, cause: Cause)
    | Timers(now: nat)
    | ReadMarking
    | ReadNoting
    | GotData
    | ReadDone(res: ReadResult)

  // `begunDead`: the operation began when the flow was already dead.
  datatype Reader = Reader(begunDead: bool, pc: ReaderPc)

  datatype WriteResult = Written | Swallowed | Surfaced | WriteClosed | WriteDead(reason: DeadReason)

  datatype WriterPc =
    | WriteIdle
    | WriteEntry
    | WriteSnap
    | WriteSeen(ep: Endpoint)
    | WriteCall(ep: Endpoint)
    | WriteFailed
    | AskSwitch
    | AskLocked(now: nat)
    | ReadClock
    | CheckWindow(now: nat)
    | CountSwallow
    | TouchSince(n: nat)
    | Judge(n: nat, now: nat, since: nat)
    | WriteMarking
    | WriteNoting
    | WriteDone(res: WriteResult)

  // `sock` is the socket its write failed on and `cause` why; `at` is the clock it then compared with the window, `start` the
  // switch start it compared it with.
  datatype Writer = Writer(begunDead: bool, pc: WriterPc, at: nat, start: Option<nat>, sock: nat, cause: Cause)

  // Who won the CAS on the dead mark.
  datatype Marker = ByReader(r: nat) | ByWriter

  // One run of the switch loop: the migrations it has tried, the requests merged into it and when it was started.
  datatype LoopPc =
    | Dialing
    | Greeting(sock: nat)          // dialled, hello not yet answered
    | Refused(sock: nat)           // hello failed, socket to be closed
    | NoteFailure
    | Dialled(sock: nat)
    | Aborting(sock: nat)          // closed meanwhile, socket to be closed
    | CloseOld(prev: nat)
    | ResetBudget
    | ClearSince
    | NoteSwitch
    | Decide(ok: bool)
    | BackOff
    | Finishing
    | LoopDone

  datatype Loop = Loop(pc: LoopPc, attempts: nat, merged: nat, start: nat)

  datatype ClosePc = NotClosing | CloseMarked | CloseSeen(ep: Endpoint) | CloseCancelled(ep: Endpoint) | CloseDone

  datatype State = State(
    cfg: Config,
    clock: nat,
    closes: seq<nat>,          // how often each socket has been closed
    cur: Endpoint,
    closed: bool,
    closing: ClosePc,
    switching: bool,
    pending: bool,
    cancelled: bool,
    windowStart: Option<nat>,
    lastSwitchAt: Option<nat>,
    swallowSince: Option<nat>,
    loops: seq<Loop>,
    starts: set<nat>,          // when a switch loop was started
    retired: map<nat, nat>,    // the sockets a loop replaced and closed, with the start of that loop
    switches: nat,             // migrations noted as successful
    swallowed: nat,
    dead: Option<DeadReason>,
    marker: Option<Marker>,
    deadNotes: nat,
    lastRecv: nat,
    lastWrite: nat,
    readers: seq<Reader>,
    writer: Writer,
    signals: seq<Option<nat>>) // requests that have read the clock, not yet handled

  function Init(cfg: Config, now: nat): State {
    State(cfg, now, [0], Endpoint(0, 1), false, NotClosing, false, false, false, None, None, None, [], {}, map[], 0, 0, None,
          None, 0, now, now, [], Writer(false, WriteIdle, 0, None, 0, Network), [])
  }

  // ---------------------------------------------------------------------------------------------
  // Steps
  // ---------------------------------------------------------------------------------------------

  // What the outside world answers: a socket call succeeds or fails for some cause, a packet is for this flow or not.
  datatype Answer = Good | Bad(cause: Cause)

  datatype Action =
    | Tick(d: nat)
    | ReadBegins
    | ReadStep(r: nat, answer: Answer)
    | WriteBegins
    | WriteStep(answer: Answer)
    | SignalArrives
    | SignalHandled(i: nat)
    | LoopStep(ok: bool)
    | CloseBegins
    | CloseStep

  predicate Open(s: State, sock: nat) {
    sock < |s.closes| && s.closes[sock] == 0
  }

  // A socket closed on this side fails with SelfClosed and nothing else; an open one never fails that way.
  predicate Possible(s: State, sock: nat, answer: Answer) {
    if Open(s, sock) then answer != Bad(SelfClosed) else answer == Bad(SelfClosed)
  }

  predicate ReadEnabled(s: State, r: nat, answer: Answer) {
    && r < |s.readers|
    && match s.readers[r].pc
       case Blocked(ep) => Possible(s, ep.sock, answer)
       case ReadNoting => s.dead.Some?
       case ReadDone(_) => false
       case _ => true
  }

  predicate WriteEnabled(s: State, answer: Answer) {
    match s.writer.pc
    case WriteIdle => false
    case WriteDone(_) => false
    case WriteCall(ep) => Possible(s, ep.sock, answer)
    case _ => true
  }

  predicate Live(s: State) {
    |s.loops| > 0 && s.loops[|s.loops| - 1].pc != LoopDone
  }

  function LastPc(loops: seq<Loop>): LoopPc {
    if |loops| > 0 then loops[|loops| - 1].pc else LoopDone
  }

  predicate LoopEnabled(s: State) {
    && Live(s)
    && match LastPc(s.loops)
       case Refused(x) => x < |s.closes|
       case Aborting(x) => x < |s.closes|
       case CloseOld(x) => x < |s.closes|
       case _ => true
  }

  predicate CloseEnabled(s: State) {
    match s.closing
    case NotClosing => false
    case CloseDone => false
    case CloseCancelled(ep) => ep.sock < |s.closes|
    case _ => true
  }

  predicate Enabled(s: State, a: Action) {
    match a
    case Tick(_) => true
    case ReadBegins => true
    case ReadStep(r, answer) => ReadEnabled(s, r, answer)
    case WriteBegins => s.writer.pc.WriteIdle? || s.writer.pc.WriteDone?
    case WriteStep(answer) => WriteEnabled(s, answer)
    case SignalArrives => !s.closed
    case SignalHandled(i) => i < |s.signals| && s.signals[i].Some?
    case LoopStep(_) => LoopEnabled(s)
    case CloseBegins => !s.closed
    case CloseStep => CloseEnabled(s)
  }

  function Shut(s: State, sock: nat): State
    requires sock < |s.closes|
  {
    s.(closes := s.closes[sock := s.closes[sock] + 1])
  }

  // requestSwitch under its lock: merge into a running loop, drop within the debounce interval, or start a loop.
  function HandleRequest(s: State, now: nat): State {
    if s.switching then
      var last := |s.loops| - 1;
      if last < 0 then s.(pending := true)
      else s.(pending := true, loops := s.loops[last := s.loops[last].(merged := s.loops[last].merged + 1)])
    else if s.lastSwitchAt.Some? && now - s.lastSwitchAt.value < s.cfg.retryBase then s
    else
      s.(switching := true, pending := true, windowStart := Some(now), starts := s.starts + {now}, cancelled := false,
         loops := s.loops + [Loop(Dialing, 1, 0, now)])
  }

  // The CAS on `dead`, won.
  function MarkDead(s: State, reason: DeadReason, who: Marker): State {
    s.(dead := Some(reason), marker := Some(who))
  }

  function SetReader(s: State, r: nat, pc: ReaderPc): State
    requires r < |s.readers|
  {
    s.(readers := s.readers[r := s.readers[r].(pc := pc)])
  }

  function ReadApply(s: State, r: nat, answer: Answer): State
    requires ReadEnabled(s, r, answer)
  {
    match s.readers[r].pc
    case ReadEntry => SetReader(s, r, if s.dead.Some? then ReadDone(Dead(s.dead.value)) else LoopTop)
    case LoopTop => SetReader(s, r, if s.dead.Some? then ReadDone(Dead(s.dead.value)) else SnapEp)
    case SnapEp => SetReader(s, r, SeenEp(s.cur))
    case SeenEp(ep) => SetReader(s, r, if s.closed then ReadDone(Closed) else Blocked(ep))
    case Blocked(ep) => SetReader(s, r, if answer.Good? then GotData else ReadFailed(ep, answer.cause))
    case ReadFailed(ep, cause) => SetReader(s, r, if s.closed then ReadDone(Closed) else NotClosed(ep, cause))
    case NotClosed(ep, cause) => SetReader(s, r, if s.cur != ep then LoopTop else StillCurrent(ep, cause))
    case StillCurrent(ep, cause) =>
      SetReader(s, r, if cause == Deadline then Timers(s.clock) else ReadDone(Failure(ep, cause)))
    case Timers(now) =>
      if now - s.lastRecv > s.cfg.idleDead then SetReader(s, r, ReadMarking)
      else if now - s.lastRecv > s.cfg.idleSwitch && now - s.lastWrite <= s.cfg.idleSwitch && !s.closed then
        SetReader(s, r, LoopTop).(signals := s.signals + [Some(s.clock)])
      else SetReader(s, r, LoopTop)
    case ReadMarking =>
      if s.dead == None then SetReader(MarkDead(s, DeadIdle, ByReader(r)), r, ReadNoting)
      else SetReader(s, r, ReadDone(Dead(s.dead.value)))
    case ReadNoting => SetReader(s, r, ReadDone(Dead(s.dead.value))).(deadNotes := s.deadNotes + 1)
    // A packet for another flow is dropped and the loop goes on.
    case GotData =>
      SetReader(s, r, if s.closed then ReadDone(Closed) else if answer.Good? then ReadDone(Data) else LoopTop).(lastRecv := s.clock)
    case ReadDone(_) => s
  }

  function SetWriter(s: State, pc: WriterPc): State {
    s.(writer := s.writer.(pc := pc))
  }

  function WriteApply(s: State, answer: Answer): State
    requires WriteEnabled(s, answer)
  {
    match s.writer.pc
    case WriteIdle => s
    case WriteEntry => SetWriter(s, if s.dead.Some? then WriteDone(WriteDead(s.dead.value)) else WriteSnap)
    case WriteSnap => SetWriter(s, WriteSeen(s.cur))
    case WriteSeen(ep) => SetWriter(s, if s.closed then WriteDone(WriteClosed) else WriteCall(ep))
    case WriteCall(ep) =>
      if answer.Good? then SetWriter(s, WriteDone(Written)).(lastWrite := s.clock)
      else s.(writer := s.writer.(pc := WriteFailed, sock := ep.sock, cause := answer.cause))
    case WriteFailed => SetWriter(s, if s.closed then WriteDone(WriteClosed) else AskSwitch)
    case AskSwitch => SetWriter(s, if s.closed then ReadClock else AskLocked(s.clock))
    case AskLocked(now) => SetWriter(HandleRequest(s, now), ReadClock)
    case ReadClock => SetWriter(s, CheckWindow(s.clock))
    case CheckWindow(now) =>
      var within := s.windowStart.Some? && now - s.windowStart.value <= s.cfg.window;
      s.(writer := s.writer.(pc := if within then CountSwallow else WriteDone(Surfaced), at := now, start := s.windowStart))
    case CountSwallow => SetWriter(s, TouchSince(s.swallowed + 1)).(swallowed := s.swallowed + 1)
    case TouchSince(n) =>
      var since := if s.swallowSince.Some? then s.swallowSince.value else s.clock;
      SetWriter(s, Judge(n, s.clock, since)).(swallowSince := Some(since))
    case Judge(n, now, since) =>
      SetWriter(s, if n > s.cfg.swallowMax || now - since > 2 * s.cfg.window then WriteMarking else WriteDone(Swallowed))
    case WriteMarking =>
      if s.dead == None then SetWriter(MarkDead(s, DeadSwallow, ByWriter), WriteNoting) else SetWriter(s, WriteDone(Swallowed))
    case WriteNoting => SetWriter(s, WriteDone(Swallowed)).(deadNotes := s.deadNotes + 1)
    case WriteDone(_) => s
  }

  function SetLoop(s: State, pc: LoopPc): State
    requires Live(s)
  {
    s.(loops := s.loops[|s.loops| - 1 := s.loops[|s.loops| - 1].(pc := pc)])
  }

  // `ok` is the answer of the dial, of the hello, or of the back-off (woken rather than cancelled).
  function LoopApply(s: State, ok: bool): State
    requires LoopEnabled(s)
  {
    var last := |s.loops| - 1;
    match LastPc(s.loops)
    case Dialing =>
      if ok then
        var sock := |s.closes|;
        SetLoop(s, if s.cfg.edgeHello then Greeting(sock) else Dialled(sock)).(closes := s.closes + [0])
      else SetLoop(s, NoteFailure)
    case Greeting(sock) => SetLoop(s, if ok then Dialled(sock) else Refused(sock))
    case Refused(sock) => SetLoop(Shut(s, sock), NoteFailure)
    case NoteFailure => SetLoop(s, Decide(false)).(lastSwitchAt := Some(s.clock))
    case Dialled(sock) =>
      if s.closed then SetLoop(s, Aborting(sock))
      else SetLoop(s, CloseOld(s.cur.sock)).(cur := Endpoint(sock, s.cur.gen + 1))
    case Aborting(sock) => SetLoop(Shut(s, sock), Decide(false))
    case CloseOld(prev) =>
      SetLoop(Shut(s, prev), ResetBudget).(lastRecv := s.clock, retired := s.retired[prev := s.loops[last].start])
    case ResetBudget => SetLoop(s, ClearSince).(swallowed := 0)
    case ClearSince => SetLoop(s, NoteSwitch).(swallowSince := None, lastSwitchAt := Some(s.clock))
    case NoteSwitch => SetLoop(s, Decide(true)).(switches := s.switches + 1)
    case Decide(good) =>
      if good || !s.pending then SetLoop(s, Finishing).(pending := false)
      else if s.closed then SetLoop(s, Finishing)
      else SetLoop(s, BackOff).(pending := false)
    case BackOff =>
      if !ok && s.cancelled then SetLoop(s, Finishing)
      else s.(loops := s.loops[last := s.loops[last].(pc := Dialing, attempts := s.loops[last].attempts + 1)])
    case Finishing => SetLoop(s, LoopDone).(switching := false, cancelled := false)
    case LoopDone => s
  }

  function CloseApply(s: State): State
    requires CloseEnabled(s)
  {
    match s.closing
    case NotClosing => s
    case CloseMarked => s.(closing := CloseSeen(s.cur))
    case CloseSeen(ep) => s.(closing := CloseCancelled(ep), cancelled := s.switching)
    case CloseCancelled(ep) => Shut(s, ep.sock).(closing := CloseDone)
    case CloseDone => s
  }

  function Apply(s: State, a: Action): State
    requires Enabled(s, a)
  {
    match a
    case Tick(d) => s.(clock := s.clock + d)
    case ReadBegins => s.(readers := s.readers + [Reader(s.dead.Some?, ReadEntry)])
    case ReadStep(r, answer) => ReadApply(s, r, answer)
    case WriteBegins => s.(writer := Writer(s.dead.Some?, WriteEntry, 0, None, 0, Network))
    case WriteStep(answer) => WriteApply(s, answer)
    case SignalArrives => s.(signals := s.signals + [Some(s.clock)])
    case SignalHandled(i) => HandleRequest(s, s.signals[i].value).(signals := s.signals[i := None])
    case LoopStep(ok) => LoopApply(s, ok)
    case CloseBegins => s.(closed := true, closing := CloseMarked)
    case CloseStep => CloseApply(s)
  }

  predicate Step(s: State, a: Action, s': State) {
    Enabled(s, a) && s' == Apply(s, a)
  }

  ghost predicate Execution(cfg: Config, now: nat, states: seq<State>, acts: seq<Action>) {
    && |states| == |acts| + 1
    && states[0] == Init(cfg, now)
    && forall i :: 0 <= i < |acts| ==> Step(states[i], acts[i], states[i + 1])
  }

  // ---------------------------------------------------------------------------------------------
  // The inductive invariant
  // ---------------------------------------------------------------------------------------------

  // The socket the switch loop holds besides the current one: freshly dialled, or just replaced.
  function Fresh(pc: LoopPc): Option<nat> {
    match pc
    case Greeting(x) => Some(x)
    case Refused(x) => Some(x)
    case Dialled(x) => Some(x)
    case Aborting(x) => Some(x)
    case _ => None
  }

  function Held(pc: LoopPc): Option<nat> {
    if pc.CloseOld? then Some(pc.prev) else Fresh(pc)
  }

  // Every socket is closed at most once, and the open ones are the current one and the one the loop holds.
  predicate SocketsInv(closes: seq<nat>, cur: Endpoint, pc: LoopPc, closing: ClosePc) {
    && cur.sock < |closes|
    && (forall x :: 0 <= x < |closes| ==>
          && closes[x] <= 1
          && (closes[x] == 0 <==> (x == cur.sock && closing != CloseDone) || Held(pc) == Some(x)))
    && (Fresh(pc).Some? ==> cur.sock < Fresh(pc).value < |closes|)
    && (pc.CloseOld? ==> pc.prev < cur.sock)
  }

  predicate CloseInv(closed: bool, closing: ClosePc, cur: Endpoint) {
    && (closed <==> closing != NotClosing)
    && (closing.CloseSeen? || closing.CloseCancelled? ==> closing.ep == cur)
  }

  // One loop at a time; its attempts are paid for by its own start and the requests merged into it.
  predicate LoopsInv(loops: seq<Loop>, switching: bool, pending: bool) {
    && (forall i :: 0 <= i < |loops| ==> loops[i].attempts <= 2 + loops[i].merged)
    && (forall i :: 0 <= i < |loops| - 1 ==> loops[i].pc == LoopDone)
    && (switching <==> LastPc(loops) != LoopDone)
    && (switching ==> Paid(loops[|loops| - 1], pending))
  }

  // The attempts made and those already certain to come.
  predicate Paid(loop: Loop, pending: bool) {
    loop.attempts + (if pending then 1 else 0) + (if loop.pc == BackOff then 1 else 0) <= 2 + loop.merged
  }

  // Installed but not yet noted.
  predicate Installed(pc: LoopPc) {
    pc.CloseOld? || pc.ResetBudget? || pc.ClearSince? || pc.NoteSwitch?
  }

  predicate GenInv(gen: nat, switches: nat, pc: LoopPc) {
    gen == 1 + switches + (if Installed(pc) then 1 else 0)
  }

  predicate StartsInv(windowStart: Option<nat>, starts: set<nat>, signals: seq<Option<nat>>, writer: Writer, clock: nat) {
    && (windowStart.Some? ==> windowStart.value in starts)
    && (forall t :: t in starts ==> t <= clock)
    && (forall i :: 0 <= i < |signals| && signals[i].Some? ==> signals[i].value <= clock)
    && (writer.pc.AskLocked? ==> writer.pc.now <= clock)
  }

  predicate ReadersInv(readers: seq<Reader>, cur: Endpoint, closes: seq<nat>, dead: Option<DeadReason>) {
    forall r :: 0 <= r < |readers| ==> ReaderInv(readers[r], cur, closes, dead)
  }

  // A snapshot is the current endpoint or an older one.
  predicate Seen(ep: Endpoint, cur: Endpoint) {
    ep == cur || ep.sock < cur.sock
  }

  predicate ReaderInv(rd: Reader, cur: Endpoint, closes: seq<nat>, dead: Option<DeadReason>) {
    && (rd.begunDead ==> dead.Some? && rd.pc in {ReadEntry, ReadDone(Dead(dead.value))})
    && (match rd.pc
        case SeenEp(ep) => Seen(ep, cur)
        case Blocked(ep) => Seen(ep, cur)
        case ReadFailed(ep, cause) => Seen(ep, cur) && (cause == SelfClosed ==> ep.sock < |closes| && closes[ep.sock] != 0)
        case NotClosed(ep, cause) => Seen(ep, cur) && (cause == SelfClosed ==> ep != cur)
        case StillCurrent(ep, cause) => cause != SelfClosed
        case ReadDone(Failure(_, cause)) => cause == Network
        case ReadDone(Dead(d)) => dead == Some(d)
        case _ => true)
  }

  predicate Within(pc: WriterPc) {
    pc in {WriteSnap, WriteFailed, AskSwitch, ReadClock, CountSwallow}
    || pc.WriteSeen? || pc.WriteCall? || pc.AskLocked? || pc.CheckWindow?
  }

  // With one writer, the swallowed errors since the last migration stay within the budget, and exceeding it marks death.
  predicate BudgetInv(writer: Writer, swallowed: nat, max: nat, dead: Option<DeadReason>) {
    && swallowed <= max + 1
    && (swallowed == max + 1 ==> dead.Some? || writer.pc == WriteMarking || Counting(writer.pc, max + 1))
    && (Within(writer.pc) ==> swallowed <= max)
    && (writer.begunDead ==> dead.Some? && writer.pc in {WriteEntry, WriteDone(WriteDead(dead.value))})
    && (writer.pc.WriteDone? && writer.pc.res.WriteDead? ==> dead == Some(writer.pc.res.reason))
  }

  predicate Counting(pc: WriterPc, n: nat) {
    (pc.TouchSince? && pc.n == n) || (pc.Judge? && pc.n == n)
  }

  predicate Swallowing(pc: WriterPc) {
    pc.CountSwallow? || pc.TouchSince? || pc.Judge? || pc.WriteMarking? || pc.WriteNoting? || pc == WriteDone(WriteResult.Swallowed)
  }

  predicate WindowInv(writer: Writer, starts: set<nat>, window: nat) {
    Swallowing(writer.pc) ==> writer.start.Some? && writer.start.value in starts && writer.at <= writer.start.value + window
  }

  // Death is marked once, and noted once by whoever marked it.
  predicate DeadInv(dead: Option<DeadReason>, marker: Option<Marker>, deadNotes: nat, readers: seq<Reader>, writer: Writer) {
    && (dead.Some? <==> marker.Some?)
    && deadNotes <= 1
    && (dead == None ==> deadNotes == 0)
    && (forall r :: 0 <= r < |readers| && readers[r].pc == ReadNoting ==> marker == Some(ByReader(r)) && deadNotes == 0)
    && (writer.pc == WriteNoting ==> marker == Some(ByWriter) && deadNotes == 0)
    && (marker == Some(ByWriter) && deadNotes == 0 ==> writer.pc == WriteNoting)
    && (marker.Some? && marker.value.ByReader? && deadNotes == 0 ==>
          marker.value.r < |readers| && readers[marker.value.r].pc == ReadNoting)
  }

  predicate Inv(s: State) {
    && SocketsInv(s.closes, s.cur, LastPc(s.loops), s.closing)
    && CloseInv(s.closed, s.closing, s.cur)
    && LoopsInv(s.loops, s.switching, s.pending)
    && GenInv(s.cur.gen, s.switches, LastPc(s.loops))
    && StartsInv(s.windowStart, s.starts, s.signals, s.writer, s.clock)
    && ReadersInv(s.readers, s.cur, s.closes, s.dead)
    && BudgetInv(s.writer, s.swallowed, s.cfg.swallowMax, s.dead)
    && WindowInv(s.writer, s.starts, s.cfg.window)
    && DeadInv(s.dead, s.marker, s.deadNotes, s.readers, s.writer)
  }

  // ---------------------------------------------------------------------------------------------
  // Write errors the flow inflicts on itself
  // ---------------------------------------------------------------------------------------------

  // The switch that retired a socket did not start later than the last one, nor later than any that may yet start.
  predicate RetiredInv(retired: map<nat, nat>, windowStart: Option<nat>, lastSwitchAt: Option<nat>, pc: LoopPc) {
    forall x :: x in retired ==>
      && windowStart.Some? && retired[x] <= windowStart.value
      && (pc == ResetBudget || pc == ClearSince || (lastSwitchAt.Some? && retired[x] <= lastSwitchAt.value))
  }

  // Retired sockets are closed.
  predicate RetiredClosed(retired: map<nat, nat>, closes: seq<nat>) {
    forall x :: x in retired ==> x < |closes| && closes[x] > 0
  }

  // The window is that of the running loop.
  predicate RunningInv(loops: seq<Loop>, windowStart: Option<nat>) {
    LastPc(loops) != LoopDone ==> windowStart == Some(loops[|loops| - 1].start)
  }

  // The socket is or was the current one.
  predicate Used(sock: nat, cur: Endpoint, retired: map<nat, nat>, pc: LoopPc) {
    sock == cur.sock || sock in retired || pc == CloseOld(sock)
  }

  // What a failed write knows of its socket: closed under an open flow, it was retired by a switch that did not start later
  // than the one whose window the writer looks at.
  predicate FailInv(writer: Writer, cur: Endpoint, retired: map<nat, nat>, pc: LoopPc, closed: bool) {
    match writer.pc
    case WriteSeen(ep) => Used(ep.sock, cur, retired, pc)
    case WriteCall(ep) => Used(ep.sock, cur, retired, pc)
    case WriteFailed => writer.cause == SelfClosed ==> closed || writer.sock in retired
    case AskSwitch => writer.cause == SelfClosed ==> writer.sock in retired
    case AskLocked(_) => writer.cause == SelfClosed ==> writer.sock in retired
    case ReadClock => writer.cause == SelfClosed ==> writer.sock in retired
    case CheckWindow(_) => writer.cause == SelfClosed ==> writer.sock in retired
    case _ => Compared(writer.pc) && writer.cause == SelfClosed ==> Since(writer, retired)
  }

  predicate Compared(pc: WriterPc) {
    Swallowing(pc) || pc == WriteDone(Surfaced)
  }

  predicate Since(writer: Writer, retired: map<nat, nat>) {
    writer.sock in retired && writer.start.Some? && retired[writer.sock] <= writer.start.value
  }

  // A writer passes up an error only past the window it looked at.
  predicate PastWindow(writer: Writer, window: nat) {
    writer.pc == WriteDone(Surfaced) && writer.start.Some? ==> writer.at > writer.start.value + window
  }

  predicate SurfaceInv(s: State) {
    && RetiredInv(s.retired, s.windowStart, s.lastSwitchAt, LastPc(s.loops))
    && RetiredClosed(s.retired, s.closes)
    && RunningInv(s.loops, s.windowStart)
    && FailInv(s.writer, s.cur, s.retired, LastPc(s.loops), s.closed)
    && PastWindow(s.writer, s.cfg.window)
  }
}
