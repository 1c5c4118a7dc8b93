# Atlas SDK for Go: verified models

The Atlas SDK lets a game client talk to its servers: a long-lived client channel that reconnects and queues calls
meanwhile, a direct session to one battle that ends once and for all, the glue that moves a KCP session to a new socket when
the network changes, and the frame format all of them speak. This project models those four parts in Dafny and proves what
they promise.

**Concurrent protocols** are state machines over values. One action is one atomic access, one channel operation or one
critical section of the program; two are joined only where no other goroutine can tell, as the generation and the closed flag
are in `Snapshot`, a write and the arming of its timer in `Write`, closing a socket and `touchRecv` in `CloseOld`. Every
goroutine has its own program counter; what the outside world answers (a dial, a write, a hook, a timer, the clock, the peer)
is a parameter of the action. Each protocol has three modules: the machine and its inductive invariant (`ReconnectQueue`), the
proof that every step keeps it (`ReconnectQueueInvariant`), and what follows for every run (`ReconnectQueueResults`).
`ReconnectQueueRuns` and its like hold runs that do happen; `NetMigrateFrames` and `SessionTerminalFrames` say what each kind
of step leaves alone. `Execution` is any finite run from the initial state; the results hold at every point of every run, for
any number of callers, generations, migrations and requests.

- `ReconnectQueue*`: callers of `invoke`, one deadline watch per queued request, the supervisor with its hook and drain, the
  closing sweep. A request is named by the position at which it was queued.
- `RequestMatching*`: the table of calls in flight, keyed by generation and 32-bit number; reply, timer, context and
  disconnect sweep race for each entry. `SequenceNumbers` has the counter behind the numbers.
- `SessionTerminal*`: requesters with their double check around the write lock, whoever finds the battle over and races to
  set the terminal flag, the sweep, and every other writer of the session state. `SessionSettling*` adds who settles whom.
- `NetMigrate*`: readers, the writer, switch requests, the switch loop and `Close`, over sockets that are open or closed.

**Sequential bodies** keep the program's form. `InvokeQueue`, `InflightTable`, `FlowConn` and `EndNotify` are classes whose
methods update fields in place with the program's loops and branches, each method's contract giving the whole new state.
`StreamFraming` and `Datagram` read and write connections in place; `PutHeader`, `Encode` and `BuildRequestBody` fill arrays;
`BinaryUvarint` and `WalkFields` are the decoder's loops. What is pure in the program is a function here.

Where a promise stops, the project says so exactly:

- in the client channel, whatever the peer sends, a call gets at most one result and a waiting call is not forgotten, as long as
  no call stores its entry under the key of one that is still about: that has not returned, has a timer yet to look at the
  table, or is held by a sweep (`FreshRun`). The condition is exact: as soon as one does, the run can go on so that
  it waits forgotten (`StaleKeyForgetsWaiter`). A reply reaches only its own call as long as no two calls draw the same number and the
  peer answers only requests it was sent (`HonestPeer`). 2^32 bumps of the counter keep all numbers apart
  (`BoundKeepsNumbersDistinct`); with one more there is a run that breaks each promise (`RequestMatchingRuns`). So it is with
  the calls a direct session settles, whose table knows no generations (`SessionSettlingResults`, `SessionSettlingRuns`);
- a stream cut short yields none of the cut frame, but the end looks like a clean one also when the cut falls exactly behind
  a header (`CutFrameYieldsNothing`);
- a direct session with a ticket of more than 192 bytes, which `Open` does not refuse and whose hello has room for 256, can
  build no request at all (`DirectRequestIsBuilt`);
- a write error that a migration itself causes is passed up when the migration takes longer than the window
  (`SelfInflictedWriteErrors`, `SelfInflictedWriteSurfaces`); a read error never is;
- a closed channel that is not connected stays down unless its supervisor was already past its last look at the closed flag
  (`ClosedStaysDown`), and in that case it can come up (`ClosedYetConnected`) and stay up until `terminate` is called again
  (`ClosedStaysUp`);
- the encoder checks only the length of a body, so what it sends is read back exactly when the header passes the checks and
  the length fits 32 bits (`DecodeMessageOfEncoded`).

The comment at `client/invoke.go:188` says that the closing sweep has claimed a request and sent its result by the time the
waiting caller sees the close; the code does not wait for that, and the model follows the code (`SeeClosed`).

## Model

| member | source | states |
|---|---|---|
| `ReconnectQueueInvariant.ExecutionInv` | client/invoke.go:63-197 | every state of every run satisfies the inductive invariant of the reconnect queue |
| `ReconnectQueueResults.NothingStranded` | client/invoke.go:93-111 | whenever genMu is free and the state is Connected the reconnect queue is empty, and it never exceeds its size |
| `ReconnectQueueResults.WaiterHasAServant` | client/invoke.go:148-197 | a waiting caller's request, if unclaimed, is in the queue or in the hands of the drain or sweep and has its deadline watch still to come, or the channel is closed and the caller can leave; if claimed, it is answered or owed an answer |
| `ReconnectQueueResults.AtMostOneResult` | client/queue.go:14-26 | of deadline watch, context, drain and closing sweep, only the winner of the claim sends, and at most one value reaches the capacity-1 channel |
| `ReconnectQueueResults.RunsOnlyGrow` | client/channel.go:178-188 | claims are final, results and frames are never withdrawn, generations only grow, and a closed channel installs none |
| `ReconnectQueueResults.AbandonedNeverTransmitted` | client/invoke.go:148-186 | a caller told "queue timeout" or "cancelled" through a claim never has its request transmitted by a drain, before or after |
| `ReconnectQueueResults.ExpiredNeverTransmitted` | client/invoke.go:411-417 | a request whose context has ended when the drain looks at it is never transmitted by any drain |
| `ReconnectQueueResults.LeftBehindNeverTransmitted` | client/invoke.go:187-195 | a request unclaimed when its caller leaves because the channel is closed is never transmitted by a drain, before or after |
| `ReconnectQueueResults.ClosedNeverTransmitted` | client/invoke.go:211-214 | once the channel is closed no drain transmits a request it has not transmitted yet, unless it had looked at the closed flag for it before |
| `ReconnectQueueResults.DrainPrecedesLaterCalls` | client/invoke.go:93-108 | a call that read Connected under the lock writes after every request queued before that reading that is ever drained |
| `ReconnectQueueResults.DrainAfterHook` | client/channel.go:250-277 | a drain transmits on the current generation, after its hook returned nil, while the supervisor holds the lock |
| `ReconnectQueueResults.DrainRefinesFifo` | client/invoke.go:407-428 | the frames written by drains are, in wire order, exactly the requests they claimed and wrote, in the order queued |
| `ReconnectQueueResults.DrainSettlesAll` | client/invoke.go:407-428 | when a drain leaves its critical section every request is claimed and those it claimed have their one result |
| `ReconnectQueueResults.ClosedStaysDown` | client/channel.go:262-276 | a closed channel that is not connected stays so, unless the supervisor had already looked at the closed flag |
| `ReconnectQueueResults.ClosedStaysUp` | client/heartbeat.go:100-110 | a closed channel found Connected with its supervisor gone and no store owed stays so until `terminate` is called again |
| `ReconnectQueueResults.BypassOnlyDuringHook` | client/channel.go:453-477 | hookBypass is set exactly while the supervisor waits for the session hook, and never while a drain runs; a hook that outlives its timeout, or that the session heartbeat starts, runs with it clear |
| `ReconnectQueueRuns.QueuedCallIsDrained` | client/invoke.go:407-428 | some run does queue a call, reconnect, drain it on generation 2 and return its result |
| `ReconnectQueueRuns.ClosedYetConnected` | client/channel.go:262-276 | some run leaves a terminated channel Connected with its supervisor gone and no store of Disconnected owed: `terminate` does not take genMu |
| `InvokeQueue.Channel.Enqueue` | client/invoke.go:117-144 | a request joins the end of a queue with room and is refused by a full one |
| `InvokeQueue.Channel.DrainOne` | client/invoke.go:411-425 | one queued request: claimed for good, at most one result, transmitted exactly if unclaimed with a live context |
| `InvokeQueue.Channel.DrainQueue` | client/invoke.go:407-428 | the drain transmits exactly the unclaimed requests with a live context, in order, and settles every one once |
| `InvokeQueue.Channel.FailAllQueued` | client/invoke.go:390-401 | closing fails every unclaimed request once and leaves the claimed ones alone |
| `RequestMatchingResults.AtMostOneResult` | client/invoke.go:274-310 | in every race of reply, timer, context and sweep, and whatever the peer sends, a call's capacity-1 channel receives at most one value, as long as no call stored its entry under the key of one still about (not returned, timer yet to look, or held by a sweep) |
| `RequestMatchingResults.ReplyCompletesItsOwnCall` | client/invoke.go:340-360 | over any number of generations a reply completes only the call whose frame it answers, provided that the peer answers only requests it was sent (`HonestPeer`) and no two calls drew the same number |
| `RequestMatchingResults.WaiterIsServed` | client/invoke.go:222-234 | whatever the peer sends, a waiting call has its result, is owed one by whoever took its entry, or is in the table with its timer running, as long as no call stored its entry under the key of one still about |
| `RequestMatchingResults.BoundKeepsNumbersDistinct` | client/channel.go:399-406 | while the counter was bumped at most 2^32 times no two calls share a number, and no call stores its entry under a key in use |
| `RequestMatchingResults.DistinctKeysAreFresh` | client/invoke.go:222-226 | if no two calls of one generation drew the same number, no call stored its entry under a key in use |
| `RequestMatchingRuns.AfterWrapReplyReachesStranger` | client/invoke.go:340-360 | with 2^32 + 1 bumps some run, with an honest peer, delivers one call's reply to another |
| `RequestMatchingRuns.AfterWrapTwoResults` | client/invoke.go:284-289 | with 2^32 + 1 bumps some run sends two values to one call: its slow timer takes a stranger's entry for its own |
| `RequestMatchingRuns.AfterWrapWaiterForgotten` | client/invoke.go:222-226 | with 2^32 + 1 bumps some run leaves a waiter with no entry, no result, nobody owing it one and its timer spent |
| `RequestMatchingRuns.StaleKeyForgetsWaiter` | client/invoke.go:222-226 | the condition is exact: whenever a call stores its entry under the key of one still about, some continuation leaves it waiting with no entry, no result, nobody owing it one and its timer spent |
| `SequenceNumbers.Counter.Next` | client/channel.go:399-406 | the n-th number handed out is the closed form `Number(n)`, never 0, across the wrap |
| `SequenceNumbers.NumbersCoincide` | client/channel.go:399-406 | two numbers are equal exactly when a multiple of 2^32 - 1 allocations lies between them |
| `SequenceNumbers.NumbersDistinct` | client/channel.go:399-406 | the first k numbers are pairwise different exactly when k <= 2^32 - 1 |
| `InflightTable.Inflight.Store` | client/invoke.go:222-226 | registering a call under its key |
| `InflightTable.Inflight.Delete` | client/invoke.go:226-226 | the deferred removal takes out whatever is under the key and nothing else |
| `InflightTable.Inflight.DispatchResponse` | client/invoke.go:340-360 | a reply of the wrong version or shape is fatal and reaches nobody; any other reaches exactly the call under its key and removes it |
| `InflightTable.Inflight.FailAllInflight` | client/invoke.go:366-386 | cancelling empties the table, each call getting exactly one result, not retryable exactly for a protocol error |
| `SessionTerminalResults.SweepLeavesNoWriter` | direct/session_invoke.go:81-102 | once the winner's sweep is finished no call that passed the in-lock check, and none that wrote, is in the table, then or later |
| `SessionSettlingResults.SweepSettlesEveryWriter` | direct/ended.go:107-130 | once the winner's sweep is finished every call that passed the in-lock check and has not left has its result, or is owed it by its timer or an agent that took its entry; as long as no call stored its entry under the number of one still about (not returned, timer yet to look, or held by a sweep) |
| `SessionSettlingResults.WinnerDeliversTheReason` | direct/session_invoke.go:211-235 | under the same condition every call the winner took out of the table has heard exactly the terminal status with the recorded reason |
| `SessionSettlingResults.AtMostOneResult` | direct/session_invoke.go:105-144 | under the same condition, in every race of answer, timer, context, lost connection and terminal sweep at most one value reaches a call's capacity-1 channel, sent by whoever took its entry |
| `SessionSettlingResults.WaiterIsServed` | direct/session_invoke.go:67-79 | under the same condition, at any time a waiting call has its result, is owed one, or is in the table with its timer running |
| `SessionSettlingResults.BoundKeepsNumbersDistinct` | direct/session_invoke.go:67-79 | while the counter was bumped at most 2^32 times no two calls of a session share a number, and no call stores its entry under one in use |
| `SessionSettlingRuns.AfterWrapTwoResults` | direct/session_invoke.go:105-144 | with 2^32 + 1 bumps some run sends two values to one call of a session |
| `SessionSettlingRuns.AfterWrapWriterUnsettled` | direct/ended.go:107-130 | with 2^32 + 1 bumps some run ends the battle, finishes the sweep and leaves a writer waiting that nobody will settle |
| `SessionSettlingRuns.StaleNumberForgetsWaiter` | direct/session_invoke.go:67-79 | the condition is exact while the battle goes on: whenever a call stores its entry under the number of one still about, some continuation leaves it waiting with no entry, no result, nobody owing it one and its timer spent |
| `SessionTerminalResults.TerminalStateAgrees` | direct/ended.go:107-130 | final state, failed mark and recorded reason agree with one another and with the winner's reason |
| `SessionTerminalResults.AtMostOneFrameAfterFlag` | direct/session_invoke.go:94-99 | after the flag is set at most one more frame reaches the wire |
| `SessionTerminalRuns.OneFrameAfterFlag` | direct/session_invoke.go:94-99 | the bound of one frame after the flag is reached |
| `SessionTerminalResults.RunsOnlyGrow` | direct/ended.go:107-117 | flag, winner and reason are written once, and frames are never withdrawn |
| `SessionTerminalResults.FinalStateIsAbsorbing` | direct/session.go:259-277 | Ended and Failed are never overwritten by Close, reconnects or late state writes |
| `SessionTerminalResults.SettledWithTheReason` | direct/session_invoke.go:211-235 | a terminal result delivered to a caller names the recorded reason |
| `SessionTerminalResults.LateCallsAreRefused` | direct/session_invoke.go:25-51 | a request made after the flag is set never reaches the wire and can only return the local refusal |
| `EndNotify.Session.MarkEnded` | direct/ended.go:107-117 | the first reason wins and is kept; a failure mark only with a failing reason |
| `EndNotify.Session.NoteEndNotify` | direct/ended.go:137-155 | one end notification: first, replay or mismatch, and the session terminal unless the payload is empty |
| `EndNotify.Session.DispatchNotify` | direct/session_push.go:73-87 | one notification: unparsable ones dropped, broadcasts tracked, end notifications delivered only the first time |
| `EndNotify.Session.DispatchAll` | direct/session.go:180-195 | the read loop's notifications one after the other, as the fold `Run` |
| `EndNotify.FirstEndCounts` | direct/session_push.go:73-87 | for any sequence of notifications the first non-empty end is kept and delivered, later ones only counted (and counted apart if different), the session terminal exactly if there was one or it already was |
| `EndNotify.LastSeenIsGreatest` | direct/session_push.go:107-115 | the last frame seen is the greatest number broadcast, or the previous one |
| `NetMigrateResults.SocketsAccountedFor` | direct/netmigrate_switch.go:106-136 | every socket is closed at most once; between migrations exactly the current one is open; after Close and any migration none is |
| `NetMigrateResults.ClosedFreezesEndpoint` | direct/netmigrate.go:363-385 | once closed, the flow stays closed and its endpoint never changes |
| `NetMigrateResults.SelfInflictedErrorsStayInvisible` | direct/netmigrate.go:262-281 | an error a reader passes up is never one the flow caused by closing the socket, nor a timeout |
| `NetMigrateResults.SurfacedFailureWasCurrent` | direct/netmigrate.go:262-281 | an error a reader passes up is of a socket that was the current one after the read on it had failed |
| `NetMigrateRuns.ReaderSurvivesMigration` | direct/netmigrate.go:262-270 | some run does close the socket under a blocked reader, which goes on reading on the new one |
| `NetMigrateResults.SelfInflictedWriteErrors` | direct/netmigrate.go:299-336 | a write that failed on a socket a switch closed is passed up exactly when the clock, read after the writer's own request, is more than Window past the start of the latest switch, which is no earlier than the start of the one that closed the socket; otherwise it is swallowed |
| `NetMigrateRuns.SelfInflictedWriteSurfaces` | direct/netmigrate.go:299-336 | some run does pass one up on an open and living flow: a switch slower than Window closes the socket under a write |
| `NetMigrateResults.StaleReaderIsWoken` | direct/netmigrate_switch.go:124-127 | a reader blocked on a replaced socket: that socket is closed, or the running loop is about to close it |
| `NetMigrateResults.OneLoopAtATime` | direct/netmigrate_switch.go:41-102 | at most one switch loop is alive, and the generation is 1 plus the successful migrations |
| `NetMigrateResults.AttemptsAreBounded` | direct/netmigrate_switch.go:68-91 | one loop attempts at most 2 plus the number of requests merged into it |
| `NetMigrateResults.LoopEnds` | direct/netmigrate_switch.go:68-91 | a switch loop ends: while it lives its next step is possible, and until another is started it makes at most 19 steps plus 9 for each request merged meanwhile |
| `NetMigrateResults.SwallowBudget` | direct/netmigrate_dead.go:85-98 | between migrations at most SwallowMax + 1 write errors are swallowed, and past the limit the flow is dead once the writer is done |
| `NetMigrateResults.SwallowsAreCounted` | direct/netmigrate.go:299-336 | over any stretch without a reset, the failed writes reported as written are exactly those counted, up to the one in progress, and so within the budget |
| `NetMigrateResults.SwallowedWithinWindow` | direct/netmigrate.go:325-336 | a swallowed write error lies within Window of a switch that was started |
| `NetMigrateResults.DeathIsFinal` | direct/netmigrate_dead.go:61-67 | death is absorbing, keeps its first reason and is counted at most once |
| `NetMigrateResults.DeadFlowAnswersDeath` | direct/netmigrate.go:253-256 | a read or write begun on a dead flow returns the reason of its death |
| `FlowConn.FlowPacketConn.RequestSwitch` | direct/netmigrate_switch.go:41-65 | a request is merged, dropped or starts a loop, exactly as the debounce says |
| `FlowConn.FlowPacketConn.Migrate` | direct/netmigrate_switch.go:106-136 | a usable socket replaces the current one, which is closed; a failed or late attempt changes neither endpoint nor budget; no socket leaks |
| `FlowConn.FlowPacketConn.SwitchLoop` | direct/netmigrate_switch.go:68-102 | undisturbed, the loop tries once, and a second time exactly if the first fails on an open flow |
| `FlowConn.FlowPacketConn.MarkDead` | direct/netmigrate_dead.go:61-67 | the first reason is kept and counted once |
| `FlowConn.FlowPacketConn.NoteSwallowed` | direct/netmigrate_dead.go:85-98 | a swallowed error kills a living flow exactly past the count or past twice the window |
| `FlowConn.FlowPacketConn.OnWriteError` | direct/netmigrate.go:325-336 | a write error is swallowed exactly within the window of a switch, its own request's included |
| `FlowConn.FlowPacketConn.Close` | direct/netmigrate.go:363-385 | closing twice closes the socket once |
| `Bytes.GetPut` | frame/gen/codec_gen.go:77-85 | a big-endian number that fits its width is read back |
| `Bytes.PutGet` | frame/gen/codec_gen.go:118-125 | bytes read as a number are written back unchanged |
| `FrameCodec.PutHeader` | frame/gen/codec_gen.go:77-85 | the first 16 bytes become the header, the rest of the buffer stays |
| `FrameCodec.Encode` | frame/gen/codec_gen.go:95-111 | an oversized body is refused; any other is the header with defaults and length filled in, then the body |
| `FrameCodec.RawHeaderOfBytes` | frame/gen/codec_gen.go:114-130 | every header field is read back whatever follows |
| `FrameCodec.BytesOfRawHeader` | frame/gen/codec_gen.go:77-85 | writing back a header read changes only byte 7 |
| `FrameCodec.DecodeMessageOfEncoded` | frame/gen/codec_gen.go:149-164 | a sent frame is read back exactly when its filled header passes the checks and its length fits |
| `FrameCodec.EncodeOfDecodedMessage` | frame/gen/codec_gen.go:149-164 | an accepted message re-encodes to itself with only byte 7 zeroed |
| `FrameCodec.MessageIsExactDatagram` | frame/gen/codec_gen.go:134-164 | DecodeMessage accepts exactly what Decode accepts with no trailing bytes, and reads the same frame |
| `FrameCodec.DecodeIgnoresTail` | frame/gen/codec_gen.go:134-146 | every verdict of Decode but "incomplete" is independent of what follows |
| `FrameCodec.PrefixIsNoFrame` | frame/gen/codec_gen.go:134-164 | a strict prefix of a message is incomplete as a datagram and a protocol error as a message |
| `StreamFraming.ReadFull` | frame/frame.go:163-167 | a buffer is filled however the chunks fall, or the end is reported as clean or cut |
| `StreamFraming.ReadFrame` | frame/frame.go:146-173 | reading one frame in place yields `ReadOutcome` of the unread bytes and leaves the rest |
| `StreamFraming.WriteFrame` | frame/frame.go:102-134 | header and body writes together put exactly the encoded message on the stream |
| `StreamFraming.ReadLoop` | client/heartbeat.go:57-97 | reading until the first error yields `ReadStream` of the bytes |
| `StreamFraming.StreamSplits` | frame/frame.go:102-173 | any list of sendable frames written in a row is read back exactly, and reading goes on with what follows |
| `StreamFraming.CutFrameYieldsNothing` | frame/frame.go:146-159 | a strict prefix of a frame yields no frame; the end looks clean exactly at length 0 and 16 |
| `StreamFraming.CutStreamDeliversTheRest` | frame/frame.go:146-173 | a stream cut inside its last frame delivers exactly the others |
| `StreamFraming.StreamAgreesWithDatagram` | frame/frame.go:146-173 | the stream reader accepts what Decode accepts, and reads the same frame |
| `RequestBody.BuildRequestBody` | frame/body.go:38-74 | the first failing check, or the layout of the parts with the empty optional ones left out |
| `RequestBody.ParseIsLayout` | frame/body.go:105-141 | the parser accepts exactly the layouts with the parts announced by the flags, and reads those parts |
| `RequestBody.ParseOfBuilt` | frame/body.go:38-141 | a built body is parsed back exactly when the flags match the non-empty parts |
| `RequestBody.BuildOfParsed` | frame/body.go:38-141 | a parsed body is rebuilt byte for byte exactly when within the builder's limits and with no announced part empty |
| `Varint.BinaryUvarint` | frame/status.go:100-117 | the loop decodes exactly the varints ended within ten bytes, the tenth at most 1, and tells "ran out" from "too long" |
| `Varint.UvarintBounds` | frame/status.go:100-117 | a decoded value is below 2^64 and took one to ten bytes |
| `Varint.DecodeOfEncoded` | frame/status.go:100-117 | every 64-bit value is decoded from its encoding, whatever follows, in at most ten bytes |
| `Varint.EncodeOfDecoded` | frame/status.go:100-117 | an accepted varint is the shortest encoding exactly when it has no superfluous last zero byte |
| `Varint.CodeRoundTrip` | frame/status.go:17-18 | every int32, negative ones sign-extended to ten bytes, survives being sent and truncated |
| `StatusDecoding.WalkFields` | frame/status.go:49-82 | the loop with its callback is the fold of the callback over the parsed fields, nothing if any part is malformed |
| `StatusDecoding.FieldsConcat` | frame/status.go:49-82 | the fields of two messages in a row are those of the first, then those of the second |
| `StatusDecoding.WalkConcat` | frame/status.go:49-82 | walking two messages in a row is walking the second from where the first left off |
| `StatusDecoding.DecodeMapEntry` | frame/status.go:85-97 | a map entry is walked as a message of its own |
| `StatusDecoding.MapEntryIsLast` | frame/status.go:85-97 | an entry is its last key and its last value, each empty if missing; it fails exactly if it does not parse |
| `StatusDecoding.DecodeStatus` | frame/status.go:13-40 | the status is the walk of the message from the zero status |
| `StatusDecoding.FoldOverlays` | frame/status.go:15-35 | fields overlay the status with the last value of each scalar and each map key; only a malformed entry fails |
| `StatusDecoding.StatusMerges` | frame/status.go:13-40 | decoding a message followed by another overlays the first status with the second's fields |
| `StatusDecoding.UnknownFieldsAreSkipped` | frame/status.go:13-40 | unknown fields inserted at any field boundary change nothing |
| `StatusDecoding.FieldsOfEncoded` | frame/status.go:49-82 | every list of fields is read back from its encoding |
| `StatusDecoding.StatusRoundTrip` | frame/status.go:13-40 | every status is read back from its encoding, in whatever order its metadata was written |
| `Reply.SuccessIsBlock` | frame/reply.go:18-30 | the successes are exactly a zero byte and a block of data, with any tail |
| `Reply.FailureIsBlocks` | frame/reply.go:32-54 | the failures are exactly a non-zero byte, a decodable or empty status block and a data block, with any tail |
| `Reply.FailureRoundTrip` | frame/reply.go:32-54 | a failure sent with a status and data is read back as both |
| `Datagram.StripInvertsWrap` | direct/transport.go:272-288 | stripping yields a payload exactly from the datagram that wraps it, for every flow-id including 0 |
| `Datagram.ForeignIsDropped` | direct/hello.go:66-85 | a datagram with another flow-id is rejected by a flow whose id is not 0 |
| `Datagram.UdpConn.ReadFrame` | direct/transport.go:232-251 | the loop drops foreign datagrams and decodes the first of its own |
| `Datagram.UdpConn.WriteFrame` | direct/transport.go:254-266 | one frame goes out as one wrapped datagram, unless unencodable or too large |
| `Datagram.FrameIsRead` | direct/transport.go:232-266 | a frame of the flow is read behind any foreign datagrams, leaving what follows |
| `Datagram.RequestCrossesTheStack` | client/invoke.go:252-271 | any operation, session, request id and payload within limits is recovered by the reader from the frame's own flags, for every flow-id |
| `Datagram.DirectRequestCrossesTheStack` | direct/session_invoke.go:81-102 | for every ticket `Open` accepts whose slot fits, a direct request is read back through the whole stack, header, operation and payload, and the ticket is recovered from its slot |
| `Datagram.DirectRequestIsBuilt` | direct/session_invoke.go:85-88 | a direct request can be built exactly if the ticket has at most 192 bytes; a longer one gives `SessionTooLong` |
| `Datagram.DirectRequestNeedsTicket` | direct/session.go:124-126 | why `Open` must refuse an empty ticket: the slot is announced regardless, and the request would be read back exactly if the slot is not empty |
| `TicketSlot.SlotLength` | direct/hello.go:37-39 | the slot is a third longer than the ticket, rounded up |
| `TicketSlot.TicketOfSlot` | direct/hello.go:37-39 | every ticket is read back from its slot |

## Left out

- Concurrency inside the Go runtime: one action is one atomic access or critical section; data races on plain memory, and
  the memory model, are not part of this model.
- `sync.Map.Range`: a sweep visits at least every key that stays in the table throughout, in any order; this is assumed.
- The state machines are values, not objects: updating in place and aliasing are modelled only by the classes.
- The classes `InvokeQueue`, `InflightTable`, `FlowConn` and `EndNotify` state what each body does undisturbed; what other
  goroutines may do in between is the matter of the machines.
- Real time: timers fire at any moment, and the clock only moves forward. The one-second grace waits may end at any time,
  so a caller that lost its claim may return before the winner's result arrives.
- Liveness that depends on timeouts or on a fair scheduler.
- Sockets, dialling, TLS, WebSocket and KCP: a socket is an identity with the number of times it was closed, a stream is
  bytes in chunks of any size, a write to a stream does not fail.
- Serializers, protobuf reflection and the generated API: payloads are opaque bytes.
- Error texts and wrapping: an error is its kind.
- Cancelling is not limited to one generation (client/invoke.go:379), and neither model claims it is.
- `NetMigrateResults.SwallowBudget`: for one writer, as KCP has; the budget is not stated for concurrent writers.
- `NetMigrateResults.AttemptsAreBounded`: a request merged after the loop's last look may go unserved
  (direct/netmigrate_switch.go:76-79), and nothing is claimed about it.
- `EndNotify.Session.NoteEndNotify`: the counters do not wrap at 2^64.
- `EndNotify.LastSeenIsGreatest`: for one read loop; the load-compare-store of concurrent loops is not atomic.
- `StreamFraming.ReadLoop`: only the reading and its first error; what the loop does with a frame is modelled elsewhere.
- `InflightTable.Inflight.DispatchResponse`: the direct session's extra version whitelist {1, 2}, which its own version
  check implies, is not repeated.
- The handlers of notifications: dispatch hands a push to the subscribers, in order; which they are and how their goroutines
  interleave is not modelled.
- Reconnect rounds, replays and waiters of direct sessions (direct/session_reconnect.go) beyond the states they write.
- Backoff, jitter, heartbeats' failure counter, the hello exchange and its retries, the address watcher: easy or timing only.
- The tables of terminal reasons, codes and texts (direct/terminal.go) beyond ended and failed.
- Login and resume, the client facade, subscriptions, options and logging.
