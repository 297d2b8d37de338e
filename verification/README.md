# Mango Protocol: a verified model

Mango Protocol is a symmetric request, event and cancellation protocol between
two peers. A peer is a session (a driver loop with a handle that callers use)
over a port: newline-delimited JSON on a byte stream, or chunked binary messages
on a WebSocket. The reference implementation is the Rust crate
`crates/mango-protocol`; `packages/protocol` holds the TypeScript codecs.

This project models that implementation in Dafny and proves what it promises,
for every input, every run and every interleaving.

| files | what they model |
|---|---|
| `Frames`, `Versions`, `Tokens`, `Wrappers` | frames, version negotiation, counting ids in a sequence |
| `Session` | the driver's handlers for requests, cancels, results, answers, hellos, commands and ticks |
| `SessionEffects` | what each handler leaves behind, said of the driver's fields, and over whole runs |
| `DriverLoop`, `SessionDriver` | the biased `select!` loop over those handlers, and the driver itself as a class |
| `Peers`, `PeerTokens`, `PeerCalls`, `PeerHandshake`, `PeerAnswers`, `PeerCancels`, `PeerFarewells`, `PeerTheorems` | two sessions on two FIFO links: callers, loops and writers step in any order |
| `Lines`, `LineDecoders` | what an NDJSON byte stream means, and the streaming decoders, Rust and TypeScript |
| `StreamPort` | the receive half of the NDJSON port, with `recv` calls dropped at their awaits |
| `Chunks`, `ChunkEncoder`, `ChunkReassembler` | chunk framing: the encoder and the two reassemblers |
| `SocketWriter`, `SocketCloses` | the WebSocket writer: concurrent senders and closers, one task, one byte counter |
| `Events` | event numbering under a lock shared by concurrent emitters |
| `FrameLimits` | ceilings, announcements and the limit two sessions agree on |
| `ShellQuote`, `MethodNames` | the quoted command an ssh peer is started with; the method name grammar |

## The main results

* **Tokens.** In every run of two sessions each id handed out is in exactly one
  place, and a caller's value is the outcome of the handler run on that caller's
  own method and params; any other return has the cause it names
  (`TokenConservation`, `Correlation`).
* **Cancels** never overtake their request and mark exactly the requests they
  name (`CancelsReach`, `CancelledExactly`); **farewells** come last and tell the
  peer the code the session ended with (`FarewellsTrue`).
* **No spurious refusal, no leak, no hang** between two peers of this kind
  (`NoSpuriousRefusal`, `SameMinor`, `NoLeakNoHang`, `SettledForGood`); a request
  runs exactly when it meets every condition, and otherwise is refused for the
  first it fails (`RoutesExactly`, `RunsAdmissible`).
* **The response guarantee** against any inbound frames at all, conforming or
  not (`ResponseGuarantee`, `LoopAnswersOnce`), and a close that cannot be
  starved (`CloseNotStarved`). The class `SessionDriver` carries both through
  its loop, and through teardown: once a session has ended nobody waits on it
  (`Run`, `Serve`).
* **Split independence.** However a byte stream is cut into pushes, frames and
  first refusal are those of the whole stream (`SplitIndependent`), and a port
  hands them out, then one closure, then nothing, whatever calls were dropped
  (`PortDelivers`).
* **Chunks.** The reassembler accepts exactly the valid runs
  (`ReassemblesExactly`), reads back any number of encoded frames
  (`ChunkRoundTrip`), agrees with the TypeScript one (`ReassembleAlike`), and
  never sees frames interleave in any schedule of the writer (`PeerReads`), which
  is closed once and for good (`OneCloseNoSendAfter`, `ShutForGood`).
* **Numbering, limits, quoting, names**: `EventsNumbered`, `SameSendLimit`,
  `ShellReadsCommand`, `IsValidMethodName`.

JSON is abstract: a codec carries a function from a line's bytes to a frame or a
refusal, and round trips ask only that a frame's own text parses back to it.
Request ids, payloads and handlers' results are abstract too. A spawned handler
gets a number no unjoined one has, and only a spawned one is joined. Timers, handlers,
the transport, and what is ready when the loop polls are arbitrary choices of
the run.

## Where a property does not hold as first stated

* The encoder's chunk count saturates at 32 bits. A line is carried whole just
  when its slices can be numbered (`ChunkEncoder.EncodesRun`); a longer one
  loses its end without a refusal (`ChunkEncoder.LongLineLosesItsEnd`). Every
  limit a peer can announce is far below that (`FrameLimits.EnoughNumbers`).
* The WebSocket byte counter is the queue plus the reservations only while no run
  is between its pop and its subtraction, and only while the writer receives.
  Afterwards it also keeps the bytes of a farewell that could not be queued and
  of what an abort dropped (`SocketWriter.CounterExact` says by how much,
  `SocketWriter.FarewellStaysCounted` gives a run).
* The session options accept an in-flight ceiling that no hello may carry, so the
  hello of such a session fails its own check (`FrameLimits.AnnouncesValidly`
  gives the exact condition, `FrameLimits.TooManyInFlight` an input).
* The two line decoders differ on a whitespace line that holds a vertical tab,
  and agree on every stream without one, however it is split
  (`LineDecoders.StreamsAgree`, `LineDecoders.VerticalTabDiffers`).

## Model

| member | source | states |
|---|---|---|
| `Versions.NegotiateSymmetric` | crates/mango-protocol/src/version.rs:109-118 | both sides of a negotiation reach the same verdict and the same effective minor |
| `Versions.NegotiatesLower` | crates/mango-protocol/src/version.rs:109-118 | compatible exactly when the majors are equal, then at the lower of the two minors; a mismatch closes with 4426 |
| `Frames.AnswerFrame` | crates/mango-protocol/src/session/dispatch.rs:201-216 | the frame that answers an id carries that id and is an answer to nothing else |
| `Session.TrackKeeps` | crates/mango-protocol/src/session/dispatch.rs:58-159 | accepting a request keeps the map of tasks a bijection onto the active ids and the counter equal to both, within the in-flight ceiling |
| `Session.UntrackKeeps` | crates/mango-protocol/src/session/dispatch.rs:174-199 | joining a task removes exactly its request and keeps the bijection |
| `Session.RequestAccounts` | crates/mango-protocol/src/session/dispatch.rs:58-159 | a request frame, refused or accepted, puts its id in hand exactly once more and changes no other id's account |
| `Session.SettledAccounts` | crates/mango-protocol/src/session/dispatch.rs:174-216 | a settled handler turns an active request into one answer |
| `Session.StepAccounts` | crates/mango-protocol/src/session/driver.rs:291-340 | no other input of the driver changes any id's account |
| `Session.ResponseGuarantee` | crates/mango-protocol/src/session/dispatch.rs:58-216 | against any inputs, for every id: requests processed equal answers enqueued plus one if the id is active; tasks, active ids and the counter agree throughout |
| `Session.EveryRequestAnsweredOnce` | crates/mango-protocol/src/session/dispatch.rs:58-216 | the same from a fresh driver |
| `Session.StepBalances` | crates/mango-protocol/src/session/driver.rs:291-429 | every input of the driver keeps the bookkeeping exact, puts the id it asks in hand once more, and touches no other id's account |
| `Session.SecondHelloEnds` | crates/mango-protocol/src/session/driver.rs:342-383 | in any run a second hello is the last thing the loop takes in, whatever it says |
| `Session.UnansweredTickEnds` | crates/mango-protocol/src/session/driver.rs:446-456 | in any run two liveness ticks with no pong between them end the loop at the second |
| `SessionEffects.RoutesExactly` | crates/mango-protocol/src/session/dispatch.rs:58-159 | a request that meets the five conditions (handshake done, below the in-flight ceiling, id not in flight, a name a peer may ask at this minor, a handler for it) is tracked under its task and nothing is sent; any other leaves the bookkeeping as it was and is sent one refusal, for the first condition in that order it fails |
| `SessionEffects.AnswersExactly` | crates/mango-protocol/src/session/dispatch.rs:174-216 | a joined handler sends one frame: its result if it succeeded and fits, a frame-too-large error if it succeeded and does not, its error otherwise; and its request is released |
| `SessionEffects.CancelledExactly` | crates/mango-protocol/src/session/dispatch.rs:165-169 | in any run an active request is marked cancelled if and only if a cancel of its id was processed after it was accepted |
| `SessionEffects.SendsInOrder` | crates/mango-protocol/src/session/driver.rs:291-456 | besides answers, what a run enqueues is one pong a ping, one ping a tick that does not end the loop, the frame of each request or send command and one cancel a cancel command, in the order the inputs came |
| `SessionEffects.DeliversInOrder` | crates/mango-protocol/src/session/shared.rs:181-186 | a ready session hands on exactly the events it took in, in order, and one no longer ready hands on none |
| `SessionEffects.EarlyEventsDropped` | crates/mango-protocol/src/session/shared.rs:181-186 | an event that comes before the session is ready is dropped |
| `SessionEffects.AwaitsExactly` | crates/mango-protocol/src/session/driver.rs:291-456 | a pong is awaited exactly when the input is a tick, or one was awaited already and the input is not a pong |
| `SessionEffects.SettlesExactly` | crates/mango-protocol/src/session/driver.rs:387-429 | an id is pending after an input just when it was and the input does not settle it, or the input asks it; a reply is written exactly when a pending id is settled, with the outcome that arrived, or hung up for a cancel without forget |
| `SessionEffects.ReadyExactly` | crates/mango-protocol/src/session/driver.rs:342-383 | only a first hello changes what is known of the peer: admitted with its limits at the lower of the two minors, or `ready` failed with a mismatch when the majors differ; `ready` keeps what first settled it |
| `SessionEffects.StopsExactly` | crates/mango-protocol/src/session/driver.rs:291-456 | an input ends the loop for exactly these reasons: a close frame or command, with its own code; a tick with a pong awaited, 4000; a hello after the first, 4400; a hello of another major, 4426 |
| `DriverLoop.DrivenRuns` | crates/mango-protocol/src/session/driver.rs:122-230 | what the biased loop does to the driver is a run of the driver on the inputs it took |
| `DriverLoop.FirstReadyTaken` | crates/mango-protocol/src/session/driver.rs:159-227 | the branch taken is ready, no branch listed before it is, and the loop is idle only when none is |
| `DriverLoop.BranchDoes` | crates/mango-protocol/src/session/driver.rs:159-227 | what each branch hands the driver, and the code the three that end the loop end it with |
| `DriverLoop.CommandsInOrder` | crates/mango-protocol/src/session/driver.rs:159-227 | over any iterations the commands taken and those still queued are those queued at first and those posted since, in order |
| `DriverLoop.LoopAnswersOnce` | crates/mango-protocol/src/session/driver.rs:159-227 | every request the loop took in is answered once or still active, whatever was ready when |
| `DriverLoop.CloserToClose` | crates/mango-protocol/src/session/driver.rs:159-227 | with a close queued an iteration takes no inbound frame, and ends the loop or lowers commands ahead + tasks + (0 if a pong is awaited, else 1) |
| `DriverLoop.CloseNotStarved` | crates/mango-protocol/src/session/driver.rs:159-227 | a queued close ends the loop within commands ahead + tasks + 2 iterations, with no inbound frame processed |
| `SessionDrivers.SessionDriver.constructor` | crates/mango-protocol/src/session.rs:106-151 | a new driver is handshaking, tracks nothing, has nothing pending or queued, and its bookkeeping is exact |
| `SessionDrivers.SessionDriver.HandleSettled` | crates/mango-protocol/src/session/dispatch.rs:174-199 | a joined handler's request is answered once, by its result only if that succeeded and fits, no id's account changes, and the bookkeeping stays exact |
| `SessionDrivers.SessionDriver.FailPending` | crates/mango-protocol/src/session/teardown.rs:121-134 | every pending call is failed once, earlier replies kept, none left |
| `SessionDrivers.SessionDriver.TearDown` | crates/mango-protocol/src/session/teardown.rs:73-183 | `ready` keeps what settled it or fails, with a mismatch for 4426 and unavailable for any other code; every pending call is failed as unavailable, handlers that end within the grace are joined, and the closure is published with the number of the rest |
| `SessionDrivers.SessionDriver.TakeBranch` | crates/mango-protocol/src/session/driver.rs:159-227 | the first ready branch in the biased order is the one taken, and the state is what that branch leaves |
| `SessionDrivers.SessionDriver.Run` | crates/mango-protocol/src/session/driver.rs:157-227 | the loop keeps the bookkeeping exact; every id is in hand as often more as it was asked; with a close queued it takes in no frame and stops within commands ahead + tasks + 2 turns; and it is `DriverLoop.Driven` |
| `SessionDrivers.SessionDriver.Serve` | crates/mango-protocol/src/session/driver.rs:122-230 | once a session has ended `ready` is settled, no call is pending, every call pending when the loop ended was told unavailable, and the closure carries the reason's code |
| `PeerTokens.ActTokens` | crates/mango-protocol/src/session/handle.rs:334-430 | a step of one peer keeps the balance of every id between its desk, its queue and its ledger |
| `PeerCalls.ActKeepsCalls` | crates/mango-protocol/src/session/handle.rs:372-430 | a step of one peer keeps pending entries, queued commands and replies tied to the calls that made them |
| `PeerCalls.LeaveKeeps` | crates/mango-protocol/src/session/handle.rs:586-607 | a call that times out or is abandoned leaves a release queued for its entry |
| `PeerHandshake.ActHelloFirst` | crates/mango-protocol/src/session/driver.rs:122-134 | the hello is the first frame on the link and the only one |
| `PeerHandshake.RequestWelcome` | crates/mango-protocol/src/session/dispatch.rs:66-131 | a request on the link reaches a ready peer under a name its minor allows |
| `PeerAnswers.SettleAnswers` | crates/mango-protocol/src/session/dispatch.rs:174-216 | joining a handler keeps every answer enqueued the one on record for its id: its result if it succeeded and fits, frame-too-large if not, its error, or its refusal |
| `PeerTheorems.NextInv` | crates/mango-protocol/src/session/driver.rs:291-429 | every step of either peer keeps the whole invariant of the pair |
| `PeerTheorems.RunInv` | crates/mango-protocol/src/session/driver.rs:291-429 | so does every run from two fresh sessions |
| `PeerTheorems.TokenConservation` | crates/mango-protocol/src/session/driver.rs:291-429 | in every run each id handed out is in exactly one place, and ids are lost only to a session that is ending |
| `PeerTheorems.Correlation` | crates/mango-protocol/src/session/handle.rs:372-430 | a value returned to a caller is the success, that fitted, of the run on that caller's method and params; an error is that run's own, or frame-too-large for a success that did not fit, or the refusal on record of that request; any other is of its own side: a timeout, a request withdrawn before it was sent, or unavailable once its session has ended |
| `PeerTheorems.TakesItsReply` | crates/mango-protocol/src/session/handle.rs:405-411 | a waiting call returns the outcome written for it, or unavailable when its channel was dropped |
| `PeerTheorems.RunsAdmissible` | crates/mango-protocol/src/session/dispatch.rs:66-159 | in any run every handler that ran was started by a request that met every condition then, and every refusal on record is of the first condition its request failed |
| `PeerTheorems.OnlyFittingResultsSent` | crates/mango-protocol/src/session/dispatch.rs:201-216 | in any run every result queued or on the link is the recorded success of the run under its id, and fits |
| `PeerTheorems.NoSpuriousRefusal` | crates/mango-protocol/src/session/dispatch.rs:66-131 | no hello is a duplicate, and no request is refused for an incomplete handshake, an id in flight or a reserved name: the only refusals on record are the ceiling and a missing handler |
| `PeerTheorems.ReadyKnows` | crates/mango-protocol/src/session/driver.rs:342-383 | a ready session holds the limits its peer announces, whether or not that peer is ready |
| `PeerTheorems.SameMinor` | crates/mango-protocol/src/session/driver.rs:342-383 | two ready sessions speak one major, hold the lower of their two minors, and hold each other's announced limits |
| `PeerTheorems.NoLeakNoHang` | crates/mango-protocol/src/session/handle.rs:381-430 | every pending entry has a waiting caller or a queued release; no waiting caller is left without a reply once the driver is gone |
| `PeerTheorems.SettledForGood` | crates/mango-protocol/src/session/driver.rs:387-395 | no later step replaces a reply or rewrites a recorded run |
| `PeerCancels.CancelsReach` | crates/mango-protocol/src/session/handle.rs:405-430 | in any run of two sessions a request is marked cancelled exactly when a cancel of its id was processed; a cancel is never processed before its request has been; and the cancel of a call that was let go is on its way, processed, or lost with a failed write or the session |
| `PeerFarewells.FarewellsTrue` | crates/mango-protocol/src/session/teardown.rs:73-183 | in any run of two sessions a farewell is the last frame on its link and carries the code its session ended itself with; a session ended by a farewell ended for the code its peer had ended with |
| `Lines.CutConcat` | crates/mango-protocol/src/codec/ndjson.rs:307-339 | cutting a stream at its line feeds can stop at any byte and go on from the tail |
| `Lines.PartialTooLong` | crates/mango-protocol/src/codec/ndjson.rs:341-346 | a partial line over the limit, less a carriage return, is over it however it ends |
| `Lines.StreamConcat` | crates/mango-protocol/src/codec/ndjson.rs:295-355 | a refused stream means the same however it goes on; one not refused goes on from its tail |
| `Lines.StripsOne` | crates/mango-protocol/src/codec/ndjson.rs:52-57 | exactly one carriage return before the line feed is dropped |
| `Lines.CrLfLikeLf` | crates/mango-protocol/src/codec/ndjson.rs:52-57 | a record ended by CR LF is judged as the same record ended by LF |
| `Lines.BlankBytes` | crates/mango-protocol/src/codec/ndjson.rs:60-62 | the bytes a blank line may hold, in Rust and in TypeScript |
| `Lines.BlankIgnored` | crates/mango-protocol/src/codec/ndjson.rs:313-339 | a record within the limit is skipped exactly when it is blank, and a blank one can be left out of a stream without changing what it means |
| `Lines.RefusalCodes` | crates/mango-protocol/src/close.rs:108-113 | 4426 for a hello that fails its schema, 4400 for every other refusal |
| `LineDecoders.PushSound` | crates/mango-protocol/src/codec/ndjson.rs:295-355 | between pushes the buffer holds no line feed and at most limit + 1 bytes; a latched refusal is repeated with no frames |
| `LineDecoders.FedStream` | crates/mango-protocol/src/codec/ndjson.rs:295-355 | any pieces pushed so far mean what their concatenation means |
| `LineDecoders.SplitIndependent` | fuzz/fuzz_targets/line_decoder_push.rs:79-103 | every split followed by `finish` yields the frames and the first refusal of the whole stream, cut at line feeds |
| `LineDecoders.SplitLikeWhole` | fuzz/fuzz_targets/line_decoder_push.rs:79-103 | every split yields what one push of everything yields |
| `LineDecoders.RoundTrip` | crates/mango-protocol/src/codec/ndjson.rs:79-96 | frames written one to a line, each ended by LF or by CR LF, are read back in order, unrefused, however the bytes were split |
| `LineDecoders.RuntimesAgree` | packages/protocol/src/codec/ndjson.ts:35 | the Rust decoder accepts lines exactly when the TypeScript one does and none is whitespace with a vertical tab; then the frames are the same |
| `LineDecoders.StreamsAgree` | packages/protocol/src/codec/ndjson.ts:192-281 | the same of one byte stream drained by both decoders, however it is split for each |
| `LineDecoders.VerticalTabDiffers` | crates/mango-protocol/src/codec/ndjson.rs:60-62 | a vertical tab alone is skipped by the TypeScript decoder and refused by the Rust one |
| `LineDecoders.LineDecoder.constructor` | crates/mango-protocol/src/codec/ndjson.rs:260-268 | a new decoder holds nothing |
| `LineDecoders.LineDecoder.Push` | crates/mango-protocol/src/codec/ndjson.rs:295-355 | the loop over the buffer leaves the state, the frames and the refusal the stream specification gives |
| `LineDecoders.LineDecoder.Finish` | crates/mango-protocol/src/codec/ndjson.rs:368-384 | the unterminated last record is read as a line of its own |
| `LineDecoders.ResumeAt` | packages/protocol/src/codec/ndjson.ts:207-213 | a search resumed past bytes without a line feed finds what a search from zero finds |
| `LineDecoders.ResumingDecoder.Drain` | packages/protocol/src/codec/ndjson.ts:206-246 | the resumed search cuts and decodes every line a search from zero would |
| `LineDecoders.ResumingDecoder.Consume` | packages/protocol/src/codec/ndjson.ts:252-263 | one record is skipped, delivered, or its refusal latched |
| `LineDecoders.ResumingDecoder.Push` | packages/protocol/src/codec/ndjson.ts:193-198 | the state, frames and refusal of the stream specification, the TypeScript blank rule apart |
| `LineDecoders.ResumingDecoder.Finish` | packages/protocol/src/codec/ndjson.ts:201-204 | the same for the end of the stream |
| `StreamPort.HandleKeeps` | crates/mango-protocol/src/transports/ndjson.rs:364-404 | a read adds to what is owed exactly what it adds to what the bytes mean, closure included |
| `StreamPort.RecvKeeps` | crates/mango-protocol/src/transports/ndjson.rs:330-352 | a call, finished or dropped at an await, keeps handed out plus owed equal to what the bytes mean |
| `StreamPort.PortDelivers` | crates/mango-protocol/src/transports/ndjson.rs:325-405 | over any calls and reads: the frames before the first refusal, in order, then exactly one closure; an unterminated last record is dropped |
| `StreamPort.SilentAfterClosed` | crates/mango-protocol/src/transports/ndjson.rs:330-352 | after any run, once the closure has been handed out every call answers `None` and reads nothing |
| `StreamPort.NdjsonRx.OnRead` | crates/mango-protocol/src/transports/ndjson.rs:364-404 | the state after a read, recorded before any await |
| `StreamPort.NdjsonRx.Receive` | crates/mango-protocol/src/transports/ndjson.rs:330-352 | the loop is `Recv` on the port's state |
| `Chunks.BigEndianBack` | crates/mango-protocol/src/codec/chunk.rs:86-96 | a 32-bit field reads back as it was written |
| `Chunks.MaxChunksExact` | crates/mango-protocol/src/codec/chunk.rs:37-39 | short of saturation the bound is the limit over 1024, rounded up, and no limit below 2^31 saturates it |
| `Chunks.ChunkReads` | crates/mango-protocol/src/codec/chunk.rs:86-96 | a written message is the version byte 1, index and count in four big-endian bytes each, and the payload; and it reads back so |
| `Chunks.AcceptsRuns` | crates/mango-protocol/src/codec/chunk.rs:260-350 | holding a partial run, a message is taken just when the run goes on with it, concludes it just when it is the last, and is otherwise refused, back to idle |
| `Chunks.HoldsSince` | crates/mango-protocol/src/codec/chunk.rs:208-350 | after any messages the state is that of the run under way since idle |
| `Chunks.ReassemblesExactly` | crates/mango-protocol/src/codec/chunk.rs:249-350 | a frame comes out exactly when the messages since idle are a whole valid run whose line decodes |
| `Chunks.StateBounded` | fuzz/fuzz_targets/chunk_reassembler_push.rs:11-21 | idle and empty, or 1 <= next < count <= bound and 1024 * next <= buffered <= limit |
| `ChunkEncoder.CountWithin` | crates/mango-protocol/src/codec/chunk.rs:73-83 | no line within the limit meets the encoder's count refusal |
| `ChunkEncoder.EncodeChunks` | crates/mango-protocol/src/codec/chunk.rs:59-98 | the ceiling and line refusals, or the line's slices in order, none over the message ceiling and all but the last at it |
| `ChunkEncoder.Slices` | crates/mango-protocol/src/codec/chunk.rs:85-97 | the index arithmetic of the loop cuts the slices one after another |
| `ChunkEncoder.EncodesRun` | crates/mango-protocol/src/codec/chunk.rs:59-98 | the messages are a whole run that carries the line, if and only if 32 bits can number the slices |
| `ChunkEncoder.LongLineLosesItsEnd` | crates/mango-protocol/src/codec/chunk.rs:75-83 | the shortest line whose slices 32 bits cannot number is not refused, and its last byte is not carried |
| `ChunkReassemblers.FeedRun` | crates/mango-protocol/src/codec/chunk.rs:260-350 | the rest of a run yields its line's verdict and leaves the reassembler idle |
| `ChunkReassemblers.ChunkRoundTrip` | crates/mango-protocol/src/codec/chunk.rs:249-350 | concatenated runs of any frames give those frames back in order, unrefused, and leave it idle |
| `ChunkReassemblers.ChunkReassembler.Push` | crates/mango-protocol/src/codec/chunk.rs:249-257 | the class takes each message as `Chunks.Accept` does, resetting on a refusal |
| `ChunkReassemblers.ChunkReassembler.Decode` | crates/mango-protocol/src/codec/chunk.rs:260-350 | the state and the verdict of the exact language `AcceptsRuns` describes, in 32-bit fields: the index after the one accepted always fits |
| `ChunkReassemblers.ConcatParts` | packages/protocol/src/codec/chunk.ts:212-220 | the parts, one after another |
| `ChunkReassemblers.PartsReassembler.ReadHeader` | packages/protocol/src/codec/chunk.ts:173-209 | the header checks in their order |
| `ChunkReassemblers.PartsReassembler.Take` | packages/protocol/src/codec/chunk.ts:137-170 | the size and payload checks, and the state they leave |
| `ChunkReassemblers.PartsReassembler.Push` | packages/protocol/src/codec/chunk.ts:120-127 | a refusal resets |
| `ChunkReassemblers.AcceptedAlike` | packages/protocol/src/codec/chunk.ts:137-209 | from one state, on any message, both runtimes reach the same state and the same verdict, refusal kinds aside |
| `ChunkReassemblers.ReassembleAlike` | packages/protocol/src/codec/chunk.ts:120-210 | so after any messages at all |
| `SocketWriter.AdvanceBalances` | crates/mango-protocol/src/transports/websocket.rs:582-668 | each operation of a send or a close moves bytes between counter, reservation, queue and loss without creating any |
| `SocketWriter.NextKeeps` | crates/mango-protocol/src/transports/websocket.rs:702-835 | every operation of any call or of the writer, the pop and the subtraction apart, keeps the accounting, the queue order and the wire |
| `SocketWriter.CounterExact` | crates/mango-protocol/src/transports/websocket.rs:582-835 | in any interleaving, while the writer receives, the counter is exactly the bytes queued, those reserved and those of a run popped and not yet taken out, which are none except between the pop and the subtraction |
| `SocketWriter.FarewellStaysCounted` | crates/mango-protocol/src/transports/websocket.rs:660-668 | a run in which the writer exits of itself and the counter is left holding a farewell's bytes, with nothing queued or reserved |
| `SocketWriter.NoUnderflow` | crates/mango-protocol/src/transports/websocket.rs:702-835 | no subtraction takes the counter below zero |
| `SocketWriter.WholeRunsInOrder` | crates/mango-protocol/src/transports/websocket.rs:702-852 | the wire is whole runs in queue order, then at most one farewell of the writer's own; only the last may be cut short |
| `SocketWriter.PeerReads` | crates/mango-protocol/src/transports/websocket.rs:839-852 | the reassembler of a peer whose limit is no lower reads a frame per whole run, in order, and refuses nothing |
| `SocketWriter.GivesUpExactly` | crates/mango-protocol/src/transports/websocket.rs:719-775 | in any interleaving the writer gives up exactly when a pending write found the bytes queued over the limit; it then finishes that run, takes no other, and only then says a farewell of its own |
| `SocketWriter.SendGivesUpExactly` | crates/mango-protocol/src/transports/websocket.rs:582-621 | a send gives the socket up, with 4400, exactly when the bytes waiting before its own were over the limit and the writer is paused |
| `SocketCloses.OneCloseNoSendAfter` | crates/mango-protocol/src/transports/websocket.rs:623-668 | however many calls close the socket at once, at most one close is ever queued; once it is, or the writer has given up or stopped, no send begins |
| `SocketCloses.ShutForGood` | crates/mango-protocol/src/transports/websocket.rs:582-668 | a socket once shut, by a call, the writer or its reader, takes no further send |
| `SocketCloses.ClosesInOrder` | crates/mango-protocol/src/transports/websocket.rs:623-668 | a close that finds the socket open queues its farewell, if it has one, and then the close with its code, whatever other calls do in between; one that finds it shut queues nothing |
| `SocketWriter.Queue.ReleaseUnwritten` | crates/mango-protocol/src/transports/websocket.rs:828-835 | what is left in the queue leaves the counter, which stays non-negative |
| `SocketWriter.WriteChunks` | crates/mango-protocol/src/transports/websocket.rs:839-852 | the messages before the first the socket refuses are on the wire; success means all of them and a flush |
| `Events.NextKeeps` | crates/mango-protocol/src/session/handle.rs:484-534 | every step of any emitter keeps exclusion, numbering and the key bound |
| `Events.EventsNumbered` | crates/mango-protocol/src/session/handle.rs:484-534 | in any interleaving every event on the wire carries the count of earlier events that share its stream id (its topic, when it has none) since the last of them that ended; open keys never exceed the maximum |
| `Events.OrderAgrees` | crates/mango-protocol/src/session/handle.rs:519-533 | between ends, events that share a stream id, or a topic without one, have wire order for number order |
| `Events.EventsAuthored` | crates/mango-protocol/src/session/handle.rs:484-534 | in any run each event on the wire is that of a call that emitted, with its topic, stream id, payload and end, and no call has two |
| `Events.CallDecides` | crates/mango-protocol/src/session/handle.rs:484-534 | a call is unsent exactly when the session is not ready or its driver is gone, refused for too many keys exactly when its key is not open and the maximum is, and then for its size |
| `Events.UnsentAddsNothing` | crates/mango-protocol/src/session/handle.rs:484-534 | over any run there is one event on the wire for each call that emitted and none for a call refused or unsent |
| `Events.EventSequences.Emit` | crates/mango-protocol/src/session/handle.rs:484-534 | which outcome a call has; the event it puts on the wire carries its own topic, stream id, payload and end, numbered by the earlier events that share its key since the last end; numbering and the key bound are kept |
| `FrameLimits.AnnouncesValidly` | crates/mango-protocol/src/validate.rs:274-308 | what a side with allowed ceilings announces is in the ranges a hello may carry if and only if its in-flight ceiling is at most 2147483647 and not zero |
| `FrameLimits.TooManyInFlight` | crates/mango-protocol/src/session.rs:93-97 | an in-flight ceiling of 2147483648, which the options accept, is one no hello may carry |
| `FrameLimits.SameSendLimit` | crates/mango-protocol/src/session/shared.rs:79-89 | two ready sessions send within one limit: no higher than any of the four ceilings given, between 4096 and 16777216, and equal to one of those ceilings or to the default |
| `FrameLimits.FitsExactly` | crates/mango-protocol/src/session/shared.rs:112-130 | a text passes the size check exactly when it is no longer than the limit |
| `FrameLimits.InFlightHeard` | crates/mango-protocol/src/session/shared.rs:91-102 | in any run a ready session reads from its peer's hello exactly the in-flight ceiling that peer was given, the default included |
| `FrameLimits.FitsWithin` | crates/mango-protocol/src/codec/chunk.rs:260-350 | a text within a limit is never refused for size, count or dribble under any wider one, as a line or as chunks |
| `FrameLimits.FitsThePeer` | crates/mango-protocol/src/session/shared.rs:79-130 | in any run a text that passes a ready session's size check is never refused for its size by the peer's port, whatever that port's ceiling and whether or not the peer is ready |
| `FrameLimits.EnoughNumbers` | crates/mango-protocol/src/codec/chunk.rs:37-39 | every line within an announceable limit has few enough slices to number |
| `ShellQuote.ReadsQuoted` | crates/mango-protocol/src/transports/ssh.rs:405-407 | a single-quoted value reads as that value, every character quoted |
| `ShellQuote.ReadsPath` | crates/mango-protocol/src/transports/ssh.rs:396-401 | a path reads as itself, bare only in a leading `~/` |
| `ShellQuote.ShellReadsCommand` | crates/mango-protocol/src/transports/ssh.rs:315-319 | a POSIX shell reads the joined words back as exactly the command's words |
| `ShellQuote.WordsAreTheCommand` | crates/mango-protocol/src/transports/ssh.rs:396-407 | quote removal gives each word; nothing is bare but a path's leading `~/` |
| `ShellQuote.RefusedWithoutPath` | crates/mango-protocol/src/transports/ssh.rs:387-392 | no command is made exactly when there is no first word or it is empty |
| `MethodNames.SegmentShape` | crates/mango-protocol/src/validate.rs:99-113 | a valid segment is one the segment expression matches, and conversely |
| `MethodNames.PatternSplits` | crates/mango-protocol/src/validate.rs:23-24 | the pattern's language is the names with two segments or more, all valid |
| `MethodNames.IsValidMethodName` | crates/mango-protocol/src/validate.rs:130-149 | accepted if and only if the pattern matches and there are at most 128 characters |

## Left out

- JSON parsing, serialisation and schema validation are parameters of the codecs.
- Texts of errors, previews and detail maps: only an error's kind or code and its id are kept. The too-large text names the length seen so far and does depend on how a stream was split.
- Timers, deadlines and clocks are arbitrary steps; so are handlers, and the executor's cooperative budget is not modelled.
- Delivery to pong subscribers, and each event subscriber's own queue: the model has one inbox a session.
- The farewell a session sends is one optional frame after which its link carries nothing more.
- Frames the session enqueues without `assert_fits` (errors, cancels, pings and pongs) have no size in the model, and the hello is checked against this side's limit only.
- Counters wider than any run: event numbers and ids are unbounded naturals, not 64-bit.
- Reading the WebSocket: control messages, closures and the give-up signal to `recv`. The model ends at the messages on the wire.
- The steps of `SocketWriter`, `Peers` and `Events` are values, because their shared memory is concurrent; the sequential parts of that code are the classes and methods beside them.
- Emission after a teardown has cleared the counters.
- The TypeScript session repeats the Rust one with synchronous sends.
- Process spawning, stdio, sockets and pipes, and the ssh options before the command.
- Contracts, catalogs, schema emission, conformance suites and scripts.
- SocketWriter.CounterExact: after the writer has exited the counter is exact only up to `lost`, because a farewell that cannot be queued is never taken back out.
- SessionDrivers.SessionDriver.TearDown: does not clear the event counters and the subscribers, which are not fields of this class.
- LineDecoders.RuntimesAgree: compares lines read with one shared parser, because the two JSON parsers are not modelled.
