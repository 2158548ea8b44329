# Verified model of the browser-control backend

This project models the parts of the Node package that carry requests between a client and its
backend process, and the command logic whose promises are hardest to see from one function.

- **Transport** (`Transport*.dfy`). `StdioBackendTransport` multiplexes unary calls and streams over
  a child process that can be replaced. `TransportState` holds its state as a value, `TransportSteps`
  its synchronous segments as functions on that value and the steps a run is made of: calls,
  continuations of promises, turns and callbacks of writes, stdout lines, timers, exits. A run is any
  interleaving of those steps. The wire is a history of lines written, lines not yet answered for
  good, and deliveries with the line that caused them. `TransportRoutes`, `TransportCallers`,
  `TransportWrites`, `TransportFlow` and `TransportCorrelation` each prove one invariant over every
  run; `TransportHandshake`, `TransportProgress` and `TransportOutcomes` say what every step does to the
  calls it concerns; `TransportGate` follows one line through runs with any backend, and `TransportReuse` says what
  reuse of ids costs. `TransportClass` is the class with mutable fields. Each of its methods is proved
  to compute the step function of its segment of code, so the invariants hold of the object; the table
  lists those whose proof is more than that (loops, the queue over `activeWrites`, whole runs).
- **Framing** (`Framing.dfy`). The server's reader over a growable array and the client's reader over
  concatenated buffers, both proved equal to one meaning of a byte stream.
- **Streams** (`AsyncQueue.dfy`, `StreamPipeline.dfy`). The bounded queue and the pump between two of
  them, as functions over any interleaving and as classes.
- **Server** (`ServerLoop.dfy`). The admission loop, its tasks and the tail-chained writer.
- **Watchers** (`WatcherRecords.dfy`, `WatcherRegistry.dfy`). The strict record parser and the
  registry behind its promise mutex.
- **Commands** (`WaitForMessage.dfy`, `AttachmentEvidence.dfy`, `AttachmentHandoff.dfy`). The response
  stability loop, evidence matching, and the at-most-once handoff.
- **Negotiation** (`Negotiation.dfy`). `hello` and `isNegotiatedHello` over loose records.

Verify with `dafny verify dfyconfig.toml`.

## Findings

- *An id shared with a queued write of a replaced child breaks correlation.* The failure of a write
  looks its route up by id (packages/node/src/backend/client.ts:886-892 and 908-916). A write that
  waited for an old child fails at its turn with an error that counts as definitely unsent; if by then
  a newer call of the same kind is pending under the same id and its line is queued or open, the two
  collide. `CorrelationIff` proves that this is the only way: with an honest backend every line keeps
  its own route or tombstone exactly on the runs without a collision. `CollisionLosesAnswer` says what
  a collision costs, `SharedIdMisdelivers` runs one, `CleanIdsCorrelate` gives the guard a caller can
  check before a call, and fresh ids meet it (`FreshIdsCorrelate`).
- *A line may go out for a settled caller.* The check at the turn of a write asks for some pending
  route under the id (packages/node/src/backend/client.ts:958-964), not for the line's own. With an
  honest backend and no collision it is always its own (`WrittenForItsOwner`); for any backend and any
  ids `WrittenForItsOwnerIff` gives the exact condition, and `EarlyAnswerWritesForAnother` a run in
  which it fails.
- *A waiter can be stranded.* `await` reads the store outside `serial` and registers its waiter
  afterwards (packages/node/src/response-watchers.ts:113-122). The two are separate steps of the model.
  `LateRegistration` proves that the waiter is stranded exactly when a commit between them closes the
  record, `WaiterFate` that it is then never woken, and that every other waiter is; `StrandedWaiter` is
  a run.
- *Label evidence is matched greedily* (packages/node/src/commands/files.ts:744-748). A report that
  every file is visible is sound, and input evidence is exact, but a file can be reported missing
  although another choice of labels would have covered all (`LabelsMayBeMissed`). `MissingExactly` says
  when a file is reported missing. `CompleteIff` gives the exact condition on the page: for every two of
  the files, the labels that vouch for both come after those that vouch for the first alone.
- *A quarantined id is never what refuses a call*: the transport is in quarantine whenever it holds such
  an id, and that check comes first (`AdmissionDecides`).
- *The duplicate checks inside `handleLine` are redundant*: the check before the slot covers them
  (`LateChecksNeverFire`).

## Model

| member | source | states |
|---|---|---|
| TransportRuns.LeadsIffRun | packages/node/src/backend/client.ts:460-1635 | a state follows another in the run relation exactly when executing some list of steps produces it |
| TransportCallers.EveryCallerHasOnePlace | packages/node/src/backend/client.ts:505-616 | in every reachable state an unsettled caller sits in exactly one of the four route maps, under its own id only; a settled one in none |
| TransportCallers.TeardownSettlesEveryone | packages/node/src/backend/client.ts:1198-1220 | after a teardown or a close every caller is settled and no route is left |
| TransportCallers.ClosedStaysEmpty | packages/node/src/backend/client.ts:647-655 | whatever runs after a close, the transport stays closed, without child or route, and every caller is settled |
| TransportCallers.SettlesAtMostOnce | packages/node/src/backend/client.ts:505-553 | a settled caller keeps its outcome through every later step |
| TransportCallers.SuccessIsExplained | packages/node/src/backend/client.ts:1115-1196 | a promise resolves exactly when the running child sends the terminal message of its own pending route, and then with the outcome that message brings |
| TransportHandshake.NegotiatedIff | packages/node/src/backend/client.ts:789-831 | a child becomes usable exactly on its answer to the probe under way, and only for a hello that negotiated multiplexing or single flight, or fitting capabilities after a fitting version; then everyone who waited goes on |
| TransportHandshake.BlockedIff | packages/node/src/backend/client.ts:790-871 | a backend is refused for good exactly when its hello was rejected or did not negotiate, or a legacy probe failed or did not fit; then the child is gone and everyone fails with that fault |
| TransportHandshake.VersionVerdictIsReal | packages/node/src/backend/client.ts:834-866 | in every run the verdict on the version that the capabilities probe remembers is the one of the answer to the version probe, with nothing in between |
| TransportHandshake.JoinDecides | packages/node/src/backend/client.ts:742-758 | what a new call waits for: nothing, a fault, the handshake under way, or a hello to a child that is started if none runs |
| TransportProgress.CallStarts | packages/node/src/backend/client.ts:505-585 | a new call is refused with the fault of its id and changes nothing, or waits under its id |
| TransportProgress.StreamJoins | packages/node/src/backend/client.ts:586-587 | the first microtask of a stream that still waits asks for a handshake, once |
| TransportProgress.ContinueMoves | packages/node/src/backend/client.ts:522-535 | once its handshake has settled a call fails with its fault, queues for the slot, or goes: its line is queued under its own route, or it fails with the fault of its line and leaves nothing behind |
| TransportProgress.GrantMoves | packages/node/src/backend/client.ts:1271-1285 | the first caller of the chain that still waits gets the slot and goes; one that has settled leaves the chain |
| TransportProgress.WrittenIff | packages/node/src/backend/client.ts:946-970 | the line at the head of the running child's chain goes out exactly at its turn, with a route pending under its id and nothing closed or quarantined |
| TransportProgress.RefusedTurn | packages/node/src/backend/client.ts:946-971 | a write that cannot go out fails the call pending under its id and kind with the fault |
| TransportProgress.FailedWrite | packages/node/src/backend/client.ts:966-971 | a stdin failure fails the pending call of the line, frees its id and waits for the late answer |
| TransportProgress.HandshakeFaultArrives | packages/node/src/backend/client.ts:814-831 | a failed handshake reaches everyone who awaits it, with its fault |
| TransportProgress.StreamEvents | packages/node/src/backend/client.ts:1149-1196 | an event that does not fit fails its stream as an overflow, an error event with its code, any other that is not the last is just delivered |
| TransportProgress.WrongKindTearsDown | packages/node/src/backend/client.ts:1115-1196 | a message of the wrong kind for the route or tombstone of its id fails everyone |
| TransportProgress.LateAnswerIsAbsorbed | packages/node/src/backend/client.ts:1115-1196 | a late terminal message takes its tombstone away and touches nothing else |
| TransportProgress.UnknownIdIsQuarantined | packages/node/src/backend/client.ts:1419-1433 | a message for an unknown id quarantines the transport; an idle one is recycled at once, and at the bound everyone fails |
| TransportProgress.LastRouteRecycles | packages/node/src/backend/client.ts:1556-1563 | the last route to go ends a quarantine with its child |
| TransportProgress.TeardownDetaches | packages/node/src/backend/client.ts:1000-1024 | a child given up with unreleased writes leaves its chain detached; only a second such chain blocks the next child |
| TransportProgress.DrainedIsForgotten | packages/node/src/backend/client.ts:1026-1035 | a detached chain that has drained is forgotten |
| TransportHandshake.MemoryIsBounded | packages/node/src/backend/client.ts:1399-1433 | tombstones and quarantined ids never exceed their limits, over every run |
| TransportOutcomes.TimeoutAborts | packages/node/src/backend/client.ts:1243-1269 | a deadline fails its call, frees its id of every route, gives up the child if the route is fatal or the request is half written, and otherwise keeps it with a tombstone, if there is room for one and no quarantine, and touches nobody else |
| TransportOutcomes.ProbeTimeout | packages/node/src/backend/client.ts:1243-1269 | the deadline of a probe fails the handshake and gives up the child |
| TransportOutcomes.CancelAborts | packages/node/src/backend/client.ts:618-645 | a local cancellation of a pending call does the same, and keeps the child if nothing of the request is half written |
| TransportOutcomes.CancelWaiting | packages/node/src/backend/client.ts:618-625 | a cancelled caller that still waits is told, leaves no tombstone and costs nobody anything |
| TransportOutcomes.LossFailsEveryone | packages/node/src/backend/client.ts:1590-1634 | an exit, a malformed line, overdue late output, the end of a quarantine and a close each fail every unsettled caller with their own fault |
| TransportWrites.WriteBudget | packages/node/src/backend/client.ts:973-998 | over every run and across child generations the charged count and bytes are exactly those of the unreleased writes and within both limits |
| TransportWrites.AtMostTwoGenerations | packages/node/src/backend/client.ts:1000-1024 | unreleased writes belong to at most two child generations |
| TransportWrites.RecycleBlockEnds | packages/node/src/backend/client.ts:1026-1035 | the recycle block implies an outstanding chain or write, and the event that ends the last one clears it |
| TransportWrites.WriteGate | packages/node/src/backend/client.ts:919-971 | one step from any reachable state writes at most the head of the running child's chain, and only while some route is pending under its id and, for a caller, the handshake of that child is accepted and nothing is closed or quarantined |
| TransportGate.WrittenForItsOwnerIff | packages/node/src/backend/client.ts:946-965 | whatever the backend sends and whichever ids are used, a caller's line is written while its own route is still pending exactly when nothing ended its id before: no terminal message of its kind, no failing turn of another write with its id |
| TransportReuse.EarlyAnswerWritesForAnother | packages/node/src/backend/client.ts:946-965 | a run in which the line of a settled caller is written while another caller's route is pending under its id, because the backend answered it before it was written |
| TransportCorrelation.WrittenForItsOwner | packages/node/src/backend/client.ts:946-965 | with an honest backend and no collision every line goes out while its own route is pending |
| TransportWrites.LinesInAdmissionOrder | packages/node/src/backend/client.ts:946-970 | within one child lines go out in admission order |
| TransportWrites.ClosedWritesNothing | packages/node/src/backend/client.ts:647-655 | once closed nothing is written again |
| TransportCorrelation.Correlation | packages/node/src/backend/client.ts:1115-1196 | with a backend that answers only open lines, and as long as no stale write collides, every delivered message was caused by the receiver's own line, every open or queued line has its own route or tombstone, and the transport is not quarantined |
| TransportCorrelation.CorrelationIff | packages/node/src/backend/client.ts:886-916 | with such a backend and any callers, every line keeps its own route or tombstone throughout a run exactly when no write that waited in a detached chain takes its turn while a live route of its id and kind has its line queued or open |
| TransportCorrelation.CleanIdsCorrelate | packages/node/src/backend/client.ts:886-916 | no run collides whose calls avoid the ids that waiting writes of their kind in the detached chain still carry |
| TransportCorrelation.DeliveryFindsItsRoute | packages/node/src/backend/client.ts:1115-1196 | every well-formed message of such a backend finds the own route of the line it answers, or its tombstone of the same kind, so it is neither unexpected nor ever discarded into quarantine |
| TransportCorrelation.SuccessAnswersOwnLine | packages/node/src/backend/client.ts:1115-1196 | under the same conditions a promise that resolves is resolved by the answer to an open line of its own caller, id and kind |
| TransportReuse.FreshIdsCorrelate | packages/node/src/backend/client.ts:244-248 | ids that are never reused, as `allocateRequestId` hands out, are enough for correlation |
| TransportReuse.StaleTurn | packages/node/src/backend/client.ts:886-916 | the turn of a write queued for a replaced child changes the routes exactly when a live route of its kind has its id, and then drops that caller without a tombstone; `CollisionLosesAnswer` says what follows |
| TransportReuse.CollisionLosesAnswer | packages/node/src/backend/client.ts:886-916 | after a collision, whatever runs next, the refused caller never gets the answer to its line: an honest answer goes to another caller of the id, or is swallowed by the tombstone of one, or costs the child or a quarantine, and at once it is the last |
| TransportReuse.SharedIdMisdelivers | packages/node/src/backend/client.ts:886-892 | a concrete run in which such reuse hands one caller the answer to another's line |
| TransportReuse.OneCallIsNotClean | packages/node/src/backend/client.ts:886-892 | that run is honest throughout and clean but for one call, whose id a waiting write of the replaced child carries; that write collides at its turn |
| TransportFlow.AdmissionBound | packages/node/src/backend/client.ts:1378-1397 | waiting plus active ids never exceed the limit, nor the limit minus one while unnegotiated without a control route |
| TransportFlow.AdmissionDecides | packages/node/src/backend/client.ts:1323-1397 | a caller's id is admitted exactly when no route map and no tombstone holds it and a place is free; it is a duplicate exactly when a map holds it, refused for capacity only when every place is taken, and never refused for being quarantined by itself |
| TransportFlow.HelloAlwaysFits | packages/node/src/backend/client.ts:757-758 | reserving the hello id fails only for quarantine, never for capacity or as a duplicate |
| TransportFlow.LegacyProbesAlwaysFit | packages/node/src/backend/client.ts:834-844 | the same for each probe that follows a cleared one |
| TransportFlow.PromotionNeverRefused | packages/node/src/backend/client.ts:1297-1313 | promoting a waiting caller fails exactly when the transport is quarantined |
| TransportFlow.SingleFlightExclusion | packages/node/src/backend/client.ts:520-551 | in single-flight or legacy state at most one caller route is pending, and it holds the slot |
| TransportFlow.SettledReleasesSlot | packages/node/src/backend/client.ts:1271-1285 | a granted slot belongs to a pending caller; in every later state that caller still holds it and is pending, or has left the chain, and a settled caller has left it |
| TransportFlow.SlotLeftForGood | packages/node/src/backend/client.ts:1271-1285 | a caller past its wait that is outside the slot chain never joins it again, so a slot is released once |
| TransportClass.StdioBackendTransport.RejectCallers | packages/node/src/backend/client.ts:1202-1216 | the loop over one map settles exactly the callers of that map |
| TransportClass.StdioBackendTransport.RejectEveryone | packages/node/src/backend/client.ts:1198-1216 | the four loops together settle every caller held by a map |
| TransportClass.StdioBackendTransport.RetireWriteLifecycle | packages/node/src/backend/client.ts:1000-1024 | detaches the chain of a retired child, or sets the recycle block if one is detached already |
| TransportClass.StdioBackendTransport.PromoteWaitingAdmission | packages/node/src/backend/client.ts:1297-1313 | moves a waiting id to the active ones, or leaves it in neither set |
| TransportClass.StdioBackendTransport.ReleaseWrite | packages/node/src/backend/client.ts:991-998 | releases the head of a chain and its charge, keeping `activeWrites` the set of unreleased admissions |
| TransportClass.StdioBackendTransport.Write | packages/node/src/backend/client.ts:919-945 | the fault of a line, or its admission at the end of the chain |
| TransportClass.StdioBackendTransport.HoldsWrite | packages/node/src/backend/client.ts:1000-1001 | a search over `activeWrites` finds a write of the child exactly when one of the chains holds one |
| TransportClass.StdioBackendTransport.MaybeUnblockWriteTeardown | packages/node/src/backend/client.ts:1031-1035 | the block ends once no detached chain and no active write is left |
| TransportClass.ReleaseOne | packages/node/src/backend/client.ts:991-998 | a released admission leaves its chain and `activeWrites`, which stays exactly the set of admissions on the two chains |
| TransportClass.StdioBackendTransport.HasStartedWrite | packages/node/src/backend/client.ts:1041-1043 | whether a write of the id has been started on either chain |
| TransportClass.StdioBackendTransport.AwakenAll | packages/node/src/backend/client.ts:789-831 | everyone who awaits the handshake goes on |
| TransportClass.StdioBackendTransport.Dispatch | packages/node/src/backend/client.ts:460-1635 | any event is the step of the model that it stands for |
| TransportClass.StdioBackendTransport.Advance | packages/node/src/backend/client.ts:460-1635 | whatever happens next to the object, it stays in a reachable state |
| Framing.ServerRead | packages/node/src/backend/stdio-server.ts:281-327 | the doubling-buffer reader returns the frames and the end that the byte stream means, whatever the chunks |
| Framing.ServerChunk | packages/node/src/backend/stdio-server.ts:285-322 | one chunk advances that meaning by exactly its bytes, with the buffer within the limit |
| Framing.Append | packages/node/src/backend/stdio-server.ts:295-307 | appends a segment, growing the array when needed and never past the limit |
| Framing.GrownCapacity | packages/node/src/backend/stdio-server.ts:298-301 | the growth loop ends with enough capacity, within the limit |
| Framing.ClientRead | packages/node/src/backend/client.ts:2253-2292 | the concatenating reader returns the same as the server's on every input |
| Framing.ClientFrames | packages/node/src/backend/client.ts:2259-2279 | the inner loop takes every complete frame |
| Framing.RoundTrip | packages/node/src/backend/stdio-server.ts:200-231 | writing bodies and reading them back gives the same list exactly when each has no newline, no trailing carriage return and fits the limit |
| Framing.WrittenIsRead | packages/node/src/backend/stdio-server.ts:281-327 | the same through any decoder that accepts the bodies |
| Framing.LetOutIsAccepted | packages/node/src/backend/client.ts:925-937 | for JSON texts the readers accept exactly what the server's check lets out, hence all that the client's stricter one does |
| AsyncQueues.AcceptedIff | packages/node/src/backend/client.ts:2150-2159 | a value is accepted exactly when the queue is live and the value fits both bounds beside what is held; otherwise nothing changes |
| AsyncQueues.TurnGives | packages/node/src/backend/client.ts:2195-2208 | a turn gives the oldest value held, else the error or the end, and sleeps exactly if there is none of these |
| AsyncQueues.EndingsMove | packages/node/src/backend/client.ts:2161-2188 | ending keeps what is held, failing and giving up drop it; each wakes everyone, and only the first ending or failure counts |
| AsyncQueues.Conservation | packages/node/src/backend/client.ts:2135-2208 | over any interleaving: exact charge within both bounds, what was taken is a prefix of what was accepted and all of it once drained, nobody asleep while something is deliverable |
| AsyncQueues.AsyncQueue.Push | packages/node/src/backend/client.ts:2150-2159 | accepts within both bounds and wakes, keeping the invariant |
| AsyncQueues.AsyncQueue.Finish | packages/node/src/backend/client.ts:2161-2165 | ends the queue once |
| AsyncQueues.AsyncQueue.Fail | packages/node/src/backend/client.ts:2167-2173 | drops what is held and fails once |
| AsyncQueues.AsyncQueue.Return | packages/node/src/backend/client.ts:2178-2188 | the iterator gives up |
| AsyncQueues.AsyncQueue.Next | packages/node/src/backend/client.ts:2195-2208 | one pass of the consumer loop |
| StreamPipeline.CallerSeesPrefix | packages/node/src/backend/client.ts:1785-1825 | through both queues the caller receives a prefix, in order, of the run items emitted |
| StreamPipeline.ResolvedDeliversAll | packages/node/src/backend/client.ts:1808-1814 | once `completed` resolves, a caller that drains has all items, and the result is that of the last event |
| StreamPipeline.NobodyIsStranded | packages/node/src/backend/client.ts:1785-1825 | no sleeping caller or pump has anything to take, and the promise is pending only while the pump works |
| StreamPipeline.PumpMoves | packages/node/src/backend/client.ts:1786-1819 | a pass of the reading pump takes the next event: an item goes to the caller or stops the stream, the completion resolves, a failure, an error or an early end rejects with its fault |
| StreamPipeline.StreamCanComplete | packages/node/src/backend/client.ts:1786-1819 | from any state of a stream that is not cancelled and whose items fit one by one there is a way on after which `completed` has resolved with its result |
| StreamPipeline.ResumeMoves | packages/node/src/backend/client.ts:1804-1806 | after the yield the pump reads on, unless cancelled |
| StreamPipeline.EmitMoves | packages/node/src/backend/client.ts:1149-1196 | an event is queued behind the others or fails the source as an overflow; completion ends and failure fails it |
| StreamPipeline.ReturnMoves | packages/node/src/backend/client.ts:1769-1778 | a caller that gives up cancels the stream, its source and its promise |
| StreamPipeline.BackendStream.Pump | packages/node/src/backend/client.ts:1786-1819 | one pass of the pump |
| StreamPipeline.BackendStream.TakeItem | packages/node/src/backend/client.ts:1791-1803 | forwards an item, or stops on overflow |
| StreamPipeline.BackendStream.Complete | packages/node/src/backend/client.ts:1808-1814 | resolves, finishes the queue and returns the source |
| StreamPipeline.BackendStream.Resume | packages/node/src/backend/client.ts:1804-1806 | goes on after the yield unless cancelled |
| StreamPipeline.BackendStream.Stop | packages/node/src/backend/client.ts:1820-1824 | the catch of the pump |
| StreamPipeline.BackendStream.ReturnSource | packages/node/src/backend/client.ts:1749-1759 | returns the source once |
| StreamPipeline.BackendStream.CancelTransport | packages/node/src/backend/client.ts:1760-1768 | cancels the transport route once |
| StreamPipeline.BackendStream.CancelByConsumer | packages/node/src/backend/client.ts:1769-1778 | cancellation by the caller's iterator |
| StreamPipeline.BackendStream.Return | packages/node/src/backend/client.ts:2178-2188 | the caller's iterator gives up |
| StreamPipeline.BackendStream.Emit | packages/node/src/backend/client.ts:1149-1196 | what the transport does with an event of the stream |
| ServerLoop.LiveIdsAreUnique | packages/node/src/backend/stdio-server.ts:52-106 | never more tasks than the limit; the active ids are exactly those registered by live tasks, one each |
| ServerLoop.AnsweredOnce | packages/node/src/backend/stdio-server.ts:108-160 | every request gets at most one terminal frame, a response or the terminal event of a stream, and exactly one by its end while the output is usable; all its frames carry its own id, and a unary request has no other frame |
| ServerLoop.JobsAreTheLines | packages/node/src/backend/stdio-server.ts:52-106 | the jobs are, in order and one each, the non-blank lines received, with their id and kind, but for one that waits or ended the loop; an id is active until its task ends |
| ServerLoop.MalformedIsAnswered | packages/node/src/backend/stdio-server.ts:148-156 | a line that does not parse asks for exactly one terminal frame, and every frame carries the id its line shows |
| ServerLoop.WaitingLineStarts | packages/node/src/backend/stdio-server.ts:69-83 | a waiting line gets its job and its task as soon as the loop wakes with room, usable output and no violation |
| ServerLoop.LineWaitsIff | packages/node/src/backend/stdio-server.ts:57-68 | a line waits for a slot exactly if it is not blank, shows no live id and admission has not stopped |
| ServerLoop.FramesMove | packages/node/src/backend/stdio-server.ts:200-235 | a working task asks for its frame; a frame is handed out if it fits, the output is given up if it does not or is not taken, and a frame taken ends its task if it was the last |
| ServerLoop.EveryRequestCanBeAnswered | packages/node/src/backend/stdio-server.ts:108-160 | from every reachable state with usable output each accepted request can still be answered, and then has its one terminal frame on the output |
| ServerLoop.DuplicateEndsAdmission | packages/node/src/backend/stdio-server.ts:64-68 | a line with a live id produces nothing, touches no task and ends admission for good |
| ServerLoop.LateChecksNeverFire | packages/node/src/backend/stdio-server.ts:123-138 | the duplicate checks inside `handleLine` are never reached with a live id |
| ServerLoop.OneFrameAtATime | packages/node/src/backend/stdio-server.ts:200-231 | while a frame is in flight no other starts |
| ServerLoop.FramesInCallOrder | packages/node/src/backend/stdio-server.ts:200-231 | what is on the output is a prefix of the frames in the order of the calls of `writeJson`, and while it is usable the rest is what waits |
| ServerLoop.FatalIsFinal | packages/node/src/backend/stdio-server.ts:194-204 | after a fatal write nothing more is written or admitted |
| ServerLoop.StdioServer.ReceiveLine | packages/node/src/backend/stdio-server.ts:57-68 | the checks on a framed line before it waits for a slot |
| ServerLoop.StdioServer.Admit | packages/node/src/backend/stdio-server.ts:69-83 | the loop wakes with room, and stops or starts a task |
| ServerLoop.StdioServer.HandleLine | packages/node/src/backend/stdio-server.ts:108-147 | the synchronous part of a task |
| ServerLoop.StdioServer.WriteJson | packages/node/src/backend/stdio-server.ts:200-202 | a task queues a frame |
| ServerLoop.StdioServer.EndTask | packages/node/src/backend/stdio-server.ts:157-159 | a task ends and releases its id |
| ServerLoop.StdioServer.StartWrite | packages/node/src/backend/stdio-server.ts:201-224 | the turn of the first queued frame |
| ServerLoop.StdioServer.FinishWrite | packages/node/src/backend/stdio-server.ts:224-229 | the output accepted or refused the frame in flight |
| ServerLoop.StdioServer.MarkFatal | packages/node/src/backend/stdio-server.ts:194-199 | the output is given up, once |
| WatcherRecords.ParseOfEncode | packages/node/src/response-watchers.ts:270-302 | a record is stored in a form that parses back to itself exactly when it is well formed |
| WatcherRecords.ParsedIsValid | packages/node/src/response-watchers.ts:270-302 | whatever parses is well formed: completion exactly when completed, count equal to the length of the id list |
| WatcherRegistry.ActionsAreSerial | packages/node/src/response-watchers.ts:173-183 | the ended actions are the first ones called, and store and results are those of running them one at a time in that order |
| WatcherRegistry.RecordsAreUnique | packages/node/src/response-watchers.ts:86-111 | at most one record per operation id and per watcher id, all well formed |
| WatcherRegistry.RecordsAreFinal | packages/node/src/response-watchers.ts:140-164 | registration fields never change and a terminal record never changes |
| WatcherRegistry.RegisterDecides | packages/node/src/response-watchers.ts:86-111 | a known registration is answered with its record, a clashing one refused, any other put as a pending record: each exactly then |
| WatcherRegistry.TerminalDecides | packages/node/src/response-watchers.ts:140-164 | a pending record is closed as asked, completed with the evidence or cancelled without; a terminal one is answered exactly when the action repeats it |
| WatcherRegistry.AnswersAreKept | packages/node/src/response-watchers.ts:140-164 | over every run an action answered with a record got what it asked for, and a closed record is still the stored one |
| WatcherRegistry.NoWaiterIsLost | packages/node/src/response-watchers.ts:113-122 | every registered waiter is held once by the list of its own watcher and by no other, or has returned the stored terminal record of that watcher |
| WatcherRegistry.LateRegistration | packages/node/src/response-watchers.ts:113-122 | whatever runs between the read and the registration, the waiter is stranded exactly when the read found a pending record and a commit in between closed it |
| WatcherRegistry.WaiterFate | packages/node/src/response-watchers.ts:113-122 | a stranded waiter is never woken by any later run; any other waits exactly as long as its record is pending and then returns that record |
| WatcherRegistry.StrandedWaiter | packages/node/src/response-watchers.ts:113-122 | a run that strands one |
| WatcherRegistry.StoredRecordsParse | packages/node/src/response-watchers.ts:101-108 | every record the registry stores is read back unchanged |
| WatcherRegistry.ResponseWatcherRegistry.Call | packages/node/src/response-watchers.ts:173-177 | an action joins the chain, or is refused at once |
| WatcherRegistry.ResponseWatcherRegistry.Begin | packages/node/src/response-watchers.ts:178-179 | the head of the chain reads the store and decides |
| WatcherRegistry.ResponseWatcherRegistry.Commit | packages/node/src/response-watchers.ts:180-183 | the head answers, or puts its record and wakes its waiters |
| WatcherRegistry.ResponseWatcherRegistry.AwaitRead | packages/node/src/response-watchers.ts:113-115 | the first half of `await`: the read |
| WatcherRegistry.ResponseWatcherRegistry.AwaitResume | packages/node/src/response-watchers.ts:115-121 | the second half: the answer of a terminal record, or a registered waiter |
| WatcherRegistry.ResponseWatcherRegistry.DecideOnRegister | packages/node/src/response-watchers.ts:87-108 | the decision of `register` |
| WatcherRegistry.ResponseWatcherRegistry.DecideOnTerminal | packages/node/src/response-watchers.ts:145-159 | the decision of `terminal` |
| WatcherRegistry.ResponseWatcherRegistry.PutRecord | packages/node/src/response-watchers.ts:160-160 | replaces the record of the watcher or adds one |
| WatcherRegistry.ResponseWatcherRegistry.ResolveWaiters | packages/node/src/response-watchers.ts:166-171 | wakes the waiters of a terminal record |
| AttachmentEvidence.NewIsSurplus | packages/node/src/commands/files.ts:718-731 | for every entry the new indices number the current count minus the baseline count, or zero |
| AttachmentEvidence.MatchedIsInjective | packages/node/src/commands/files.ts:732-749 | each piece of evidence is new, vouches for its file and is used once |
| AttachmentEvidence.InputEvidenceIsExact | packages/node/src/commands/files.ts:734-743 | the n-th expected file of a signature is matched by an input exactly when the surplus is at least n |
| AttachmentEvidence.MissingExactly | packages/node/src/commands/files.ts:734-748 | a file is reported missing exactly when the inputs of its signature are used up and every label that vouches for it went to an earlier file |
| AttachmentEvidence.OrderedLabelsAreExact | packages/node/src/commands/files.ts:744-748 | if among the labels of each expected file those shared with another come last, every file is visible exactly when the page can vouch for all of them at once |
| AttachmentEvidence.CompleteIff | packages/node/src/commands/files.ts:744-748 | for a page and a set of files that order of the labels is also necessary: it holds exactly when the report is complete for every list of those files |
| AttachmentEvidence.LabelsMayBeMissed | packages/node/src/commands/files.ts:744-748 | a page on which a file is reported missing although a full assignment exists |
| AttachmentEvidence.VisibleFiles | packages/node/src/commands/files.ts:718-749 | the loops compute that matching |
| AttachmentEvidence.CollectNew | packages/node/src/commands/files.ts:720-731 | the indices beyond the baseline |
| AttachmentHandoff.AtMostOneHandoff | packages/node/src/commands/files.ts:196-362 | at most one native call; attached means exactly one; resumable means none was started; a started handoff ends attached or indeterminate |
| AttachmentHandoff.StartedIff | packages/node/src/commands/files.ts:824-845 | the handoff is started exactly when a path is reached that passes its checks |
| AttachmentHandoff.AttachedIff | packages/node/src/commands/files.ts:293-362 | a run ends attached exactly when a reached path gave the files away and the page was read afterwards and showed every file |
| AttachmentHandoff.UnstartedFails | packages/node/src/commands/files.ts:824-845 | an upload that never started fails with the permission or transport failure of the path reached, or with the failure that lists them all |
| AttachmentHandoff.FailureIsReported | packages/node/src/commands/files.ts:320-362 | a failure is reported by its gravest cause, and by none once a handoff was started |
| AttachmentHandoff.RunAttempt | packages/node/src/commands/files.ts:895-954 | one upload path |
| AttachmentHandoff.UploadFiles | packages/node/src/commands/files.ts:824-845 | the loop over the paths |
| AttachmentHandoff.AttachFiles | packages/node/src/commands/files.ts:196-362 | the run with its classification of failures |
| WaitForMessage.CompletionIsStable | packages/node/src/commands/messages.ts:761-893 | a completed wait saw one key throughout the last `stableMs`, no probe skipped in it, a fetched text with that hash, and a finished generation with response actions, of a reply that has more assistant turns and comes later than the caller counted |
| WaitForMessage.InterruptedIsNew | packages/node/src/commands/messages.ts:785-812 | an interrupted result, too, is of such a reply |
| WaitForMessage.StableReplyCompletes | packages/node/src/commands/messages.ts:761-893 | conversely, once the same key was seen for `stableMs` with fetches that agree, the first reading that shows the reply finished, with actions and without blocker, completes |
| WaitForMessage.Pass | packages/node/src/commands/messages.ts:761-893 | the body of the loop |
| WaitForMessage.Wait | packages/node/src/commands/messages.ts:720-930 | the loop returns the first result, or times out |
| Negotiation.IntersectIsIdempotent | packages/node/src/backend/session.ts:535-611 | intersecting twice with the same request changes nothing |
| Negotiation.AcceptedIsIntersection | packages/node/src/backend/session.ts:154-172 | an accepted hello returns exactly the requested entries of each requested list, inside the base, with consistent tab aliases |
| Negotiation.AcceptedGrantsFlags | packages/node/src/backend/session.ts:546-667 | an accepted hello grants every cancellation, streaming, id, multiplexing and tab flag that was asked for as true, and no cancellation that was not |
| Negotiation.CoveredIsExact | packages/node/src/backend/session.ts:546-561 | a covered request never falls back to the base list |
| Negotiation.AcceptedIsNegotiatedIff | packages/node/src/backend/client.ts:2015-2090 | the client goes on with an accepted hello exactly when its request kept commands, required ids and their scope |
| Negotiation.OwnHelloIsMultiplexed | packages/node/src/backend/client.ts:759-787 | the client's own payload is accepted, negotiated and multiplexed by every backend with the required commands |

## Left out

- StreamPipeline.ResolvedDeliversAll: speaks of callers that never call `return`; an iterator that returns gives up what it has not taken.
- Negotiation.AcceptedIsNegotiatedIff: is proved for the capabilities this backend advertises; the command table is a parameter.
- Atomicity of the transport: the clean-up in the `catch` of a call (packages/node/src/backend/client.ts:540-550) is one step with the rejection that leads to it, the `catch` of a failed write one step with its release, and a successful negotiation one step with the delivery of its response. A failing handshake keeps its own later step.
- The class keeps the source's fields, with two exceptions: those that start afresh with each child are one record, and the promise chain of the single-flight slot is the list of its unreleased promises. The two write chains are lists of serials; the check for an admission released before its turn is left out, since the queue invariant excludes it.
- Clocks and timers are steps that may happen at any time; delays and expiry times are not modelled. The wait loop assumes a clock that never runs backwards.
- JSON text, UTF-8 decoding, SHA-256 and text hashing: lines carry sizes, frames go through an arbitrary decoder, hashes are arbitrary functions, and records are trees with named fields. Extra properties inside a stored completion are not modelled.
- Whether a stream's queue accepts a pushed event is an input of the transport's event step; the queue itself is modelled on its own.
- The compatibility report, stderr accounting, spawn options and error texts of the transport.
- `session.stream` (packages/node/src/backend/session.ts:112-152) is taken to yield its run items and then one terminal event, after which its task ends.
- The removal of a server task and the release of its id are one step; closing of input and output streams after the loop, and diagnostics, are not modelled.
- The line that fails to parse never registers its id, so it is not covered by the duplicate property of the server: a later request with that id is admitted while the error frame is still queued.
- The file-backed watcher store, its write queue and its file names; the store is a list of records. `resumePending` is a list of ordinary completions.
- Page structure and browser driving: readings of the page are arbitrary inputs of the wait loop, the evidence matching and the handoff. File names are in normal form.
- Command dispatch, facades, plan building, the operations, runtime and dev modules.
- Single-flight exclusion concerns routes pending on the client's side: cancelling a call whose line was written frees the slot while the backend may still be at work.
