# xcp, verified

xcp copies a file or a directory over N parallel TCP connections. A source side claims blocks
of each file with one shared atomic offset per file; every connection carries its own stream of
`header + body` frames and a tail; a destination side writes bodies into memory mappings, counts
bytes and releases each file when its count is full. A portal connection and several gates decide
who may start when. This project models that machinery in Dafny and proves what it promises, for
every number of channels and files, every size, and every interleaving.

Run `dafny verify dfyconfig.toml`, with the flags
`--resource-limit 2000000 --verification-time-limit 0` for deterministic limits.

## How it is built

| module | what it holds |
|---|---|
| `Basics`, `Hosts` | bytes, sums, ranges; host names and decimal numbers |
| `TransferModel` | the block transfer as a labelled transition system: one step is one atomic operation or one token moved through a socket; sockets are bounded FIFO queues that may fail at any step |
| `Ledger`, `TransferInvariant` | which bytes are claimed, on their way, and counted; the invariant of every reachable state |
| `TransferTheorems`, `TransferProgress` | what holds of whole runs; why runs end, and how |
| `Completion` | what a finished message says when channels failed: the exact condition |
| `Rely` | what one destination channel may assume of all the others, for all it will ever receive |
| `Tuner`, `TunerClock`, `BlockSizes` | the bandwidth-driven block size; with a clock of whole microseconds; in whole runs, fixed or tuned |
| `Wire`, `Messages` | the bytes of a channel; typed length-prefixed messages |
| `SourceChannel`, `DestinationMoves`, `DestinationChannel` | the two `invoke_channel` loops as methods that run among interfering threads, tied to the steps of `TransferModel` and the bytes of `Wire` |
| `Handshake`, `Session` | client and server portals and channel threads with their gates; the handshake wrapped around the transfer |
| `Portals` | the portal threads as methods, error branches included: what they receive, send, wait for and open, in order |
| `Gate`, `GateRace`, `GateGuard` | `gate_guard` over `manual_reset_event`: the machine with any number of threads, when its fast path races, and the objects |
| `Disposable`, `Rundown`, `PortalHandle`, `ChannelThreads`, `ServerClients`, `Verdict` | dispose exactly once; rundown protection and the handles of channel and portal threads; the server's map of clients; who decides the exit code |
| `ChannelCount` | channel totals of server and client, block-size options |
| `Directory`, `TransferInfo` | a tree and the lists that describe it |
| `DirectoryRebuild`, `DirectoryTree`, `DirectoryCopy` | a file system with resolved paths and what a list makes of it; when and where a tree is rebuilt; the copy after the transfer |
| `Endpoints`, `HostPaths` | parsing and printing of command-line endpoints and paths |

Concurrent parts are machines: a state, labels, `Enabled`, `Apply`, and `Exec`, which gives the
state a list of labels leads to. A statement about `Exec(cfg, labels)` is a statement about every
run. Where the code is a loop or an object, there is also a method or a class with the same
statements, and its contract or a lemma ties it to the machine.

## Assumptions

- Each atomic operation and each operation on a mutex is one step (sequential consistency).
- Sockets are reliable FIFO byte streams that may break at any moment. Theorems that need an
  unbroken connection say so: no label of the run is a failure.
- The source file does not change during a transfer. Client identities are distinct.
- No dispose while a transfer runs; disposing is treated on the primitives.
- Offsets have head room: file size + (N + 1) GiB is below 2^64. `OffsetBound` shows that this is
  enough, `ClaimExactIff` that a single claim is right exactly as long as its sum does not wrap.
- Microseconds are integers and doubles are exact reals in the tuner.

## What turned out false

- *A finished message means complete files* does not hold when a destination channel fails: the
  sweeper signals the gate on failure too, and the message always carries error code 0.
  `Completion.FinishedExactly` says for every finished run when it does hold: every channel that
  failed had counted all its blocks, and every file was claimed to its end; otherwise some byte
  was never stored. `FinishedDespiteFailure` and `FinishedButIncomplete` give runs in which all
  channels fail, `Completion.OneFailureSuffices` one for any N, any single channel and any files
  that are not all empty.
- *When `set` returns, nobody sleeps* does not hold with the unlocked fast path: a force may return
  while the N-th signal is between its store and its notification (`Gate.FastPathReturnsEarly`).
  `GateRace.EarlyReturnIff` says when: there is a waiter, and there are two forces, or one force
  and at least N signals. In all other configurations `GateRace.ReturnMeansNotified` proves it.
- *A directory is copied into the destination* does not hold when the last component of the source
  path is `..`: it is sent as the name of a directory, the destination resolves it, the tree lands
  beside the destination and replaces the permission of the directory above, or fails on a file of
  the destination's own name (`DirectoryTree.UpInputEscapes`, `DirectoryTree.UpInputFails`).
  `DirectoryTree.InsideUnlessUp` and `DirectoryTree.RebuiltInsideIff` prove that `..` is the only
  such name. `.` is the destination itself, whose permission is replaced.
- *Server and client agree on the number of channels* fails when channels are configured and the
  portal carries repeats as well (`CountsDiffer`); `CountsAgree` proves that this is the only case.
- *Permissions survive* fails for a file of permission 0, which becomes 0644
  (`DirectoryCopy.ZeroBecomes644`); `DirectoryCopy.ExactUnlessZero` proves that nothing else is lost.
- *Different host paths mean different things*: an empty remote path reads `~`, so `h:` and `h:~`
  are the same (`HostPaths.HomeTwice`); `HostPaths.ParseIsInjective` proves that exactly such pairs
  are.

Where comments and code disagree the code is followed: the comment at
`src/program_options.cpp:28-30` asks for absolute remote paths, but `parse` accepts any; the one at
`src/infra/network.cpp:101-107` makes repeats optional by a parameter that does not exist.

## Model

| member | source | states |
|---|---|---|
| `TransferTheorems.Partition` | src/transfer.cpp:36-49 | In every run the blocks claimed from a file are non-empty, pairwise disjoint and cover exactly what the offset handed out; once every channel has left the file that is the whole file |
| `TransferTheorems.OffsetBound` | src/transfer.cpp:40-44 | In every run each offset stays at or below file size + (N + 1) GiB, below 2^64 |
| `TransferTheorems.NoWrap` | src/transfer.cpp:41-49 | In every run each claim takes the next block, or what is left, or nothing: no sum wraps and no truncation loses bits |
| `TransferTheorems.ClaimExactIff` | src/transfer.cpp:46-49 | For any file and offset the branch yields the right size if and only if the sum does not wrap |
| `TransferTheorems.WriteOnce` | src/transfer.cpp:360-404 | In every run, failing ones included, a destination byte is stored at most once, and holds the source's byte if it was and its initial value if not |
| `TransferTheorems.MappingLifetime` | src/transfer.cpp:386-411 | A block being filled or counted lies inside a mapped file; received_size is the sum of the fully written blocks; exactly one channel sees a non-empty file complete, and that same channel unmaps it, once |
| `TransferTheorems.NeverAborts` | src/transfer.cpp:360-407 | No assert of the destination fires in any run and no write misses its mapping |
| `TransferTheorems.PassedMeansDrained` | src/transfer.cpp:331-350 | When the gate has N signals and no channel failed, nothing is on its way any more |
| `TransferTheorems.EndToEnd` | src/transfer.cpp:331-350 | In every run without a failed receive, once the portal has finished every destination file equals its source and every mapping is released |
| `TransferTheorems.FinishedDespiteFailure` | src/transfer.cpp:339-356 | For any N: all channels fail at their first receive, the portal finishes and nothing was written |
| `TransferTheorems.FinishedButIncomplete` | src/transfer.cpp:339-356 | A concrete file for which the finished destination differs from the source |
| `Completion.FinishedExactly` | src/transfer.cpp:331-356 | In every finished run, failures included: all files are complete, equal to their sources and released, if and only if every failed channel had counted all its claimed blocks and every file was claimed to its end; if not, some byte was never stored |
| `Completion.LeftOutIsInitial` | src/transfer.cpp:396-404 | A byte that was never stored holds its initial value, and its file's count is short |
| `Completion.OneFailureSuffices` | src/transfer.cpp:352-396 | For any N, any channel and files that are not all empty there is a run in which only that channel fails to receive, the portal finishes and a byte is left out |
| `TransferInvariant.StepInv` | src/transfer.cpp:28-421 | Every step of either side keeps the invariant |
| `TransferInvariant.ReachableInv` | src/transfer.cpp:28-421 | The invariant holds in every state of every run |
| `TransferInvariant.OldestIsMapped` | src/transfer.cpp:386-404 | The file of the block a channel is about to fill is mapped, because that block is claimed and not counted |
| `Ledger.ClaimPreserves` | src/transfer.cpp:41-49 | A claim adds a block apart from all others, so the ledger still accounts for every byte |
| `Ledger.CountPreserves` | src/transfer.cpp:403-407 | Counting the oldest block of a channel moves exactly its bytes to the counted ones |
| `Ledger.FullMeansAll` | src/transfer.cpp:403-409 | A count equal to the file size means that every byte of the file was counted |
| `Ledger.PendingMeansNotFull` | src/transfer.cpp:389-404 | While a block of a file is on its way, the file's count is below its size |
| `Ledger.DrainedMeansFull` | src/transfer.cpp:331-340 | With all offsets past the end and nothing on its way, every count is full |
| `Ledger.TilesPartition` | src/transfer.cpp:41-49 | Consecutive claims tile a prefix of the file: disjoint and without gaps |
| `TransferProgress.StepWork` | src/transfer.cpp:28-421 | Every step, failing or not, lowers a measure over all channels, files and sockets |
| `TransferProgress.RunsEnd` | src/transfer.cpp:28-421 | No run is longer than the initial measure |
| `TransferProgress.NotStuck` | src/transfer.cpp:28-421 | A failure-free state that has not finished enables a step that is not a failure |
| `TransferProgress.MaximalRunsFinish` | src/transfer.cpp:28-421 | A failure-free run that cannot go on has finished, with every file copied |
| `Rely.Reserved` | src/transfer.cpp:386-409 | In every reachable state the blocks a channel has on their way fit beside the count of their file, and their files are mapped |
| `Rely.OthersRespect` | src/transfer.cpp:386-411 | In every run and every continuation of it, a step of any other thread leaves a channel alone, leaves room for all blocks it will ever receive, keeps their files mapped, and touches neither their bytes nor any byte written before |
| `Tuner.AdjustBounds` | src/transfer.cpp:80-115 | For any elapsed time the next size is a multiple of 64 KiB in [64 KiB, 1 GiB], and no intermediate value leaves 64 bits |
| `Tuner.FastStep` | src/transfer.cpp:90-92 | A block that took at most a second is replaced by the bandwidth, aligned and clamped |
| `Tuner.SlowStep` | src/transfer.cpp:93-106 | Above the bandwidth the size stays exactly when it is within 5 * (64 KiB - 1) of it, and otherwise loses at least 64 KiB without falling below it |
| `Tuner.Converges` | src/transfer.cpp:80-115 | At a constant rate the size reaches a fixed point from any start within 2^14 + 2 sends: 1 GiB for 1 GiB/s or more, otherwise in [rate, rate + 5 * 64 KiB) |
| `Tuner.AdjustIsTuned` | src/transfer.cpp:80-115 | In whole numbers and without the computation: the next size is the one determined by the bounds on its quotient (twice the block, the bytes of a second, or four fifths and one fifth) and by being the least multiple of 64 KiB that holds it, at most 1 GiB |
| `Tuner.NoTimeDoubles` | src/transfer.cpp:84-87 | An elapsed time of 0 or less doubles the size, rounded up, to at most 1 GiB |
| `TunerClock.Settles` | src/transfer.cpp:84-115 | At a constant rate measured in truncated microseconds the size reaches a fixed point from any start within 2^14 + 3 sends: 1 GiB, or between the rate and 5 * (64 KiB - 1) plus a millionth of it above |
| `BlockSizes.SizeInRun` | src/transfer.cpp:34-118 | In every run a channel's block size is the one asked for when it is fixed, and otherwise what the times its own sends took make of the first |
| `BlockSizes.ClaimsOfRun` | src/transfer.cpp:41-49 | In every run a channel's next claim moves the offset by that size and takes that many bytes, or the rest of the file, or nothing |
| `BlockSizes.FixedSizes` | src/transfer.cpp:82 | With a fixed size every channel keeps it, and every block ever claimed has it or is the rest of its file |
| `BlockSizes.SettlesInRun` | src/transfer.cpp:80-118 | A channel of a run whose sends tell of a constant bandwidth has settled in that range after 2^14 + 3 of them, whatever the others do |
| `BlockSizes.ConvergesInRun` | src/transfer.cpp:80-118 | If the clock is exact as well, it has settled in the range of `Tuner.Converges` |
| `Wire.HeaderRoundTrip` | src/transfer.cpp:51-55 | Decoding an encoded header gives its 64-bit offset, size and file number back |
| `Wire.TailDecodes` | src/transfer.cpp:131-136 | The tail decodes to the values the receiver tests for, with size 0, which no block has |
| `Wire.HeaderLayout` | src/transfer.cpp:51-55 | The offset is in bytes 0 to 7 of a header, the size in 8 to 11, the file number in 12 to 15, all big-endian |
| `Wire.TailLayout` | src/transfer.cpp:132-136 | The tail is eight bytes 255, four bytes 0 and four bytes 255 |
| `Wire.EncodeStream` | src/transfer.cpp:51-72 | The tokens of a list of blocks and a tail encode to the concatenated frames |
| `Wire.ParseStream` | src/transfer.cpp:360-384 | Parsing the bytes of any list of blocks followed by the tail returns that list and stops behind the tail |
| `SourceChannel.MovesAreSteps` | src/transfer.cpp:36-142 | The moves of the loop are the source steps of the transfer system, with the same effect on offset and socket |
| `SourceChannel.SharedOffset.FetchAdd` | src/transfer.cpp:41 | fetch_add among other channels: returns a value between the last one seen and the ceiling, and stores it plus the block size |
| `SourceChannel.FillHeader` | src/transfer.cpp:51-55 | The buffer holds the encoded header |
| `SourceChannel.AdjustBlockSize` | src/transfer.cpp:82-115 | The statements compute the tuner's next size, within its bounds |
| `SourceChannel.ClaimNext` | src/transfer.cpp:41-49 | One claim move: a block inside the file, or nothing because the offset is past the end |
| `SourceChannel.SendFrame` | src/transfer.cpp:63-72 | Header and body go out exactly when the connection holds, otherwise a prefix of them |
| `SourceChannel.Retune` | src/transfer.cpp:80-118 | A fixed size stays; otherwise the next size is the tuner's for the elapsed time |
| `SourceChannel.SendFileBlocks` | src/transfer.cpp:40-125 | The inner loop performs a run of moves up to the next file, all of whose bytes are sent, exactly when the connection holds; its blocks have the fixed size, or the sizes that the times of the sends before give |
| `SourceChannel.InvokeChannel` | src/transfer.cpp:28-146 | Succeeds exactly when the connection holds: a complete run of moves, exactly its bytes on the socket, and every offset past its file; otherwise an incomplete run and a prefix of the block or tail being sent. Either way the k-th block has the fixed size, or the one that the times of the k sends before give, or is the rest of its file |
| `SourceChannel.RunSizes` | src/transfer.cpp:40-118 | The same of every run of moves |
| `SourceChannel.FillTail` | src/transfer.cpp:132-136 | The buffer holds the tail |
| `SourceChannel.BlocksEncodable` | src/transfer.cpp:46-55 | Every block a run claims fits the fields of its header |
| `SourceChannel.CompleteRunParses` | src/transfer.cpp:28-146 | What a completed channel sent parses to the blocks it claimed, with their contents, and stops behind its tail |
| `DestinationChannel.RecvContext.AddReceived` | src/transfer.cpp:403-404 | Adding to the shared count among other channels never exceeds the file size and finds the file mapped |
| `DestinationMoves.MovesAreSteps` | src/transfer.cpp:358-421 | The moves of the receive loop are the destination steps of the transfer system, with the same effect on the channel, and only they touch it besides its peer |
| `DestinationChannel.RecvBlock` | src/transfer.cpp:396-411 | A body lands at its offset and is added to the file's count; on failure its positions hold old or source bytes and the counts stay; the channel that completes the file unmaps it |
| `DestinationChannel.RecvHeader` | src/transfer.cpp:360-388 | The next header is the next block of the peer, or its tail |
| `DestinationChannel.ReceiveLoop` | src/transfer.cpp:358-421 | A run of destination moves; exactly when the connection holds the stream up to its tail is consumed, every block is in place, and each file's count has grown by at least its blocks; otherwise the run broke off in or before one of them |
| `DestinationChannel.InvokeChannel` | src/transfer.cpp:352-421 | The same, as a run of moves up to the exit, with the gate signalled once on every way out |
| `Handshake.HStepInv` | src/server.cpp:40-310 | Every step of a portal or channel thread keeps the handshake's invariant and fires no assert |
| `Handshake.ReadyMeansRegistered` | src/server.cpp:239-266 | Once either gate to the transfer is open all N channels are registered and signalled, and both transfer objects are built and initialised |
| `Handshake.HStepWork` | src/client.cpp:269-504 | Every handshake step lowers a measure over all threads |
| `Handshake.HNotStuck` | src/server.cpp:239-302 | The handshake enables a step until every thread on both sides runs the transfer |
| `Session.SessionInv` | src/server.cpp:40-310 | The combined invariant of handshake and transfer holds in every state of every session |
| `Session.Causality` | src/server.cpp:288-302 | In every session no identity lookup fails, and a thread inside invoke_channel, on either side, means that its transfer is initialised and N channels are registered |
| `Session.PassLink` | src/transfer.cpp:331-340 | When the destination's gate can be passed, both portals run the transfer |
| `Session.SessionsEnd` | src/client.cpp:269-504 | No session is longer than its initial measure |
| `Session.SessionNotStuck` | src/client.cpp:36-116 | A session that is not over enables a step |
| `Session.SessionsSucceed` | src/client.cpp:487-500 | Every session that cannot go on, in either direction, ended with status SUCCEEDED, every thread returned and every file copied |
| `Portals.DestinationInvokePortal` | src/transfer.cpp:331-350 | Waits until the signals of others open the gate, and only then sends the finished message |
| `Portals.SourceInvokePortal` | src/transfer.cpp:8-26 | True exactly for a received finished message with error code 0, and so, on a connection that holds, for the one a destination sends |
| `Portals.FinishCrosses` | src/transfer.cpp:341-349 | What a destination sends when its invoke_portal returns true makes the source's return true |
| `Portals.Answer` | src/server.cpp:109-260 | In this order: information out, request in, the wait for all channels unless the request is refused, response out. The response carries the refusal's non-zero code and text, or code 0 and exactly what was built. On a connection that holds it fails only for want of a request |
| `Portals.ServerPortal` | src/server.cpp:109-279 | The same; then the channels' gate is signalled exactly when the transfer was built and answered, and the portal succeeds exactly when the finished message got out after the wait for the channels, or a good one came in; all acts in order, and exactly those messages' bytes |
| `Portals.Introduce` | src/client.cpp:313-435 | In this order: information in, request out, response without error in; all advertised channels were created. Accepted exactly when the two messages heard say so and, as a destination, the files could be made |
| `Portals.ClientPortal` | src/client.cpp:313-501 | The channels' gate is signalled exactly when the client was accepted; the portal succeeds exactly when the finished message got out, or a good one came in; all acts in order; the status is failed or succeeded accordingly, earlier failures kept |
| `Portals.PortalsUnderstand` | src/client.cpp:313-477 | What either portal says in a session that ends well is what the receives of the other ask for, in order, with either side as source |
| `Portals.AcceptedIffBuilt` | src/server.cpp:226-262 | Both portals together: a client that hears a server's answer goes on if and only if the server built the transfer, and holds exactly what was built; of a refusal it hears code and text |
| `Messages.ReceiveFrame` | src/message.h:110-196 | A framed message is received by a receive of its type, which consumes exactly its frame; any other type consumes the header and fails |
| `Messages.FrameLayout` | src/message.h:130-136 | A frame is the type's number, the length, both four bytes big-endian, and the message |
| `Messages.MessagesRoundTrip` | src/message.h:110-196 | Any list of messages comes back from receives of their types, and what follows is left on the socket |
| `Messages.WrongTypeStops` | src/message.h:172-176 | A receive of the wrong type ends the list there |
| `Messages.MessageSend` | src/message.h:109-155 | The frame goes out exactly when it fits 2 GiB and the connection holds; over 2 GiB nothing does; on failure a prefix |
| `Messages.MessageRecv` | src/message.h:158-196 | Unless the connection fails, the outcome and the bytes consumed are those the bytes on the socket determine |
| `Gate.StepInv` | src/infra/gate_guard.h:28-51 | Every step of any number of signal, force and wait calls keeps the gate's invariant |
| `Gate.NoEarlyPass` | src/infra/gate_guard.h:28-59 | Without a force, a returned waiter or a true can_pass means at least N signals, and the counter is their number |
| `Gate.CanPassIsStable` | src/infra/gate_guard.h:53-59 | can_pass never goes back to false, and a set event stays set |
| `Gate.NoLostWakeup` | src/infra/manual_reset_event.h:27-42 | With any number of signals and forces: once the gate can be passed and every call inside set has returned, no waiter sleeps un-notified |
| `Gate.AsleepOnlyBeforeNotify` | src/infra/manual_reset_event.h:27-42 | With a set event a waiter sleeps un-notified only while a setter holds the mutex between store and notification |
| `Gate.SpuriousWakeSleepsAgain` | src/infra/manual_reset_event.h:36-42 | A waiter woken without reason before the event is set looks and sleeps again, with nothing else changed |
| `Gate.FastPathReturnsEarly` | src/infra/manual_reset_event.h:27-34 | A run with one waiter, one signal and one force in which the force returns by the fast path while the waiter sleeps un-notified |
| `GateRace.ReturnMeansNotified` | src/infra/gate_guard.h:28-44 | With at most one force, and fewer than N signals beside it: in every run, once the call that reached set has returned the event is set and nobody sleeps un-notified |
| `GateRace.RaceHappens` | src/infra/gate_guard.h:28-51 | Two calls that may reach set, and a waiter: a run in which one returns while the waiter sleeps un-notified |
| `GateRace.EarlyReturnIff` | src/infra/gate_guard.h:28-51 | Such a run exists if and only if there is a waiter, and there are two forces, or a force and at least N signals |
| `Gate.NotStuck` | src/infra/manual_reset_event.h:36-42 | Whoever is not returned or asleep, someone can step |
| `Gate.RunsEnd` | src/infra/gate_guard.h:28-51 | Eleven steps per call and four per spurious wakeup bound every run |
| `Gate.GateTheorem` | src/infra/gate_guard.h:28-51 | A run that cannot go on has every call returned, except waiters in front of a gate that got neither N signals nor a force; those all sleep |
| `GateGuard.GateGuard.Init` | src/infra/gate_guard.h:19-26 | An initialised gate counts from 0 and is not set |
| `GateGuard.GateGuard.Signal` | src/infra/gate_guard.h:28-36 | Counter and event change as an undisturbed signal changes them; they still agree afterwards unless it was the 2^64-th signal |
| `GateGuard.GateGuard.ForceSignalAll` | src/infra/gate_guard.h:38-44 | The count is reached and the event is set |
| `GateGuard.GateGuard.CanPass` | src/infra/gate_guard.h:53-59 | True exactly when the event is set |
| `GateGuard.Awaited.Wait` | src/infra/gate_guard.h:46-51 | Returns with the event set, which it never sets itself: counter and event are what the calls of the others, and nothing else, made of them |
| `GateGuard.OpenedBy` | src/infra/gate_guard.h:28-51 | Calls open a gate if and only if it was open, one is a force, or the missing signals are among them |
| `GateGuard.ManualResetEvent.Set` | src/infra/manual_reset_event.h:27-34 | The event is set |
| `GateGuard.LoneCall` | src/infra/gate_guard.h:28-44 | The machine run by one thread alone has the effect of the method, gives the mutex back and wakes every sleeper |
| `Disposable.DisposeOnce` | src/infra/disposable.h:26-69 | In every run dispose_impl starts at most once, no assert fires, a dispose or async_dispose(true) that returned did so in state DISPOSED, and async_dispose(false) never waits |
| `Disposable.StatusMonotone` | src/infra/disposable.h:26-69 | The status only moves from NORMAL to DISPOSING to DISPOSED, one of them at a step |
| `Disposable.RunsEnd` | src/infra/disposable.h:26-84 | Five steps per call bound every run |
| `Disposable.DisposeCompletes` | src/infra/disposable.h:21-84 | A run that cannot go on has every call returned, every created thread ended and the object disposed by exactly one dispose_impl |
| `Disposable.Shared.Exchange` | src/infra/disposable.h:29 | The exchange is won exactly by who finds NORMAL, among threads that advance the status |
| `Disposable.Shared.WaitForDisposeDone` | src/infra/disposable.h:77-84 | The polling loop ends, with the object disposed |
| `Disposable.Shared.Dispose` | src/infra/disposable.h:26-40 | Returns disposed, and ran dispose_impl exactly when it won the exchange |
| `Disposable.Shared.AsyncDispose` | src/infra/disposable.h:42-69 | With waiting like dispose; without, never before somebody's exchange |
| `Rundown.RunInv` | src/infra/rundown_protection.h:19-45 | Locks, list and handle counts are consistent in every state of every run |
| `Rundown.NoLockAfterFlag` | src/infra/rundown_protection.h:19-45 | Once the flag is up, no reader or channel thread that had not read it before ever owns the lock or adds a handle |
| `Rundown.ListFrozen` | src/server.cpp:343-361 | While the teardown holds the lock nobody else changes channel_threads |
| `Rundown.HandlesSafe` | src/server.cpp:343-361 | No handle is joined or detached twice, or both; a join always meets a joinable handle; once a teardown returned the list is empty and exactly the handles that were ever in it are joined |
| `Rundown.DetachedForReason` | src/server.cpp:666-675 | A handle is detached only after a failure of its own thread, or after a teardown raised the flag |
| `Rundown.AllAddedWithoutTeardown` | src/server.cpp:785-801 | Without a teardown exactly the channel threads that did not fail end up in the list |
| `Rundown.NotStuck` | src/infra/rundown_protection.h:39-45 | No deadlock: a waiting acquire_rundown waits for threads that can move |
| `Rundown.RunsEnd` | src/infra/rundown_protection.h:19-45 | Twelve steps per thread bound every run |
| `Rundown.HandlesSettled` | src/server.cpp:771-801 | In a run that cannot go on, with a teardown, every accepted channel thread's handle is joined or detached, exactly one of the two, exactly once |
| `PortalHandle.HandleSafe` | src/server.cpp:666-675 | In every run with any competing dispose calls the portal thread's handle is joined or detached at most once, never both; a join finds it joinable and its thread ended |
| `PortalHandle.RunsEnd` | src/server.cpp:739-769 | Five steps per dispose call and two of the thread bound every run |
| `PortalHandle.HandleSettled` | src/server.cpp:336-341 | In a run that cannot go on the handle is settled exactly once: joined exactly when the thread became a client's portal thread, which is then disposed, detached exactly when not |
| `ChannelThreads.RundownProtection.AcquireShared` | src/infra/rundown_protection.h:19-27 | Among threads that hold the lock and raise the flag: owns a share exactly when no rundown is required by the time the flag is read |
| `ChannelThreads.RundownProtection.AcquireUnique` | src/infra/rundown_protection.h:29-37 | The same for the lock, which nobody else holds then |
| `ChannelThreads.RundownProtection.AcquireRundown` | src/infra/rundown_protection.h:39-45 | The flag is up, and the lock is owned once the others have let go |
| `ChannelThreads.ClientInstance.Accept` | src/server.cpp:785-801 | The handle is added to the list behind those that got in before, or detached exactly when a rundown was required |
| `ChannelThreads.ClientInstance.JoinAll` | src/server.cpp:343-361 | Every handle of the list, late ones included, is joined, those known at the call exactly once and never detached, and the list is empty |
| `ServerClients.ServerPortalState.AcceptPortal` | src/server.cpp:743-769 | A new client is registered under its identity unless the server is going down; a taken identity keeps its first client |
| `ServerClients.ServerPortalState.AcceptChannel` | src/server.cpp:771-801 | The thread joins the client of its identity and no other; an unknown identity or a client being torn down detaches it |
| `ServerClients.ServerPortalState.RemoveClient` | src/server.cpp:364-378 | Exactly that client is removed, and none when the server is going down |
| `Verdict.RunInv` | src/client.cpp:106-113 | In every interleaving the status is what the recorded results say, whatever their order |
| `Verdict.FinalVerdict` | src/xcp.cpp:45-57 | Once everything is joined, success means that invoke_portal returned true and no invoke_channel returned false, and conversely |
| `Verdict.VerdictOfRun` | src/xcp.cpp:45-57 | Read off the run itself: success if and only if in this run invoke_portal returned true and no invoke_channel returned false |
| `Verdict.VerdictReached` | src/client.cpp:252-266 | A run that cannot go on has a verdict |
| `Verdict.RunsEnd` | src/client.cpp:106-113 | Three steps per thread bound every run |
| `Verdict.FailureWins` | src/client.cpp:483-501 | A recorded failure is never overwritten |
| `Verdict.PortalResult.ChannelReturned` | src/client.cpp:106-113 | A failed channel makes the status FAILED in any state |
| `Verdict.PortalResult.PortalReturned` | src/client.cpp:487-500 | Success is recorded unless a failure was |
| `ChannelCount.XcpdProgramOptions.PostProcess` | src/program_options.cpp:360-440 | Succeeds exactly when portal and channels resolve; then what was configured survives and a default is filled in exactly where a value was missing; without channels the total is the portal's repeats or 12, otherwise the wrapped sum of the channels' |
| `ChannelCount.TotalsConfigured` | src/program_options.cpp:403-437 | Without channels both totals are the portal's repeats as configured, or 12; otherwise the server's is the sum of the channels', each as configured, or 1 |
| `ChannelCount.PortalOnly` | src/program_options.cpp:403-412 | `*:62581@4` alone has four channels, an empty configuration twelve |
| `ChannelCount.ServerInformation` | src/server.cpp:109-131 | The list holds the portal's address and repeats if it has any, then those of the channels, in order, all repeats positive |
| `ChannelCount.CreateChannels` | src/client.cpp:325-374 | As many channels are created as the list adds up to |
| `ChannelCount.CountsAgree` | src/program_options.cpp:403-437 | Server total and client total agree, as numbers and as size_t, exactly unless channels are configured and the portal carries repeats |
| `ChannelCount.HandshakeConfigured` | src/server.cpp:113-131 | The handshake's assumption on the two counts is that same condition |
| `ChannelCount.CountsDiffer` | src/program_options.cpp:403-437 | A configuration in which three channels connect and the gates wait for one |
| `ChannelCount.XcpProgramOptions.ClampBlockSize` | src/program_options.cpp:310-322 | No size becomes 0, a size over 1 GiB becomes 1 GiB |
| `ChannelCount.InitialBlock` | src/transfer.cpp:277-282 | The first block size is positive and at most 1 GiB, and fixed exactly when one was asked for |
| `Directory.SplitJoin` | src/transfer.cpp:229-240 | A path of usable names is recovered from its text |
| `Directory.PreOrderListing` | src/transfer.cpp:238-265 | The iteration visits every item at its place, once, and after its directory |
| `Directory.AllVisited` | src/transfer.cpp:238-265 | Whatever the tree has is visited |
| `Directory.TransferSource.PrepareTransferDirectory` | src/transfer.cpp:223-266 | Fails exactly at a special file; otherwise the lists describe what was visited and handle i reads the i-th file |
| `DirectoryRebuild.TransferDestination.PrepareTransferDirectory` | src/transfer.cpp:601-622 | Succeeds exactly when every directory can be created and every file opened at its resolved place; context i is the i-th file |
| `DirectoryRebuild.TransferDestination.InitTransferDirectory` | src/transfer.cpp:642-684 | An existing directory is used, a missing one is made with 0755 in an existing one, anything else is refused and nothing touched; then as above |
| `DirectoryRebuild.ArrivedInWorld` | src/transfer.cpp:664-678 | The arrival succeeds if and only if the destination is a directory or is missing from one; then it is a directory, empty if it was missing, and every other place is as it was |
| `DirectoryRebuild.SkeletonRebuilt` | src/transfer.cpp:601-622 | A list whose directories are visited first is carried out if and only if nothing of the other kind is in the way of any item; then exactly its items are in place and everything else is as it was |
| `DirectoryTree.ListsOfTree` | src/transfer.cpp:229-240 | The lists sent are those of the tree under the last component of the source path, whatever it is, or of the tree itself when that is empty |
| `DirectoryTree.SkeletonOfTree` | src/transfer.cpp:601-622 | For any tree, last component, destination and file system before the arrival: the lists are carried out if and only if the destination can be a directory, nothing of the other kind is where a node goes, and no file goes where the destination is; then each node is at its place with its permission and size, the destination is there, and nothing else changed |
| `DirectoryTree.InsideUnlessUp` | src/transfer.cpp:601-604 | Everything is put inside the destination if and only if the last component is not `..`, or the destination is the root |
| `DirectoryTree.RebuiltInsideIff` | src/transfer.cpp:229-240 | Into an empty destination other than the root, or one still to be made, the tree is rebuilt without touching anything outside if and only if the last component is not `..` |
| `DirectoryTree.MissingIsMade` | src/transfer.cpp:674-678 | Any tree not sent from `..` into a missing /srv/new in an existing /srv: it is made |
| `DirectoryTree.UpFails` | src/transfer.cpp:613-621 | With `..` and a file of the destination's own name the destination fails, whatever exists |
| `DirectoryTree.UpEscapes` | src/transfer.cpp:607-609 | With `..` the permission of the directory above is replaced, and an entry of the tree lands beside the destination |
| `DirectoryTree.UpInputFails` | src/transfer.cpp:229-240 | A concrete tree with a file `d`, sent from `..` into an empty /srv/d, fails |
| `DirectoryTree.UpInputEscapes` | src/transfer.cpp:229-240 | A concrete tree with a file `x`, sent from `..` into an empty /srv/d, becomes /srv/x and changes the permission of /srv |
| `DirectoryCopy.IndexesAgree` | src/transfer.cpp:250-258 | Index i of file list, handles and mappings denotes one and the same file of the tree; no two share a place and none is missing |
| `DirectoryCopy.DirectoryCopied` | src/transfer.cpp:223-622 | The whole operation, for any tree and any file system: the directory is copied if and only if the destination can be a directory and is clear, and then any successful run leaves each node at its place with its content, the destination there, and nothing else changed |
| `DirectoryCopy.SoundRunsSucceed` | src/transfer.cpp:331-350 | Every finished run without a failed receive is such a run |
| `DirectoryCopy.ExactUnlessZero` | src/transfer.cpp:525-533 | The destination after the transfer is the tree, permissions included, if and only if no file has permission 0 |
| `DirectoryCopy.ZeroBecomes644` | src/transfer.cpp:525-533 | A concrete tree whose file of permission 0 has 0644 after every successful run |
| `Hosts.ValueOfDecimal` | src/infra/network.cpp:263-275 | Reading a printed number gives it back |
| `Hosts.HostNameChars` | src/infra/network.cpp:117 | A host name has no colon, at sign or bracket |
| `Hosts.HostEdges` | src/infra/network.cpp:117-118 | The characters of host names and addresses begin and end where the ranges of the expression do |
| `Hosts.TakeHostFinds` | src/infra/network.cpp:117-120 | A host followed by a colon or the end is found without looking back |
| `Endpoints.MatchIsUnique` | src/infra/network.cpp:115-127 | The split into host, port and repeats is unique, and a function of the input |
| `Endpoints.ParseRefuses` | src/infra/network.cpp:139-181 | A matching string is refused exactly for a port of 65536 or more or repeats beyond an int |
| `Endpoints.ParseSound` | src/infra/network.cpp:99-185 | Everything accepted is valid and names the matched host |
| `Endpoints.ParseMeans` | src/infra/network.cpp:130-172 | Each part of an accepted string means what it says: an absent port or count stays open, `*` is port 0, digits are their value |
| `Endpoints.StarIsZero` | src/infra/network.cpp:140-142 | `host:*` is accepted and asks for port 0, for any host and repeats |
| `Endpoints.PrintParse` | src/infra/network.cpp:263-277 | Parsing the printed form of any valid endpoint gives it back |
| `Endpoints.ParsePrintParse` | src/infra/network.cpp:99-277 | Every accepted string denotes the same endpoint as its printed form |
| `Endpoints.TcpEndpoint.Parse` | src/infra/network.cpp:99-185 | Fields and result are those of the parse; nothing changes without a match |
| `Endpoints.TcpEndpoint.ToString` | src/infra/network.cpp:263-277 | The printed form of the fields |
| `HostPaths.RemoteIsUnique` | src/program_options.cpp:40-44 | A string has at most one `[user@]host:` prefix, and it is a function of the input |
| `HostPaths.ParseLosesNothing` | src/program_options.cpp:69-105 | The parts re-concatenate to the input, except that an empty remote path reads `~` |
| `HostPaths.RejoinParses` | src/program_options.cpp:69-105 | Written parts are parsed back, always with a host and for a local path exactly when it does not look remote |
| `HostPaths.ParseIsInjective` | src/program_options.cpp:93-103 | An accepted input parses like another one if and only if they are equal, or one is a remote prefix with an empty path and the other the same with `~` |
| `HostPaths.HomeTwice` | src/program_options.cpp:93-103 | `h:` and `h:~` parse alike |
| `HostPaths.ParseRefuses` | src/program_options.cpp:43-72 | Refused exactly: the empty string, and a line break outside a user name |
| `HostPaths.HostPathOption.Parse` | src/program_options.cpp:8-106 | The fields are assigned exactly when the string is accepted |

## Left out

- Operating-system calls: sockets, sendfile, mmap, ftruncate, getaddrinfo and signals appear as FIFO
  streams, byte sequences, parameters and choices that may fail.
- Dispose during a transfer: `dispose_impl` of client and server resets `transfer` before it joins
  the threads, so nothing is claimed about a transfer that is torn down while it runs.
- Releasing every mapping on dispose: on Linux the handle is closed first and `unmap_file` is then
  skipped, so this is not a property of the code; the normal completion path is modelled.
- Error branches of the handshake under interleaving: `Handshake` and `Session` are failure-free;
  `Portals` has the error branches of the portal threads, one thread at a time.
- A channel that cannot be connected, and a dispose between two steps of a portal: `Portals` goes on.
- Protocol version negotiation: both sides support one version.
- The IPv6 regular expression: a bracketed address is a token over hexadecimal digits, `:` and `.`.
- Windows paths, drive letters and file calls; user lookup and the home directory of relative server paths.
- Progress callback and `_transferred_size`: reporting only.
- cereal: a serializer is any pair of functions of which reading inverts writing.
- Rounding of doubles in the tuner: exact reals.
- Directories the iterator may not read, the effect of a directory's permission on creating entries
  in it, and symbolic links: `..` is the directory above in the path.
- A thread making several calls on one gate or object: each call is its own thread, which allows
  more interleavings.
- 2^64 signals on one gate: the number of calls and the count together stay below 2^64.
- `GateGuard.Awaited.Wait`: other threads are the list of calls they will make; that they make
  enough of them is a precondition, and the sleeping and waking itself is in `Gate`.
- `manual_reset_event::reset`: nothing calls it.
- `Disposable.Shared.Dispose`: that another thread's dispose_impl ends is a bound on the number of polls.
- `DestinationChannel.InvokeChannel`: the other channels are a rely condition on the shared file,
  which `Rely.OthersRespect` proves of every step of the transfer system.
- `ChannelThreads.ClientInstance.Accept`: a flag raised by another thread between taking and
  releasing the lock; `Rundown` has it.
- `src/infra/semaphore.h`, `logging.h`, `user.cpp`, `sighandle.h` and everything under `thirdparty/`.
