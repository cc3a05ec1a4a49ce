# RelayDock, verified

RelayDock relays terminal output from a Go agent, through a Fastify server, to browser viewers. This project is a Dafny
model of the parts of RelayDock whose correctness spans several operations or several machines, with proofs about all
their runs. `dafny verify dfyconfig.toml` checks everything.

What updates fields in the original is a class here whose methods state their whole effect through a function or
predicate on values; a protocol is a state machine whose step functions are those handlers' turns, and a theorem about
it quantifies over every run.

| file | what it models |
|---|---|
| `Wrappers.dfy`, `Chunks.dfy` | shared definitions; output chunks and their byte sums |
| `Utf8.dfy`, `Encoding.dfy` | recognising UTF-8, and Go's repair of ill-formed input; what it encodes, by arithmetic |
| `Coalescer.dfy` | the agent's read loop, coalescing flushes, rune-aligned cuts, and the size of the resulting JSON frames |
| `ReplayBuffer.dfy` | the agent's bounded buffer as a window on an unbounded log |
| `Retention.dfy` | the server's batched inserts and incremental byte cap, against the one-shot specification |
| `Resurrection.dfy`, `ResurrectionRuns.dfy` | agent window, lossy connection and server retention together; runs in which evicted output returns |
| `Persistence.dfy` | background batching of live output, and the per-job operation chain |
| `Paging.dfy` | replay pages and the client's cursor loop |
| `Subscriptions.dfy` | the begin / replay / finish queue and the live fan-out |
| `Viewer.dfy` | the browser's high-water mark and hand-off to the terminal |
| `LiveView.dfy`, `PagedReplay.dfy` | relay, persistence, subscription, socket and viewer, end to end; catching up over any number of pages |
| `Lifecycle.dfy`, `Reconnect.dfy` | the job status machine; its product with the agent's session across reconnects |
| `Presence.dfy`, `RoutedSends.dfy` | a device's presence key shared by any number of instances, and messages routed by it; what sends and heartbeats achieve |
| `Acks.dfy`, `Validation.dfy` | promises of relayed messages and of repository validations |
| `Registry.dfy`, `InputGate.dfy` | the agent's session registry; its input gate and the viewers' input seeds |
| `Installer.dfy` | the installer as a file-system protocol in which every step may fail |

## Where the code falls short of a simpler claim

Some properties one would expect of the code need a condition. For each the condition is proved exact, or a failing run
is given:

- Output the server evicted can come back. It does not as long as the server persists in the order it receives and no
  frame goes out for a chunk from which on the agent has added over a byte more than the server's cap
  (`Resurrection.NoResurrection`). With the default caps, 4 MiB and 10 MiB, that is so while no more than 6 MiB are
  added between the snapshot of a buffer sync and its last frame (`Resurrection.NoResurrectionWhileSteady`); a sync
  sends its snapshot frame by frame, among live frames. None of the conditions can go: with an agent buffer two bytes
  over the server's cap a quiet sync is enough (`ResurrectionRuns.LargerWindowRun`), and with any caps from a few bytes
  on so is a sync slower than the live output (`ResurrectionRuns.InterleavedSyncRun`), or one whose chunks persist while
  an earlier live chunk still waits in `pendingPersist` (`ResurrectionRuns.OvertakingRun`). What a late frame brings is
  stored again exactly when it fits beside the rows kept (`ResurrectionRuns.LateFrameReturnsIff`).
- A viewer misses output for good when a live frame is relayed before everything below it has been broadcast, as can
  happen after the agent reconnects (`LiveView.OvertakingFrameHoleIff`, `LiveView.LostFrameRun`), or when more than one
  page is missing as it subscribes and live frames are queued meanwhile (`LiveView.HoleIffBacklogExceedsPage`,
  `LiveView.PageHoleRun`). A sync that persists ahead of a pending chunk leaves a gap in the stored rows
  (`LiveView.SyncLeavesPrefixIff`), which the next flush closes if everything before the synced chunk has been broadcast
  (`LiveView.FlushClosesGapIff`); a viewer that reads a page before that misses the output in between, unless the page
  ends before the gap (`LiveView.SyncAheadPageIff`, `LiveView.SyncAheadRun`). Otherwise a viewer misses nothing
  (`LiveView.GapFreeViewer`), and however long its backlog, it reads page after page to the end as long as nothing is
  broadcast to it meanwhile (`PagedReplay.PagesToTheEnd`).
- A batch that repeats a sequence not stored yet, with data, leaves `retainedOutputBytes` too high, and nothing else
  does (`Retention.CounterDrift`, `Retention.RepeatedSequenceBreaksTheCounter`).
- A rune cut by the end of a read is replaced, not carried over (`Utf8.ReadsAreLosslessIffRuneAligned`).
- The server raises an invalid transition in three situations, and in no others (`Reconnect.RaisesIff`): a dispatched
  row that was written after the disconnect is skipped by the cleanup and its job completes before the agent is back;
  a start goes out after the cleanup of its row; and a session reports before its process has started.
- A start can be delivered and reported undelivered all the same, when its ack is late. The row is then failed for good,
  while the session runs to its own end (`Reconnect.FailedDispatchDisagrees`). Apart from that, and from jobs cancelled
  while queued, row and session agree (`Reconnect.OutcomeAgrees`, `Reconnect.QuietConnectionsAgree`).
- A connection that holds the presence can be missing from its own instance's map, for example after a detach that was
  overtaken by a reconnect to that instance (`Presence.HolderFoundIff`, `Presence.StaleDetachDropsSuccessor`).
- A reconnect in the middle of a send loses the message, although nothing fails, when it is to the same instance: the
  refused touch deletes the successor's entry (`RoutedSends.SuccessorOnSameInstanceIsLost`). To another instance it
  does not (`RoutedSends.SuccessorGetsTheMessage`).
- Two validation requests can pass the duplicate check together; the agent's answer is then lost
  (`Validation.EntryLostIffOverwritten`, `Validation.RaceLosesAnswer`).
- `prune` never finds anything to evict (`Registry.Manager.Prune`), and a start that races `Close` escapes it
  (`Registry.StartRacingClose`).
- Two views used at the same time mute the older one: its input is acknowledged and dropped
  (`InputGate.OlderViewMuted`).
- A default install whose pairing code is rejected leaves a copy of the legacy configuration behind, exactly when it
  adopted one of this server before; no existing file changes (`Installer.Host.InstallDefault`).

The comment on `SaveNew` in the installer's configuration package speaks of concurrent installers; the model covers one
installer at a time, interrupted at any point.

## Model

| member | source | states |
|---|---|---|
| Utf8.ReadsAreLosslessIffRuneAligned | apps/agent/internal/session/manager.go:429-431 | Each read is repaired on its own: over any series of reads of well-formed output the repair loses nothing if and only if every cut between them falls between two runes |
| Utf8.RepairGains | apps/agent/internal/session/manager.go:429-431 | Cutting reads anywhere, the repaired output never has fewer runes than the output, and strictly more once a rune is cut |
| Utf8.SanitizeWellFormed | apps/agent/internal/session/manager.go:431 | Whatever was read, the repaired bytes are valid UTF-8 (section 3 of RFC 3629) |
| Utf8.SanitizeKeepsWellFormed | apps/agent/internal/session/manager.go:431 | The repair is the identity on valid UTF-8 |
| Encoding.WellFormedIffEncoded | apps/agent/internal/session/manager.go:431 | Valid UTF-8 is exactly the concatenation of arithmetic encodings of Unicode scalar values (section 3 of RFC 3629) |
| Encoding.EveryRuneIsAnEncoding | apps/agent/internal/session/manager.go:429-431 | What is taken for a rune is the encoding of a scalar value; EveryEncodingIsARune is the converse, for any text after it |
| Encoding.EveryEncodingIsARune | apps/agent/internal/session/manager.go:429-431 | Every scalar value's encoding is recognised as one rune of its length, whatever follows |
| Encoding.RepairReplacesRuns | apps/agent/internal/session/manager.go:431 | The repair leaves text as it is and makes each run of bytes that belong to no rune one U+FFFD |
| Coalescer.CutLimit | apps/agent/internal/session/manager.go:454-463 | The cut of an oversized buffer: 1 to 32768 bytes, at a rune boundary of valid data and within three bytes of the limit there; ill-formed data still makes progress |
| Coalescer.EmitChunks | apps/agent/internal/session/manager.go:452-467 | For any data the emitted pieces concatenate to the data, each has 1 to 32768 bytes, pieces of valid data are valid, and all but the last are nearly full |
| Coalescer.OutputReader.Read | apps/agent/internal/session/manager.go:427-440 | One repaired read joins the pending bytes; emitted, in-flight and pending bytes stay equal to everything read, in order, and pending stays below 128 KiB |
| Coalescer.OutputReader.BeginFlush | apps/agent/internal/session/manager.go:398-408 | A flush, by the tick or by the reader, takes exactly the pending bytes while no other flush holds the emit lock |
| Coalescer.OutputReader.EmitNext | apps/agent/internal/session/manager.go:452-467 | One more chunk leaves: what leaves followed by what remains in flight is what was in flight |
| Coalescer.OutputReader.Drain | apps/agent/internal/session/manager.go:441-446 | After the last read nothing is pending or in flight: the chunks concatenate to everything read |
| Coalescer.SanitizeSize | apps/agent/internal/session/manager.go:431 | A repair at most triples the bytes, which bounds what one read can add |
| Coalescer.EscapedAtMostSixfold | apps/agent/internal/client/client.go:95-103 | Go's JSON escaping (section 7 of RFC 8259) writes at most six bytes per byte |
| Coalescer.EveryChunkFitsItsFrame | apps/agent/internal/client/client.go:95-103 | Every chunk of 1 to 32768 bytes fits a frame of 262144 bytes, live or alone in a buffer sync, whatever it contains |
| Coalescer.TwoChunksMayNotFit | apps/agent/internal/session/manager.go:604-613 | Two full chunks of escape characters do not fit one sync frame, so one per frame is needed |
| ReplayBuffer.Buffer.Add | apps/agent/internal/replay/buffer.go:34-54 | After any Adds the retained chunks are the longest suffix of everything added within both limits, the byte counter is exact and the newest chunk is kept; oversized data is stored as its longest valid prefix |
| ReplayBuffer.Buffer.After | apps/agent/internal/replay/buffer.go:56-69 | Exactly the retained chunks above the given sequence, in order |
| ReplayBuffer.Buffer.constructor | apps/agent/internal/replay/buffer.go:24-32 | Non-positive limits fall back to 1000 chunks and 4 MiB |
| ReplayBuffer.LongestSuffix | apps/agent/internal/replay/buffer.go:48-52 | The window is a suffix of the log, and precisely the suffixes within it fit the limits |
| ReplayBuffer.RetainedStep | apps/agent/internal/replay/buffer.go:48-52 | Evicting chunk by chunk gives the same window as trimming the whole log once |
| ReplayBuffer.WindowIncreasing | apps/agent/internal/replay/buffer.go:46-52 | Retained sequences are contiguous up to next-1 |
| ReplayBuffer.ReplayAnswersFromTheWindow | apps/agent/internal/replay/buffer.go:56-69 | A logged chunk is replayed after s if and only if its sequence exceeds s and the log from it on fits both limits |
| Retention.ChunkIdsToRemove | apps/server/src/lib/domain.ts:49-62 | The simple specification: the ids of the shortest oldest-first prefix whose bytes cover the excess over the cap |
| Retention.EvictOldest | apps/server/src/services/jobs.ts:231-259 | The paged eviction loop terminates and, whatever the page size, removes exactly the minimal oldest prefix, with its bytes and sequences |
| Retention.EvictPage | apps/server/src/services/jobs.ts:242-257 | One page is walked until enough bytes are reclaimed, never further |
| Retention.EvictCountMinimal | apps/server/src/services/jobs.ts:231-259 | The removed prefix reclaims enough or is everything, and no shorter one does |
| Retention.OutputDatabase.PersistChunks | apps/server/src/services/jobs.ts:188-275 | One batch: other devices and jobs untouched, rows, byte total and truncation flag as Persist says, and the surviving new chunks reported back |
| Retention.SurvivorsAreTheNewlyStored | apps/server/src/services/jobs.ts:269-272 | The chunks reported for broadcast are exactly the batch's chunks that were not stored before and are stored now |
| Retention.IncrementalRetentionRefinesSimple | apps/server/src/services/jobs.ts:204-265 | On a batch of distinct sequences the rows left are those chunkIdsToRemove leaves of the sorted union, that is its longest suffix within the cap, and the counter stays exact |
| Retention.AnyBatchStaysBounded | apps/server/src/services/jobs.ts:204-265 | For any batch, repeats included, the stored bytes exceed neither retainedOutputBytes nor the cap |
| Retention.CounterDrift | apps/server/src/services/jobs.ts:210-223 | After any batch the counter is exact if and only if it was exact before and the batch repeats no sequence that is not stored yet, but for repeats without data; eviction never changes the gap |
| Retention.RepeatedSequenceBreaksTheCounter | apps/server/src/services/jobs.ts:210-223 | For chunks with data, an exact counter ends above the stored bytes if and only if the batch repeats a sequence that is not stored yet |
| Retention.WindowOfConcatenation | apps/server/src/services/jobs.ts:225-257 | Trimming batch by batch gives the window of the whole history |
| Resurrection.NoResurrection | apps/server/src/services/jobs.ts:188-275 | Over all runs of adding, sending, losing and delivering live and synced frames one by one, with syncs interleaved with live output, in which chunks persist in the order received and no frame goes out for a chunk from which more than the server cap and one byte has been added: no evicted sequence is ever stored again, every stored sequence exceeds every evicted one, a truncated store starts at 1 or above, and the counter is exact and within the cap |
| Resurrection.NoResurrectionWhileSteady | apps/agent/internal/session/manager.go:596-614 | The same from conditions on the output alone: while a sync runs, at most the server cap less the agent cap, and one byte, is added; live frames are recent when sent |
| ResurrectionRuns.LargerWindowRun | apps/agent/internal/session/manager.go:596-614 | The caps matter: with an agent cap at least two bytes over the server's, for a server cap of at least 2 bytes and a buffer of at least 3 chunks, an in-order run with a quiet sync stores an evicted sequence again |
| ResurrectionRuns.InterleavedSyncRun | apps/agent/internal/session/manager.go:600-613 | Recency matters: with the same caps, a sync whose snapshot is taken before live output passes the server cap sends its frame after that, and an evicted sequence is stored again, everything in the order received |
| ResurrectionRuns.OvertakingRun | apps/server/src/services/jobs.ts:108-183 | The order matters: for every server cap from 3 bytes and every agent buffer from 2 bytes and one chunk on, a live chunk that waits while synced ones persist can be stored, evicted and stored again, although every frame was recent when sent |
| ResurrectionRuns.LateFrameReturnsIff | apps/server/src/services/jobs.ts:206-262 | Once everything has persisted in order, the second arrival of an evicted chunk is stored if and only if its bytes fit beside the rows kept |
| Persistence.JobService.RelayOutput | apps/server/src/services/jobs.ts:133-171 | Relayed chunks are buffered per job in order; the 200th hands the batch over; every remaining entry holds 1 to 199 chunks and an armed timer |
| Persistence.JobService.FlushPersist | apps/server/src/services/jobs.ts:173-183 | A flush hands over exactly the pending entry; the batches handed over then equal everything relayed |
| Persistence.BatchMovesWindow | apps/server/src/services/jobs.ts:188-275 | An in-order batch moves the stored window along the stream |
| Persistence.BatchingIsInvisible | apps/server/src/services/jobs.ts:153-183 | However the timers cut the stream into batches, the stored rows are the stream's longest suffix within the cap |
| Persistence.OutputQueue.Call | apps/server/src/services/jobs.ts:386-389 | A call becomes the tail and waits for the previous tail |
| Persistence.OutputQueue.Begin | apps/server/src/services/jobs.ts:388-389 | An operation starts only when all earlier ones are over, failed or not, and then runs alone |
| Persistence.OutputQueue.CleanUp | apps/server/src/services/jobs.ts:390-394 | The tail entry is gone exactly when nothing is outstanding |
| Persistence.OutputQueue.NeverOverlap | apps/server/src/services/jobs.ts:386-395 | Whatever has begun has all earlier calls of the job behind it |
| Persistence.OutputQueue.NeverBlocked | apps/server/src/services/jobs.ts:386-395 | While anything is outstanding its first operation can advance |
| Paging.Output | apps/web/src/api/client.ts:231-250 | The cursor loop terminates with what one unlimited query would return; the three lemmas below say what that is |
| Paging.NoticeIffGapVisible | apps/server/src/services/jobs.ts:290-308 | The answer starts with a notice exactly when the store is truncated and something asked for lies below every stored row; the notice stands at the greatest such sequence, and there is no other |
| Paging.RowsAreTheStoredAbove | apps/server/src/services/jobs.ts:284-288 | The rows of the answer are exactly the stored chunks above the cursor |
| Paging.FullPage | apps/server/src/services/jobs.ts:277-309 | A full page leaves exactly the rest to be fetched from its greatest sequence, which lies above the cursor |
| Paging.OutputStrictlyIncreasing | apps/server/src/services/jobs.ts:293-300 | The output read back is strictly increasing if and only if no truncated store starts at sequence 0 |
| Subscriptions.HandleFaithful | apps/server/src/services/connections.ts:853-876 | A broadcast keeps what a subscription has passed and queued an in-order, gap-free prefix of the frames broadcast to it since it began, complete while the socket is open |
| Subscriptions.HandleSends | apps/server/src/services/connections.ts:853-876 | A broadcast, whatever its frame, puts on the client's socket exactly what the subscription passes by it, and nothing if it is for another user or job |
| Subscriptions.SkippedMeansClosed | apps/server/src/services/connections.ts:858-874 | Once a frame has been skipped the socket is closed and nothing more gets out on it |
| Subscriptions.ConnectionHub.AttachClient | apps/server/src/services/connections.ts:554-557 | A client starts with an open socket and no subscriptions |
| Subscriptions.ConnectionHub.DetachClient | apps/server/src/services/connections.ts:559-561 | Only that client goes |
| Subscriptions.ConnectionHub.BeginSubscription | apps/server/src/services/connections.ts:563-568 | A subscription starts replaying with an empty queue, replacing any earlier one of that job |
| Subscriptions.ConnectionHub.FinishSubscription | apps/server/src/services/connections.ts:570-576 | The queue is released to the socket in order, if it is open, and the subscription goes live |
| Subscriptions.ConnectionHub.Unsubscribe | apps/server/src/services/connections.ts:578-580 | Only that subscription goes |
| Subscriptions.ConnectionHub.BroadcastJobLocally | apps/server/src/services/connections.ts:853-876 | The frame counts as broadcast to every subscription it concerns; each client's socket is given exactly what its subscription passes by it, in a position of its own, and every subscription stays faithful and apart from the others |
| Subscriptions.SendAllAppends | apps/server/src/services/connections.ts:906-910 | On an open socket frames are appended in order, on any other nothing happens |
| Viewer.JobViewer.OutputMessage | apps/web/src/hooks/useJobSocket.ts:255-263 | A frame at or below the high-water mark is dropped; any other moves the mark and is emitted |
| Viewer.JobViewer.StatusMessage | apps/web/src/hooks/useJobSocket.ts:279-282 | A status frame ends a page and asks for the next from the mark when the page was full; PagedReplay.PagesToTheEnd is what that achieves |
| Viewer.JobViewer.SocketOpen | apps/web/src/hooks/useJobSocket.ts:213-230 | A new socket subscribes from the mark and awaits a replay |
| Viewer.JobViewer.EmitOutput | apps/web/src/hooks/useJobSocket.ts:131-141 | A chunk goes to the sink, or waits while there is none |
| Viewer.JobViewer.SubscribeOutput | apps/web/src/hooks/useJobSocket.ts:143-153 | A sink attached late first receives everything that waited, in order |
| Viewer.JobViewer.DetachSink | apps/web/src/hooks/useJobSocket.ts:150-152 | A sink that goes takes nothing with it: later chunks wait |
| Viewer.EmitsIncreasing | apps/web/src/hooks/useJobSocket.ts:255-277 | Whatever arrives, repeated or out of order, what is emitted is strictly increasing |
| LiveView.GapFreeViewer | apps/server/src/routes/websockets.ts:468-497 | End to end, over any interleaving of emitted, lost and relayed frames, buffer syncs, flushes, subscribe phases, lost sockets and reconnects, under the two conditions below: the view has emitted exactly the agent's chunks from L+1 to its mark, and everything broadcast so far once live and caught up |
| LiveView.OvertakingFrameHoleIff | apps/server/src/services/jobs.ts:108-143 | First condition, exact: a live frame makes a live, caught-up view skip output if and only if some output below it has not been broadcast yet |
| LiveView.SyncLeavesPrefixIff | apps/server/src/services/jobs.ts:188-275 | The same for buffer syncs: the stored rows stay without a gap if and only if the synced chunk is at most the next one |
| LiveView.SyncAheadPageIff | apps/server/src/routes/websockets.ts:479-495 | What the gap does: the page read after it by a subscription that has flushed skips output if and only if the sync left a gap and its chunk made it onto the page |
| LiveView.FlushClosesGapIff | apps/server/src/services/jobs.ts:145-183 | The next flush leaves the stored rows without a gap if and only if the synced chunk is at most the next one not yet broadcast or stored |
| LiveView.LostFrameRun | apps/web/src/hooks/useJobSocket.ts:255-263 | A run in which a lost live frame is overtaken by the next one: the sync that brings it comes too late and the view keeps a hole |
| LiveView.SyncAheadRun | apps/server/src/routes/websockets.ts:479-495 | A run in which a sync persists ahead of a pending chunk and a view reads its page before the flush: the view keeps a hole |
| LiveView.HoleStays | apps/web/src/hooks/useJobSocket.ts:255-277 | A hole in what a view has emitted is never filled |
| LiveView.HoleIffBacklogExceedsPage | apps/server/src/routes/websockets.ts:479-495 | Second condition, exact: page plus queue read without a hole if and only if nothing was queued or the backlog at the beginning fits a page of 1000 |
| LiveView.PageHoleRun | apps/server/src/routes/websockets.ts:479-495 | For every view more than a page behind what is stored, a run in which a live frame queued meanwhile leaves it with a hole |
| LiveView.FlushIsPersist | apps/server/src/services/jobs.ts:188-275 | While nothing has to be evicted, the end-to-end model's way of storing chunks is what persisting them does |
| PagedReplay.PagesToTheEnd | apps/web/src/hooks/useJobSocket.ts:279-304 | For any backlog, over any run in which nothing is broadcast to a view that is catching up: the view has emitted exactly the agent's chunks from L+1 to its mark, and a socket on which everything is read and nothing asked for has brought everything stored and broadcast |
| PagedReplay.ReplayStepsEnd | apps/server/src/routes/websockets.ts:468-497 | Every step of the view and the subscribe handler brings the replay closer to its end |
| PagedReplay.AnyBacklogIsReplayed | apps/web/src/hooks/useJobSocket.ts:213-304 | From the connect on, such steps alone end, for any backlog, with everything stored emitted |
| Lifecycle.JobRow.TransitionFromAgent | apps/server/src/services/jobs.ts:55-86 | The whole new row and the result: not found, already final, invalid, or updated, each in exactly its case |
| Lifecycle.JobRow.RequestCancellation | apps/server/src/services/jobs.ts:320-353 | Only a queued job is cancelled at once; final ones need nothing; others depend on reaching the agent |
| Lifecycle.JobRow.CleanUpAfterDisconnect | apps/server/src/routes/websockets.ts:399-426 | An unfinished row not written since the disconnect becomes disconnected, its other columns unchanged; any other row stays as it is |
| Lifecycle.JobRow.Revoke | apps/server/src/routes/devices.ts:228-234 | Revocation disconnects every unfinished row, whatever its age, its other columns unchanged, and leaves final ones alone |
| Lifecycle.JobRow.ConcludeDispatch | apps/server/src/routes/jobs.ts:168-181 | A start reported undelivered makes the row failed whatever its status, and nothing else changes it |
| Lifecycle.LifecycleInvariant | packages/shared/src/index.ts:3-20 | Over every history of agent messages, hellos, cancellations, cleanups, revocations and failed dispatches: finishedAt is set in exactly the terminal states, exitCode only on completed or failed jobs, startedAt is written at most once, and a terminal row is afterwards what it was, or failed as of the last dispatch reported undelivered |
| Lifecycle.StartedWhenFirstRunning | apps/server/src/services/jobs.ts:55-86 | A row has a startedAt exactly when it has ever been running: the time of the event that made it so for the first time |
| Lifecycle.HelloNeverInvalid | apps/server/src/routes/websockets.ts:199-220 | Resuming a listed job is never an invalid transition and leaves it running or waiting for input |
| Reconnect.RaisesIff | apps/server/src/routes/websockets.ts:155-223 | Over all interleavings of session steps, failed dispatches, disconnects, cleanups, hellos and reports, an invalid transition is first raised exactly when the server handles, on a row not final, the acceptance of a start whose row was disconnected when it was sent, the completion of a job whose dispatched row a cleanup skipped, or the report of an unstarted process |
| Reconnect.ReconnectNeverRaises | apps/server/src/routes/websockets.ts:155-223 | Where none of the three situations is created - each recognised before the step that would create it - no run raises |
| Reconnect.OutcomeAgrees | apps/agent/internal/session/manager.go:496-526 | Short of a raise, a job final on the server ended as its session did, exit code included, unless it was cancelled while queued or its dispatch was reported failed; such rows stay cancelled or failed |
| Reconnect.QuietConnectionsAgree | apps/agent/internal/session/manager.go:616-642 | Short of a raise, once a connection has gone quiet the row says what the session says, outcome and exit code included, with the same two exceptions; a refused or lost start leaves a row that is final or disconnected |
| Reconnect.FailedDispatchDisagrees | apps/server/src/routes/jobs.ts:168-181 | A run in which a start is delivered and reported undelivered: the job completes, its reports are ignored, and the quiet connection leaves the row failed |
| Reconnect.AbsentJobsDisconnected | apps/server/src/routes/websockets.ts:399-426 | From the cleanup of a job not written since the loss until the agent is back, the row is final or disconnected |
| Reconnect.SkippedIffWrittenSince | apps/server/src/routes/websockets.ts:399-426 | What a cleanup skips is exactly what has been written since the last loss of a connection |
| Reconnect.SkippedRowRaisesIffCompleted | apps/server/src/routes/websockets.ts:399-426 | After a cleanup that skipped a dispatched row written since the disconnect, the next report raises if and only if it is a completion |
| Reconnect.SkippedCompletionRaises | apps/server/src/routes/websockets.ts:399-426 | Such a run: the acceptance is handled after the connection is lost, the job completes meanwhile, and its report raises |
| Reconnect.SkippedCleanupRaisesOnEarlyRows | packages/shared/src/index.ts:3-12 | An outcome is refused exactly by queued and dispatched rows of a completed job; once cleaned up, never |
| Reconnect.LateStartRaisesIff | apps/server/src/routes/websockets.ts:255-262 | The acceptance of a start that goes out on a later connection raises if and only if the row was disconnected when it was sent |
| Reconnect.LateAcceptanceRaises | apps/server/src/routes/websockets.ts:406-426 | Such a run: the row is created, cleaned up, and its start accepted on the next connection |
| Reconnect.UnstartedReportRaises | apps/agent/internal/session/manager.go:627-630 | A session whose process has not started reports dispatched, which raises if and only if the row is not final |
| Presence.Fencing | apps/server/src/services/connections.ts:32-52 | Over all runs of any number of instances and connections with expiry, failed and half-failed Redis calls and commands that run after their callers gave up: the key holds what its history says, a connection that lost it never holds it again, a superseded one never passes a touch or a release, and none is released twice |
| Presence.RoutedSend | apps/server/src/services/connections.ts:492-518 | A routed send makes at most two attempts, puts its message on any one connection at most once, and reports success only if a connection that held presence at its touch got it |
| Presence.AttemptMadeIff | apps/server/src/services/connections.ts:492-518 | Reading the presence, a send makes an attempt exactly when it finds a connection it has not tried and has made fewer than two; otherwise it returns false |
| RoutedSends.SendActsOnWhatItLearns | apps/server/src/services/connections.ts:499-513 | A waiting send returns true when told of a delivery, reads the presence again when told of a failure, a failed publish or nothing in time, and else waits |
| RoutedSends.HolderGetsTheMessage | apps/server/src/services/connections.ts:492-518 | From every reachable state and from any instance: where the holder is open and in its instance's map, a send that meets no failure delivers at the first attempt and returns true |
| RoutedSends.SuccessorGetsTheMessage | apps/server/src/services/connections.ts:499-513 | If the holder is replaced on another instance before its touch, the second attempt delivers to the successor |
| RoutedSends.SuccessorOnSameInstanceIsLost | apps/server/src/services/connections.ts:767-781 | If it is replaced on the same instance, the refused touch deletes the successor's entry, and the send returns false; ReconnectDuringSend reaches that state |
| RoutedSends.TouchedOnlyFromTheMap | apps/server/src/services/connections.ts:767-773 | An attempt asks for a touch, and delivers, only if the connection was found in its instance's map |
| RoutedSends.AnswersAreTrue | apps/server/src/services/connections.ts:446-480 | Over any run a positive answer means that Redis touched or released the connection's presence, a negative one that it does not hold it; acting on a heartbeat closes the connection unless the answer was positive |
| RoutedSends.HeartbeatFindsOut | apps/server/src/services/connections.ts:470-480 | A heartbeat that Redis answers closes and forgets the connection exactly if it does not hold the presence |
| Presence.DeliveredOnce | apps/server/src/services/connections.ts:767-781 | No two deliveries of one send go to the same connection |
| Presence.SuccessWasDelivered | apps/server/src/services/connections.ts:734-765 | A send reported true was delivered to the holder of the presence |
| Presence.NeverRegained | apps/server/src/services/connections.ts:399-415 | Once lost, presence is never held again by the same connection |
| Presence.SupersededNeverPasses | apps/server/src/services/connections.ts:38-52 | After a newer claim, a release or an expiry the older connection's commands fail |
| Presence.EntryLostIffCleared | apps/server/src/services/connections.ts:446-480 | A connection loses its entry of the local map exactly by another one's placement there, or by a refused or failed heartbeat, an answered detach, or a refused touch of a send being acted on, on that instance |
| Presence.MappedIffNeverCleared | apps/server/src/services/connections.ts:399-480 | Over any run a placed connection is in its instance's map if and only if none of these has happened since its placement |
| Presence.HolderFoundIff | apps/server/src/services/connections.ts:399-480 | For a placed connection that holds the presence on an open socket: its instance finds it if and only if no other connection was placed there since and no command of another one was acted on there |
| Presence.StaleDetachDropsSuccessor | apps/server/src/services/connections.ts:446-468 | A run in which a stale detach deletes the successor's entry while the successor holds the presence and is open |
| Acks.ConnectionHub.Register | apps/server/src/services/connections.ts:739-750 | A message in flight has a promise, an entry and an armed timer |
| Acks.ConnectionHub.ReceiveAck | apps/server/src/services/connections.ts:710-717 | An ack settles its entry, once; unknown and late acks change nothing |
| Acks.ConnectionHub.TimeOut | apps/server/src/services/connections.ts:744-747 | The timer settles its promise with false and removes its entry |
| Acks.ConnectionHub.FailPublish | apps/server/src/services/connections.ts:760-764 | A failed publish settles the promise unless it is settled already, and leaves nothing behind |
| Acks.ConnectionHub.Shutdown | apps/server/src/services/connections.ts:912-918 | Shutdown refuses exactly the open promises and leaves no entry and no timer |
| Acks.FirstVerdictWins | apps/server/src/services/connections.ts:734-765 | A promise has a value v if and only if the first reply, timeout, failed publish or shutdown after its registration says v |
| Acks.SettledForGood | apps/server/src/services/connections.ts:734-765 | Nothing that happens later changes a settled promise |
| Validation.SettlesOnce | apps/server/src/services/connections.ts:983-1075 | Over any run each validation request settles at most once; until then its timer is armed, afterwards no timer and no entry is left of it |
| Validation.EntryLostIffOverwritten | apps/server/src/services/connections.ts:988-1016 | An open request loses its entry exactly when another call that had passed the duplicate check registers over it |
| Validation.AnswerSettles | apps/server/src/services/connections.ts:1057-1064 | Without such a race the agent's answer settles the open request it is for |
| Validation.SettlesByItsVerdict | apps/server/src/services/connections.ts:983-1075 | Each event settles exactly the requests it is about, each with its own outcome |
| Validation.OtherDevicesDoNotSettle | apps/server/src/services/connections.ts:1057-1075 | Answers and departures of other devices leave an open request open |
| Validation.FailuresReject | apps/server/src/services/connections.ts:1005-1055 | Without such a race an undelivered message, the device going offline, the timer and the shutdown each reject an open request with their own code |
| Validation.RaceLosesAnswer | apps/server/src/services/connections.ts:988-1016 | With such a race the answer is dropped and the request times out |
| Validation.RepositoryValidationBroker.Begin | apps/server/src/services/connections.ts:983-994 | A second request for a repository with an entry is rejected; any other goes on to the online check |
| Validation.RepositoryValidationBroker.Register | apps/server/src/services/connections.ts:995-1018 | Offline is a rejection; otherwise timer and entry are set |
| Validation.RepositoryValidationBroker.FailSend | apps/server/src/services/connections.ts:1023-1035 | An undelivered message rejects whatever entry the repository has |
| Validation.RepositoryValidationBroker.FireTimer | apps/server/src/services/connections.ts:1005-1010 | A timer rejects its own request and deletes the repository's entry |
| Validation.RepositoryValidationBroker.SettleLocal | apps/server/src/services/connections.ts:1057-1064 | A result settles the entry of its repository if it comes from that device |
| Validation.RepositoryValidationBroker.CancelLocalForDevice | apps/server/src/services/connections.ts:1066-1075 | Exactly the entries of the device are rejected |
| Validation.RepositoryValidationBroker.ShutDown | apps/server/src/services/connections.ts:1047-1055 | Every entry is rejected |
| Registry.Manager.EvictCompleted | apps/agent/internal/session/manager.go:292-313 | Removes exactly the min(finished, excess) earliest-started finished sessions, and says whether the target is met |
| Registry.EvictionMakesRoomIff | apps/agent/internal/session/manager.go:288-313 | Unfinished sessions are never evicted; the target is met if and only if they alone fit |
| Registry.Manager.CommitStart | apps/agent/internal/session/manager.go:145-168 | The second look-up: existing, refused exactly when 100 sessions are unfinished, or registered after evicting; at most 100 sessions, one per job |
| Registry.Manager.Finish | apps/agent/internal/session/manager.go:484-514 | A finished session stays registered and no longer counts as running |
| Registry.Manager.Prune | apps/agent/internal/session/manager.go:282-286 | Pruning after a run never has anything to evict |
| Registry.Manager.Cancel | apps/agent/internal/session/manager.go:582-594 | Marks an unfinished session once |
| Registry.Manager.Close | apps/agent/internal/session/manager.go:228-239 | Everything registered and unfinished is cancelled, nothing else changes |
| Registry.Manager.RunningJobIDs | apps/agent/internal/session/manager.go:211-226 | The sorted list of all running jobs; its cap of 100 never cuts it |
| Registry.StartRacingClose | apps/agent/internal/session/manager.go:97-168 | A start checked before Close and committed after it runs uncancelled |
| InputGate.Session.WriteInput | apps/agent/internal/session/manager.go:528-557 | An input at or below lastInput is acknowledged and not written; a new one is written and acknowledged, or changes nothing; what the terminal has received has been acknowledged, and nothing above it |
| InputGate.NeverWrittenTwice | apps/agent/internal/session/manager.go:528-557 | Over any run the terminal receives strictly increasing input sequences |
| InputGate.AcknowledgedBelowLast | apps/agent/internal/session/manager.go:528-557 | An acknowledged sequence is at most lastInput from then on |
| InputGate.ReceivedMeansAcknowledged | apps/agent/internal/session/manager.go:528-557 | Over any run every input the terminal has received has been acknowledged, and no sequence above them |
| InputGate.AcknowledgedIffReached | apps/agent/internal/session/manager.go:528-557 | An attempt is acknowledged if and only if the terminal has by then received its sequence or a later one |
| InputGate.WrittenIffRecord | apps/agent/internal/session/manager.go:536-551 | With a willing terminal an input is written if and only if its sequence exceeds all before it |
| InputGate.LaterSeedAboveIff | apps/web/src/hooks/useJobSocket.ts:72-81 | A view opened at t2 seeds above the first k inputs of one opened at t1, for all random parts, if and only if k < 1000*(t2-t1)-998 |
| InputGate.ViewsInTurn | apps/web/src/hooks/useJobSocket.ts:155-161 | Under that bound the inputs of views used in turn all reach the terminal, in order |
| InputGate.TooManyLosesInput | apps/web/src/hooks/useJobSocket.ts:72-81 | Beyond the bound some random parts lose the second view's first input, acknowledged |
| InputGate.OlderViewMuted | apps/web/src/hooks/useJobSocket.ts:155-161 | Once a newer view has typed, the older view's further input is acknowledged and dropped |
| Installer.Host.Rename | apps/agent/internal/config/config.go:178-180 | A rename moves the entry or changes nothing |
| Installer.Host.Save | apps/agent/internal/config/config.go:172-187 | Replaces the file atomically; an error may still mean it was replaced |
| Installer.Host.SaveNew | apps/agent/internal/config/config.go:192-202 | Creates the file or changes nothing; never replaces an entry |
| Installer.Host.Repair | apps/agent/internal/installer/installer.go:310-337 | A rejected pairing changes nothing; after every step the old entry is at its path or in its backup; it succeeds exactly when the backup and the new file work out, and leaves no file at the path exactly when the new file and the restore both fail |
| Installer.Host.EnsurePaired | apps/agent/internal/installer/installer.go:239-301 | Succeeds exactly with an accepted code and a writable file, or without a code on a configuration of this server; then the file holds one for it; a rejection changes nothing; without a code an identity is never replaced, at any moment |
| Installer.Host.AdoptLegacy | apps/agent/internal/installer/installer.go:184-221 | Copies the legacy configuration exactly when it belongs to this server, there is none at the new path, and the steps work; reports it exactly when it belongs to this server; touches nothing else |
| Installer.Host.PairAndServe | apps/agent/internal/installer/installer.go:132-152 | With an explicit path only that file and its backup ever change, and success means the service runs on a configuration for the server; it succeeds exactly when pairing, executable and service do |
| Installer.Host.InstallDefault | apps/agent/internal/installer/installer.go:119-163 | At every moment a legacy install of another server is untouched, and one of this server is gone only when the new service runs on its own configuration; a rejected code changes nothing, except that it leaves the copy exactly when a legacy configuration of this server was adopted where there was none; it succeeds exactly when adoption, pairing, executable and service do, and has then retired a legacy install of this server as far as the steps work |

## Left out

Conditions taken as hypotheses, because the code does not give the stronger claim:

- LiveView.GapFreeViewer: a flush, and a sync's persisting, is one step; `flushOutput` does not wait for a background flush already in flight (apps/server/src/services/jobs.ts:173-179). It also assumes one instance, no truncation, an agent buffer that still holds what the server misses, and that frames of one agent connection are handled at a time.
- PagedReplay.PagesToTheEnd: nothing is broadcast to an open subscription that is catching up; LiveView.PageHoleRun shows what such a broadcast can do.
- LiveView.GapFreeViewer: its conditions on frames hold of a job with one reader whose reconnect is quiet; the two readers of a non-interactive job number and send their chunks in separate steps, and live frames and syncs of a new connection are sent by different goroutines.
- LiveView.GapFreeViewer: status frames other than the one that ends a page are not part of the run, and neither is the viewer's ending its socket on a terminal status.
- Reconnect.RaisesIff: assumes one `job.start` per job, that frames of a connection are handled before its cleanup or not at all, and a cleanup before the next connection; after a raise the run goes on, but nothing is claimed about it.
- Reconnect.RaisesIff: status frames sent for a failed resize, and the effects of revocation on a connected agent, are not part of the product machine.
- Lifecycle.JobRow.TransitionFromAgent: reads and then writes the row; modelled as one step.
- Lifecycle.JobRow.RequestCancellation: likewise reads and then writes, with a send in between; modelled as one step.
- Retention.IncrementalRetentionRefinesSimple: needs distinct sequences within a batch; Retention.AnyBatchStaysBounded and Retention.CounterDrift cover all batches.
- Resurrection.NoResurrection: takes persisting a batch as one step and its batches as distinct, and assumes that chunks persist in the order in which the server receives them and that no frame of an old chunk goes out (ResurrectionRuns.OvertakingRun and ResurrectionRuns.InterleavedSyncRun show why); frames are non-empty and within the agent's byte limit, as emitChunks makes them.
- Reconnect.OutcomeAgrees: excepts a dispatch reported failed, because the row is then written without a look at its status (apps/server/src/routes/jobs.ts:168-181).
- Reconnect.QuietConnectionsAgree: excepts it for the same reason; Reconnect.FailedDispatchDisagrees is the run.
- InputGate.Session.WriteInput: a terminal write takes effect entirely or not at all.
- Presence.Fencing: speaks about the presence key and its commands; what the local map keeps is Presence.HolderFoundIff.
- Registry.Manager.EvictCompleted: `sort.Slice` is stood in for by an insertion sort; among equal start times the order is arbitrary in both.

Not modelled:

- A row's id: the unique sequence of a job's row stands for it.
- Strings: output is the bytes of its UTF-8 encoding; other strings and ids are numbers.
- Presence, LiveView, Resurrection and Reconnect, and the files built on them, are state machines on values, one device or job at a time; their handlers' updates in place are the step functions.
- Registry keeps session records by value; a session object shared between goroutines is not modelled.
- The hub without Redis, where `sendToAgent` is a local look-up.
- Device and job broadcasts between instances; the relay envelopes other than sends and their acks.
- `uniqueSortedChunks`, xterm rendering and React state in the browser.
- Temporary files of the configuration writer: they have unique names and are not configurations.
- Concurrent installers, and the service manager beyond "installed and running".
- Timers are armed flags with a firing step; wall-clock time, back-off and heartbeats' periods are not modelled.
- Fastify, WebSocket, Redis, Prisma and PTY libraries; authentication, push messages, message validation, string escaping, path and environment handling.
