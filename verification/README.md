# Open-v0: a verified model of its stream, lease, branch and artifact protocols

This project models the protocols of the repository as Dafny programs and transition systems, and
proves what they promise. A transition system's steps are the single database, Redis, provider or
file operations of the source; any number of workers interleave between them and may stop anywhere.
Where the source updates an object step by step, a class does the same, and each of its methods is
proved against a function of the old state; the functions are the ones the lemmas and the transition
systems speak about. What is modelled both ways is joined: an uninterrupted reservation, write, read,
commit, `terminate()` or cleanup is one of the interleaved runs, with the same stored result.

| files | what they model |
|---|---|
| `SseLines`, `AgentEvents`, `SseClient` | the browser's buffer loop, frame parser, deduplication and reconnection |
| `SseServer`, `SseSystem`, `SseEndToEnd` | one response of the server, the log and the pub/sub beside it, and the stream as a whole |
| `Leases`, `Quota`, `Termination`, `Reconciler` | sandbox leases, reservation under quota, termination through a provider, reconcile passes |
| `BranchRuns` | the head of a branch and the runs on it: commit, rebase, cancel, retry, rollback, crash and replay |
| `Manifests` | artifact manifests and blobs: writers, readers and reconcilers |
| `TextSort`, `Paths`, `Bundle` | canonical bundles and their encoding |
| `Runs`, `Sorting`, `Results` | runs of a transition system, stable sorting, and values that may be absent or errors |
| `ProjectFiles`, `RepairLoop` | file operations, package.json, and generation with validation and repair |
| `Timeline` | keyset pages of a chat, merged by the client |

`dafny verify dfyconfig.toml` checks all of it.

## Where the source keeps less than its documentation says

Each of these is a lemma with a concrete run, beside the exact condition under which the property
holds.

- **A stored event may never be sent.** An emitter that stops between insert and publish leaves an
  entry that a connected session skips (`GapIsReachable`); a live response is the unbroken log
  exactly when no such entry lies between its backlog and its last write (`GapExactly`).
- **The occupying quota is not an invariant.** A failed or lost lease that enters `terminating`
  counts again. The active states never exceed a limit (`QuotaIsSafe`); everything that occupies stays
  within every limit, in every run, if and only if no lease ever comes back so, or one only does when
  it fits next to what occupies then and the reserver of its workspace, if there is one, has read
  nothing yet (`OccupyingQuotaExactly`). Without the first guard a preview comes back beside another
  one (`OccupyingQuotaFails`); without the second it fits, and another one is inserted on a read made
  before (`StaleReadLetsTwoOccupy`).
- **The cleanup of a failed provisioning may end a lease whose resource lives**, after its binding was
  cleared and made anew (`CleanupMayLeaveAResource`). It leaves nothing exactly when what the lease is
  bound to then is gone (`SweepIsExact`); `terminate()` always is exact (`FinishIsExact`).
- **More than one batch of leases can starve** (`BatchStarves`). A pass makes no progress exactly when
  the branch index refuses every lease of its batch (`StuckExactlyWhenAllRefused`).
- **`completed_with_conflict` may be recorded for a run that advanced the head**, when it is replayed
  after the head moved on (`ConflictMayHaveAdvanced`), or when the head moves on between the two
  operations of the replayed commit (`VerdictMayChange`). A run that has advanced never does so again,
  and a verdict is `completed` if and only if the head is the run's snapshot at the moment the verdict
  is given: right after its advance, or when the branch is read again (`CommitVerdict`).
- **A validation retry that stops in `persisting` is never finished** (`RetryGetsStuck`). A run in
  `persisting` that nobody executes can be finished if and only if it is a first attempt
  (`RecoversExactly`).
- **The reference re-check does not make deletion safe.** Its three queries are not one: with a second
  reconciler at work, a lease taking over from a candidate slips between them, and the blob of a ready,
  referenced artifact is deleted (`ReferencedBlobMayBeDeleted`). Ready means readable, and what is
  referenced is stored, in every run if and only if either no two reconcilers may delete one artifact
  at the same time or no reference to it may be dropped meanwhile (`IntactExactly`). When both are
  allowed, an artifact is still safe unless one and the same deletion of it met another one, saw a
  reference go, and was then acted on (`ReadyMeansReadable`, `DeletionIsSafe`).

## Assumptions

- Stream: at most one emitter per run at a time, a channel that delivers in publication order and
  without loss while a session is subscribed, sequences that JavaScript numbers hold exactly, and JSON
  text as a `Codec` whose `parse` undoes its `stringify`, on values whose numbers are doubles, and whose
  output has no CR or LF.
- Leases: a workspace's lock is held from the reads to the insert; limits do not change; a project
  belongs to one workspace; the provider gives out each resource id once, and a destroy that is not
  pending has removed the resource.
- Branch runs: at most one executor per run at a time, stopping anywhere; a database operation that
  throws did not happen; ids are not reused. Without the single executor a late failure update could
  overwrite `completed_with_conflict`, and of the terminal statuses only that (`FailureUpdateOverwrites`);
  with it a terminal status stays (`TerminalStays`), so no run shows this.
- Artifacts: nobody tampers with the store; a reference is created only while its manifest is `ready`.
- Bundles: gzip, SHA-256 and JSON in UTF-8 as a `Format` with the usual inverses.
- Timeline: a new run is newer than all runs that were there; ids of runs are distinct.

## Model

| member | source | states |
|---|---|---|
| SseLines.TakeLinesAppend | apps/web/src/services/agentEventStream.ts:260-287 | buffering is invisible: lines taken before more text arrives are the lines of the whole text, wherever it is cut, also inside a CRLF |
| SseLines.TakeLinesIsReference | apps/web/src/services/agentEventStream.ts:260-273 | at the end of the stream the loop has taken exactly the lines of splitting the whole text at CRLF, CR or LF and dropping an unterminated last one |
| SseLines.TakenIsPrefix | apps/web/src/services/agentEventStream.ts:275-287 | a text cut anywhere yields a prefix of the lines of any continuation |
| SseLines.LinesOfConcat | apps/web/src/services/agentEventStream.ts:260-273 | a text that ends with a finished line contributes its lines whatever follows |
| AgentEvents.NumeralRoundTrip | apps/web/src/services/agentEventStream.ts:188-190 | the decimal id of a frame reads back as the sequence it was printed from |
| AgentEvents.FieldLine | apps/web/src/services/agentEventStream.ts:203-212 | an `id`, `event` or `data` line sets its field, without the one space after the colon |
| AgentEvents.FrameParses | apps/web/src/services/agentEventStream.ts:156-201 | the three lines of a printed event parse to that event exactly when its payload is absent or an object, and are refused otherwise |
| SseClient.ResponseReader.constructor | apps/web/src/services/agentEventStream.ts:233-240 | the reader's start: empty buffer and frame, and the sequence accepted so far |
| SseClient.ResponseReader.DispatchFrame | apps/web/src/services/agentEventStream.ts:242-258 | dispatching a frame is the empty-line step of the reader: parse, drop what was accepted before, hand over, stop on a terminal event |
| SseClient.ResponseReader.HandleLine | apps/web/src/services/agentEventStream.ts:268-269 | one line is one step of the reader |
| SseClient.ResponseReader.ProcessBufferedLines | apps/web/src/services/agentEventStream.ts:260-273 | the loop runs the reader over the taken lines, up to the first stop, and keeps the rest in the buffer |
| SseClient.ResponseReader.ReceiveChunk | apps/web/src/services/agentEventStream.ts:285-286 | a chunk is appended and its finished lines are run |
| SseClient.ResponseReader.Consume | apps/web/src/services/agentEventStream.ts:275-287 | the loop over the chunks is reading them one after the other, and leaves the reader that running the lines of their concatenation gives |
| SseClient.ChunksDoNotMatter | apps/web/src/services/agentEventStream.ts:275-287 | chunk invariance: reading chunk by chunk, with a buffer in between, ends as running the lines of the whole text does |
| SseClient.ChunksGiveReferenceLines | apps/web/src/services/agentEventStream.ts:260-287 | whatever the chunks of a whole response, what is run is the reference lines of their concatenation |
| SseClient.ReadingIsParsingThenFiltering | apps/web/src/services/agentEventStream.ts:242-273 | reading line by line is parsing every frame and filtering what was parsed |
| SseClient.StoppedIgnoresLines | apps/web/src/services/agentEventStream.ts:270-276 | nothing after a terminal event or an error has an effect |
| SseClient.ConsumeResponse | apps/web/src/services/agentEventStream.ts:220-294 | one response body, from the last accepted sequence on |
| SseClient.StreamAgentEvents | apps/web/src/services/agentEventStream.ts:302-383 | the reconnect loop: its outcome and everything handed over equal the recursive specification of retries |
| SseClient.ReadBody | apps/web/src/services/agentEventStream.ts:355-369 | a terminal body has an accepted id, and an accepted id is never lost |
| SseServer.StreamSession.constructor | apps/server/src/agent/sseStream.ts:102-108 | an opened session: nothing written, the last id as the last write |
| SseServer.StreamSession.MessageHandler | apps/server/src/agent/sseStream.ts:110-127 | a live message that is no public event of the run is ignored, one before the backlog is buffered, any other is written |
| SseServer.PublishedIsReceived | apps/server/src/agent/sseStream.ts:110-127 | the published text of a log entry passes the parse and the filter of the message handler |
| SseServer.StreamSession.Write | apps/server/src/agent/sseStream.ts:167-176 | only higher sequences are written; a failed write closes the session |
| SseServer.StreamSession.WriteHeartbeat | apps/server/src/agent/sseStream.ts:178-186 | a heartbeat changes nothing but the text sent |
| SseServer.StreamSession.FlushBacklog | apps/server/src/agent/sseStream.ts:209-215 | the backlog and the buffer are merged in order of sequence and written |
| SseServer.SortedMergeIsSorted | apps/server/src/agent/sseStream.ts:212-214 | the merge is in order and has every event of both |
| SseServer.WriteCovers | apps/server/src/agent/sseStream.ts:167-176 | writing an expected event after every smaller one keeps the response complete |
| SseServer.WriteAllCovers | apps/server/src/agent/sseStream.ts:212-215 | after the flush every expected event up to the last write has been written, once and in order |
| SseSystem.RunKeepsInv | apps/server/src/agent/sseStream.ts:102-215 | over every interleaving of emission, subscription, backlog, delivery through the message handler, heartbeat and close, the response covers exactly what the session was given |
| SseSystem.GapExactly | apps/server/src/agent/eventBus.ts:52-81 | a live response is the unbroken log after the last id exactly when no unpublished entry lies between its backlog and its last write |
| SseSystem.SessionWritesTheLog | apps/server/src/agent/sseStream.ts:102-215 | without such a gap the events of a response are the log entries right after Last-Event-ID |
| SseSystem.GapIsReachable | apps/server/src/agent/eventBus.ts:52-81 | in every run's stream, an emitter that stops between insert and publish makes a client be sent 1 and then 3 |
| SseSystem.LostPublicationLeavesAGap | apps/server/src/agent/eventBus.ts:52-81 | the same for any three public events of a run |
| SseEndToEnd.PrintThenParse | apps/server/src/agent/sseStream.ts:88-89 | frames and heartbeats in any order parse back one for one, with the same sequence, type, message and payload, and leave no open frame |
| SseEndToEnd.CutParsesToPrefix | apps/web/src/services/agentEventStream.ts:156-212 | a response cut at any character parses to a prefix of that |
| SseEndToEnd.FilterHandsOver | apps/web/src/services/agentEventStream.ts:242-258 | events that follow the accepted one are all handed over, up to the first terminal one or a throwing callback |
| SseEndToEnd.BodyHandsOver | apps/web/src/services/agentEventStream.ts:220-294 | any cut of any response of a session, in any chunks, hands over the next stretch of the log |
| SseEndToEnd.ExactlyOnce | apps/web/src/services/agentEventStream.ts:302-383 | over all interleavings, cuts, chunks and reconnects, what onEvent received is the stretch of the log right after the initial id, each entry once and in order; a terminal outcome ends at its first terminal event |
| SseEndToEnd.AtMostOnce | apps/web/src/services/agentEventStream.ts:242-258 | whatever a server sends, handed sequences strictly rise above the initial id |
| Leases.LeaseStore.FindByProvisioningKey | apps/server/src/sandbox/SandboxRepository.ts:96-100 | the lease with a provisioning key, if there is one |
| Leases.LeaseStore.IsBranchTaken | apps/server/src/models/SandboxLease.ts:190-201 | whether another build lease occupies the branch in the partial unique index |
| Leases.LeaseStore.MoveState | apps/server/src/sandbox/SandboxRepository.ts:162-184 | a compare-and-set on the state: refused by the table, by the stored state, or by the branch index |
| Leases.LeaseStore.SetState | apps/server/src/models/SandboxLease.ts:190-201 | the write itself, which the partial unique index may refuse |
| Leases.LeaseStore.Bind | apps/server/src/sandbox/SandboxRepository.ts:186-201 | a resource is bound only in provisioning, only where none is bound, and never to two leases |
| Leases.LeaseStore.Clear | apps/server/src/sandbox/SandboxRepository.ts:203-218 | a binding is cleared only in provisioning and only if it is the one named |
| Leases.LeaseStore.Heartbeat | apps/server/src/sandbox/SandboxRepository.ts:125-141 | a heartbeat touches a running lease bound to the named resource, and only its heartbeat |
| Leases.LeaseStore.ClaimProvisioning | apps/server/src/sandbox/SandboxRepository.ts:109-123 | a provisioning lease is claimed only if nobody wrote it since it was read, and only its heartbeat changes |
| Leases.LeaseStore.ClaimStaleRunning | apps/server/src/sandbox/SandboxRepository.ts:143-160 | a running lease with an old heartbeat is moved to terminating |
| Leases.LeaseStore.Create | apps/server/src/sandbox/SandboxRepository.ts:78-94 | a reservation is reused when it is the same, refused when it is another one's, or stored as reserved |
| Leases.FindKey | apps/server/src/sandbox/SandboxRepository.ts:96-100 | the first lease with the key; none before it has it |
| Leases.WritesEvolve | apps/server/src/sandbox/SandboxRepository.ts:162-218 | every operation leaves each lease with its reservation, at a state the table allows, its resource changed only inside provisioning; new leases are reserved and unbound |
| Leases.ResourceIsFrozen | apps/server/src/sandbox/SandboxRepository.ts:186-218 | a lease that left provisioning keeps its externalId for good |
| Leases.WritesKeepBranchesExclusive | apps/server/src/models/SandboxLease.ts:190-201 | every operation keeps at most one occupying build lease per branch |
| Quota.QuotaScheduler.CountProject | apps/server/src/sandbox/QuotaScheduler.ts:104-108 | the stored project count is the total over occupying leases |
| Quota.QuotaScheduler.MeasureWorkspace | apps/server/src/sandbox/QuotaScheduler.ts:109-142 | the five sums of the aggregation are the totals over occupying leases |
| Quota.QuotaScheduler.Insert | apps/server/src/sandbox/QuotaScheduler.ts:174-189 | the insert, with an index refusal reported as a busy branch |
| Quota.QuotaScheduler.ReserveLease | apps/server/src/sandbox/QuotaScheduler.ts:50-191 | an uninterrupted reservation: policy, reuse, busy branch, quota and insert, in this order |
| Quota.WriteLowersHeld | apps/server/src/sandbox/SandboxRepository.ts:13-21 | no write by anybody else raises what is held: nothing becomes active, and what comes back is left out |
| Quota.InsertKeepsOtherReads | apps/server/src/sandbox/QuotaScheduler.ts:103-143 | a reservation in one workspace weighs nothing on what another workspace's reserver has read |
| Quota.RunKeepsInv | apps/server/src/sandbox/QuotaScheduler.ts:50-191 | in every reachable state recorded reads are at least what is held, and what is held is within every limit |
| Quota.QuotaIsSafe | apps/server/src/sandbox/QuotaScheduler.ts:84-175 | after any run, whatever comes back, active leases are within every limit; everything occupying too if no lease came back |
| Quota.TotalIsMonotone | apps/server/src/sandbox/QuotaScheduler.ts:109-135 | a total grows with its shares |
| Quota.TotalAfterUpdate | apps/server/src/sandbox/QuotaScheduler.ts:109-135 | changing one lease changes a total by the difference of its shares |
| Quota.ComingBackFitsExactly | apps/server/src/sandbox/SandboxRepository.ts:19-20 | right after it entered terminating, a failed or lost lease is within a limit exactly when it would have fitted next to everything occupying |
| Quota.GuardedReturnKeepsTight | apps/server/src/sandbox/SandboxRepository.ts:19-20 | a lease that comes back fitting, before the reserver of its workspace has read, leaves every read covering and every limit kept |
| Quota.OccupyingQuotaExactly | apps/server/src/sandbox/QuotaScheduler.ts:84-175 | what occupies stays within every limit, in every run of every world, if and only if no lease comes back or both guards are imposed on those that do |
| Quota.OccupyingQuotaFails | apps/server/src/sandbox/QuotaScheduler.ts:16-22 | two previews occupy a workspace that allows one, the first coming back beside the second |
| Quota.StaleReadLetsTwoOccupy | apps/server/src/sandbox/QuotaScheduler.ts:104-176 | two previews occupy although the first fitted when it came back: the second is inserted on an earlier read |
| Quota.ReservationIsARun | apps/server/src/sandbox/QuotaScheduler.ts:50-191 | an uninterrupted reservation is one of the interleaved runs, with the same stored result |
| Termination.FinishIsExact | apps/server/src/sandbox/SandboxService.ts:437-484 | whenever terminate() ends a lease, every resource ever bound to it is gone |
| Termination.SweepIsExact | apps/server/src/sandbox/SandboxService.ts:609-639 | when the cleanup ends a lease, all is gone exactly when what it is bound to is not alive; it is if the binding is the one read, or was never cleared |
| Termination.StepKeepsInv | apps/server/src/sandbox/SandboxService.ts:437-484 | every step of terminators, cleanups, reconcilers and others keeps the invariant about snapshots and resources |
| Termination.TerminatedMeansGone | apps/server/src/sandbox/SandboxService.ts:437-484 | after any run, a lease ended by terminate() stays terminated with no living resource; so does one ended by the cleanup and never cleared |
| Termination.TerminateIsARun | apps/server/src/sandbox/SandboxService.ts:437-484 | a terminate() that nothing interrupts, as the reconciler calls it, is one of the runs, with the same leases stored |
| Termination.CleanupIsARun | apps/server/src/sandbox/SandboxService.ts:609-639 | so is a resumption that fails and is cleaned up |
| Termination.CleanupMayLeaveAResource | apps/server/src/sandbox/SandboxService.ts:609-639 | after a clear and a new binding the cleanup ends a lease whose resource lives |
| Reconciler.SandboxReconciler.constructor | apps/server/src/sandbox/SandboxReconciler.ts:43-52 | counters start at zero |
| Reconciler.SandboxReconciler.EndLease | apps/server/src/sandbox/SandboxService.ts:459-483 | the end of terminate(): without a resource at once, otherwise after a destroy and an inspection |
| Reconciler.SandboxReconciler.TerminateLease | apps/server/src/sandbox/SandboxService.ts:437-484 | terminate() without interruption |
| Reconciler.SandboxReconciler.ResumeLease | apps/server/src/sandbox/SandboxService.ts:169-222 | resumeProvisioning() without interruption, with its cleanup |
| Reconciler.SandboxReconciler.RetainOne | apps/server/src/sandbox/SandboxReconciler.ts:197-222 | the oldest listed resource is retained, or a new one; the others are destroyed and counted |
| Reconciler.OldestIsRetained | apps/server/src/sandbox/SandboxReconciler.ts:210-221 | what is listed is the retained resource and the destroyed ones, each once, and none is older than the retained one |
| Reconciler.SandboxReconciler.ReconcileProvisioningLease | apps/server/src/sandbox/SandboxReconciler.ts:173-245 | a provisioning lease is cleared if its resource is missing, bound to the retained one, and resumed by the pass whose claim finds it untouched |
| Reconciler.SandboxReconciler.HandleLease | apps/server/src/sandbox/SandboxReconciler.ts:76-171 | one lease: expiry, stale heartbeats, provisioning, missing resources, and leases to end |
| Reconciler.SandboxReconciler.HandleBatch | apps/server/src/sandbox/SandboxReconciler.ts:53-67 | a pass handles its batch lease by lease |
| Reconciler.SandboxReconciler.ReconcileOrphans | apps/server/src/sandbox/SandboxReconciler.ts:247-275 | what a provider lists and no lease is bound to, old enough and labelled, is destroyed, and counted unless its destroy stays pending |
| Reconciler.OrphansAreUnbound | apps/server/src/sandbox/SandboxReconciler.ts:254-272 | an orphan is destroyed exactly when it was seen, is there, labelled, old and unbound |
| Reconciler.NothingBoundIsDestroyed | apps/server/src/sandbox/SandboxReconciler.ts:247-275 | no pass destroys a resource as an orphan that a lease is bound to |
| Reconciler.SandboxReconciler.RunPass | apps/server/src/sandbox/SandboxReconciler.ts:42-74 | a pass handles its batch and then the orphans of every provider; its counters are those of the batch, the orphans destroyed and the providers that failed |
| Reconciler.Batch | apps/server/src/sandbox/SandboxReconciler.ts:53-58 | the first leases, in order of id, that are not terminated |
| Reconciler.TransitionsLowerTheRank | apps/server/src/sandbox/SandboxRepository.ts:10-21 | every transition of the table lowers the rank |
| Reconciler.HandlesOne | apps/server/src/sandbox/SandboxReconciler.ts:76-171 | handling a lease touches no other, whatever the provider answers, and only lowers its rank |
| Reconciler.PassNeverRaises | apps/server/src/sandbox/SandboxReconciler.ts:60-67 | whatever the provider answers, a pass never raises the total rank |
| Reconciler.ExpiredLeaseMoves | apps/server/src/sandbox/SandboxReconciler.ts:89-118 | an expired lease fails if reserved and ends otherwise, unless the branch index refuses |
| Reconciler.StuckExactlyWhenAllRefused | apps/server/src/sandbox/SandboxReconciler.ts:60-67 | with expired leases and a responsive provider a pass lowers the total rank, except exactly when the index refuses its whole batch |
| Reconciler.EveryPassMakesProgress | apps/server/src/sandbox/SandboxReconciler.ts:42-171 | with at most one batch of open leases every pass lowers the total rank, even when the index refuses some |
| Reconciler.TwoPassesEndAll | apps/server/src/sandbox/SandboxReconciler.ts:42-171 | then two passes terminate all of them |
| Reconciler.PileGrows | apps/server/src/sandbox/QuotaScheduler.ts:174-176 | reserving and failing one more build of a branch is possible any number of times |
| Reconciler.PileIsReached | apps/server/src/sandbox/QuotaScheduler.ts:174-176 | so any number of failed builds is reached from the empty collection |
| Reconciler.BatchStarves | apps/server/src/sandbox/SandboxReconciler.ts:53-58 | a run reaches a hundred failed builds before the reserved one of their branch, and there a pass makes no progress |
| BranchRuns.Database.constructor | apps/server/src/branches/branchService.ts:68-76 | a branch without runs |
| BranchRuns.Database.SetBranchHead | apps/server/src/branches/branchService.ts:79-94 | the head moves, by one version, only from the expected version |
| BranchRuns.Database.CommitBranchHead | apps/server/src/branches/branchService.ts:101-131 | a commit ends in a conflict exactly when the head is not the snapshot afterwards |
| BranchRuns.Database.UpdateStatus | apps/server/src/agent/createWorker.ts:75-81 | a conditional update of a run's status |
| BranchRuns.Database.TransitionRun | apps/server/src/agent/orchestrator.ts:621-649 | a compare-and-set along the table, that tells a cancelled run from another change |
| BranchRuns.Database.Cancel | apps/server/src/routes/agent.ts:411-451 | cancelling works in every open status but persisting |
| BranchRuns.Database.FailRun | apps/server/src/agent/orchestrator.ts:973-990 | the failure update |
| BranchRuns.FailureUpdateOverwrites | apps/server/src/agent/orchestrator.ts:973-977 | of the terminal statuses a failure update overwrites a first attempt's conflict, and only that |
| BranchRuns.StepKeepsInv | apps/server/src/agent/orchestrator.ts:698-1008 | every step of request handlers and executors keeps the invariant about bases, history and statuses |
| BranchRuns.RunKeepsInv | apps/server/src/agent/orchestrator.ts:698-1008 | so does every run, with crashes anywhere |
| BranchRuns.HistoryIsSerial | apps/server/src/branches/branchService.ts:79-131 | the version counts the history; every advance by a run starts from the version it is based on, with that version's head or nothing as its base; no run advances twice |
| BranchRuns.StepAdvancesByOne | apps/server/src/branches/branchService.ts:79-94 | one step appends at most one version and rewrites none |
| BranchRuns.CompletedIsInHistory | apps/server/src/agent/orchestrator.ts:651-691 | `completed` means the run's snapshot is in the head history, however often it was executed |
| BranchRuns.CancelledNeverPersisted | apps/server/src/routes/agent.ts:411-451 | a cancelled run owns no snapshot and never moved the head |
| BranchRuns.TerminalStays | apps/server/src/agent/stateMachine.ts:15-18 | a terminal status stays, over every run |
| BranchRuns.StatusFollowsTheTable | apps/server/src/agent/stateMachine.ts:6-19 | every status change is one of the table or a failure update of an open run |
| BranchRuns.CommitVerdict | apps/server/src/branches/branchService.ts:101-131 | over every run, with anything between the two operations of a commit: a run that has advanced never does again, and a verdict is `completed` exactly if the head then is its snapshot |
| BranchRuns.VerdictMayChange | apps/server/src/branches/branchService.ts:107-118 | the head is the run's snapshot when its replayed commit is refused, and no longer when the branch is read again |
| BranchRuns.CommitIsARun | apps/server/src/branches/branchService.ts:101-131 | a commit that nothing interrupts is one of the runs, and its executor goes on with the verdict that commitBranchHead gives |
| BranchRuns.ConflictMayHaveAdvanced | apps/server/src/agent/orchestrator.ts:710-756 | a run that advanced, stopped, and was replayed after a rollback is told of a conflict |
| BranchRuns.PersistingRetryStays | apps/server/src/agent/orchestrator.ts:1018-1019 | a retry that stopped while persisting stays so in every run |
| BranchRuns.RetryGetsStuck | apps/server/src/agent/orchestrator.ts:1018-1019 | a run of the system reaches such a retry, which no run finishes |
| BranchRuns.RecoversExactly | apps/server/src/agent/orchestrator.ts:710-756 | a persisting run without an executor can get a terminal status if and only if it is a first attempt |
| BranchRuns.PersistingRunRecovers | apps/server/src/agent/orchestrator.ts:710-756 | a first attempt that stopped while persisting can reach a terminal status |
| Manifests.ArtifactService.constructor | apps/server/src/artifacts/artifactService.ts:89-93 | an empty collection and store |
| Manifests.ArtifactService.Put | apps/server/src/artifacts/SharedFilesystemArtifactStore.ts:78-130 | publication creates a blob or leaves the existing one |
| Manifests.ArtifactService.UpdateState | apps/server/src/artifacts/artifactService.ts:325-336 | a compare-and-set on a manifest's state |
| Manifests.ArtifactService.FindKey | apps/server/src/artifacts/artifactService.ts:287-289 | the manifest of an idempotency key |
| Manifests.ArtifactService.CreateOrLoadManifest | apps/server/src/artifacts/artifactService.ts:268-293 | a new writing manifest, or the one that has the key |
| Manifests.ArtifactService.WriteEncoded | apps/server/src/artifacts/artifactService.ts:107-177 | the whole write as a function of the store; one that succeeds leaves a ready, readable manifest with the key and digest, changes no other artifact, and nothing when it was ready already; one that fails readies nothing |
| Manifests.ArtifactService.ReadManifest | apps/server/src/artifacts/artifactService.ts:241-266 | a read succeeds exactly on a ready manifest whose blob decodes, and marks one whose blob does not |
| Manifests.WriteIsARun | apps/server/src/artifacts/artifactService.ts:107-177 | a write that nothing interrupts is one of the interleaved runs, with the same store and answer |
| Manifests.ReadIsARun | apps/server/src/artifacts/artifactService.ts:241-266 | so is a read |
| Manifests.PromotionIsVerified | apps/server/src/artifacts/artifactService.ts:152-164 | a manifest leaves writing only as corrupt, or as ready and readable |
| Manifests.WritingIsLeftForGood | apps/server/src/artifacts/artifactService.ts:161-164 | writing is never entered again |
| Manifests.StepKeepsInv | apps/server/src/artifacts/reconciler.ts:49-172 | every step of writers, readers and reconcilers keeps the invariant |
| Manifests.StepKeepsGuarded | apps/server/src/artifacts/reconciler.ts:90-129 | a deletion that met no other acts on what is still so; one that saw no reference go finds every reference in the end |
| Manifests.RunIsObserved | apps/server/src/artifacts/reconciler.ts:90-157 | where overlapping deletions, or drops during a deletion, are forbidden, no deletion is ever out of date when it acts |
| Manifests.RunIsSafe | apps/server/src/artifacts/reconciler.ts:49-172 | both invariants hold over every run, whatever is permitted |
| Manifests.ReadyMeansReadable | apps/server/src/artifacts/artifactService.ts:107-177 | every ready manifest has a blob that decodes under its integrity data, unless a deletion that met another one and saw a reference go was acted on |
| Manifests.DeletionIsSafe | apps/server/src/artifacts/reconciler.ts:90-157 | what a snapshot, candidate or open lease refers to is stored, readable and not deleted, on the same condition |
| Manifests.IntactExactly | apps/server/src/artifacts/reconciler.ts:90-157 | both hold in every run if and only if overlapping deletions of an artifact or drops of its references meanwhile are ruled out |
| Manifests.WritersAgree | apps/server/src/artifacts/artifactService.ts:111-176 | while a manifest lives, all successful writes under its key returned it with its digest |
| Manifests.CountersAreTransitions | apps/server/src/artifacts/reconciler.ts:76-80 | summed counters are the promotions and removals made, each manifest once |
| Manifests.ReferencedBlobMayBeDeleted | apps/server/src/artifacts/reconciler.ts:90-129 | two reconcilers and a lease that takes over from a candidate delete the blob of a ready, referenced artifact, whatever content it has |
| Sorting.SortIsOrdered | apps/server/src/agent/sseStream.ts:212-214 | sorting by a sensible order puts items in order |
| Sorting.OrderedStays | apps/web/src/lib/chatTimeline.ts:274-278 | sorting is stable: what is in order stays as it is |
| TextSort.LessIsTotal | apps/server/src/artifacts/bundle.ts:21-22 | the text order is total and irreflexive |
| TextSort.SortForgetsOrder | apps/server/src/artifacts/bundle.ts:152 | sorting items with distinct keys forgets the order they came in |
| TextSort.AscendingIsUnique | apps/server/src/artifacts/bundle.ts:152 | there is one ascending order |
| Paths.NormalizeIsIdempotent | apps/server/src/agent/fileOperations.ts:45 | normalizing a relative path twice is normalizing it once |
| Bundle.CanonicalizeBundle | apps/server/src/artifacts/bundle.ts:135-159 | the loops compute the canonical form, or the first error |
| Bundle.PathsAreDistinct | apps/server/src/artifacts/bundle.ts:145-151 | the loop over a set of paths finds a duplicate exactly when there is one |
| Bundle.CanonicalFiles | apps/server/src/artifacts/bundle.ts:113-144 | succeeds exactly when every file does, with every file in its place |
| Bundle.CanonicalizeIsIdempotent | apps/server/src/artifacts/bundle.ts:135-159 | a canonical bundle is its own canonical form |
| Bundle.DecodeUndoesEncode | apps/server/src/artifacts/bundle.ts:176-292 | whatever encodes decodes, under the same limits, to its canonical form |
| Bundle.DigestFixesTheBundle | apps/server/src/artifacts/bundle.ts:252-260 | two artifacts with one digest decode to the same bundle, unless their contents are a collision of the digest |
| Bundle.SameCanonicalForm | apps/server/src/artifacts/bundle.ts:44-159 | bundles that differ in file order, entry order, slashes or run-id case have one canonical form, or neither has any |
| Bundle.EncodingForgetsPresentation | apps/server/src/artifacts/bundle.ts:176-207 | such bundles encode to identical bytes and manifests, or not at all |
| ProjectFiles.ApplyFileOperations | apps/server/src/agent/fileOperations.ts:60-99 | the two loops over the map of files compute the operations one by one |
| ProjectFiles.PutIsUpdate | apps/server/src/agent/fileOperations.ts:69-73 | setting a path replaces its file or adds one, and touches no other |
| ProjectFiles.RemoveIsDeletion | apps/server/src/agent/fileOperations.ts:85 | deleting a path removes exactly its file |
| ProjectFiles.LocatedIsTidy | apps/server/src/agent/fileOperations.ts:40-52 | an accepted path is in normal form, with a known language |
| ProjectFiles.AppliedIsValid | apps/server/src/agent/fileOperations.ts:60-99 | whatever the operations, the result has one file per tidy path with its language, text only, and the required template files of the base |
| ProjectFiles.MergeIsServerOwned | apps/server/src/agent/dependencies.ts:36-55 | a merge has the server's scripts, and in both records exactly the names of all sides, with the model's version, else the one before, else the server's |
| ProjectFiles.PackageJsonIsWritten | apps/server/src/agent/orchestrator.ts:385-393 | writing package.json replaces that file alone and confirms every path as normalized |
| RepairLoop.GenerateTree | apps/server/src/agent/orchestrator.ts:341-363 | the tree of a first generation |
| RepairLoop.RepairTree | apps/server/src/agent/orchestrator.ts:521-549 | the tree of a repair, refused when it changes nothing |
| RepairLoop.GeneratedIsPresentable | apps/server/src/agent/orchestrator.ts:350-363 | a first generation has normalized unique paths, the tracked package.json as its file, and the required files |
| RepairLoop.RepairedIsPresentable | apps/server/src/agent/orchestrator.ts:521-548 | a repair keeps that |
| RepairLoop.RunAgentGeneration | apps/server/src/agent/orchestrator.ts:315-383 | the first generation drives the run to generating, or gives a reason |
| RepairLoop.Repair | apps/server/src/agent/orchestrator.ts:502-567 | a repair drives the run from validating back to generating |
| RepairLoop.Validate | apps/server/src/agent/orchestrator.ts:406-500 | one turn of the loop: one more call, and an outcome or a repair to make |
| RepairLoop.Judge | apps/server/src/agent/orchestrator.ts:431-500 | which answers stop the loop, and as what |
| RepairLoop.DriveFollowsTheTable | apps/server/src/agent/orchestrator.ts:852-868 | an event without a phase asks for no transition; any other makes one of the table, from the stored status, or is refused |
| RepairLoop.RunAgentGenerationWithValidation | apps/server/src/agent/orchestrator.ts:395-569 | for every model, validator and listener: at most one call more than repairs allowed, attempts 0, 1, 2, …, no two repaired failures alike, only transitions the table allows, and any property repairs keep holds of every candidate shown |
| RepairLoop.GenerateValidated | apps/server/src/agent/orchestrator.ts:395-569 | every tree that is validated or returned is presentable |
| Timeline.TimelinePage | apps/server/src/routes/chat.ts:83-155 | a page is the newest runs before the cursor, from oldest to newest, with a next cursor exactly when there are older ones |
| Timeline.CountBehindCursor | apps/server/src/routes/chat.ts:86-93 | behind a run's cursor lie exactly the runs before it, however many came later |
| Timeline.MergeOlderTimelinePage | apps/web/src/lib/chatTimeline.ts:266-297 | the merge: by id, then by time, stably |
| Timeline.OlderGoesInFront | apps/web/src/lib/chatTimeline.ts:270-278 | an older page ends up in front of what was there |
| Timeline.NewerGoToTheEnd | apps/web/src/lib/chatTimeline.ts:325-372 | new runs end up behind it |
| Timeline.LoadTimeline | apps/server/src/routes/chat.ts:83-136 | following the cursors visits each run once and leaves the client with the whole chat and all later arrivals, in order |
| Timeline.AppendTimelineEvent | apps/web/src/lib/chatTimeline.ts:299-323 | an event is added to the turn of its run, and to no other |
| Timeline.AppendKeepsRising | apps/web/src/lib/chatTimeline.ts:307-318 | the events of a turn stay strictly rising, with just this one added unless its number is known |
| Timeline.AppendsCommute | apps/web/src/lib/chatTimeline.ts:307-318 | events may arrive in any order |

## Left out

- UTF-8 decoding, byte-order marks and JSON text of the stream: chunks are text, and JSON is the `Codec`.
- Timers: retry delays, heartbeat intervals, subscription timeouts, abort signals and `onState` callbacks are nondeterministic steps or absent.
- A `subscriber` that fails to subscribe and `forceDisconnect`: such a session is closed before it writes anything.
- `assertHeld` and the renewal of the workspace lock: the lock is assumed to be held.
- Heartbeats that a transition to `ready` sets along, and timestamps other than heartbeats and expiry.
- What labels name an owner of a resource: it is a field of what the reconciler sees.
- Leases with different expiry in one pass are covered by `StuckExactlyWhenAllRefused` only as far as the batch is expired; what a lease that is not expired comes to is `ReconcileLease`, of which only the falling rank is proved.
- Creation of retries while another retry of the source is open is ruled out by the partial unique index and not modelled as an error.
- The main branch's copy of the head in the project record, chat messages and emitted events of runs: they decide nothing about the head.
- `readPreviewDirectory`, preview bundles and their encoder: the manifests' model takes any decoder.
- fsync, temporary names, symlink checks and error codes of the file store: `put` is insert-if-absent, `delete` removal.
- The batch limit and age cut-offs of the artifact reconciler: any manifest in the right state may be picked at any time.
- Bundle inputs of other types than declared: the `typeof` checks are types here; object keys that look like integers, which JavaScript lists first, are not treated apart.
- `localeCompare`: the order of files is any permutation, and the order of package.json keys is part of the printer.
- Model prompts, plans, summaries, usage and token counts, and the classification behind a failure's fingerprint: a fingerprint is a field of the validation.
- Expanded runs, plans and statuses shown by the timeline: the model keeps turns, their order and their events.
- The text form of timeline cursors: a cursor is the pair it encodes.
