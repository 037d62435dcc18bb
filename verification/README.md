# A verified model of the recording transcription service

The service stores uploaded recordings, and workers turn each into a transcript
and a summary through a task queue kept in one database table. This project
models that queue, the executions and dispatchers on it, the upload protocol
and the summary stream, and proves what they keep over all runs.

`dafny verify dfyconfig.toml` checks the whole project.

## How it is built

- `Tasks` holds the rows and every statement the service sends to the table: a
  WHERE clause, an assignment, and their effect on the table. `TaskStore` is the
  DAO as a class that changes the table in place, proved against it.
- `Protocol` adds the clock and, per task, a ledger of the statements that
  matched it. Its invariant is kept by every statement of every caller, and
  `QueueLaws` draws the laws over whole runs from it, `Columns` what a reader sees
  on a row. Most guards of the source
  test `locked_by` and not `status`; they are right because of this invariant.
- `Claims` opens up the reclaim-and-claim transaction: row locks, SKIP LOCKED,
  the UPDATE by id alone, commit or rollback, any number at once, with now()
  fixed at the start. It refines `Protocol`, where the same transaction is one
  reclaim and one claim.
- `Executions` puts the executions of `process` on top, with crashes, lost
  leases, cancellations and stale executions. The fence is the worker's name;
  it stands for the number of the claim as long as no worker claims a task that
  an earlier execution of its own is still working on. That condition is exact
  (`ClaimKeepsFenceIff`), and `SelfReclaim` is a run that breaks it: the task ends
  done with one execution's transcript and the summary of another's. `Leases`
  shows when the condition comes for free: if renewals reach the database in
  time and worker names are distinct.
- `FencedClaims` puts `Executions` on `Claims`: the fence holds with claims as open
  transactions; `OnTimeClaims` adds `Leases` to both. `Concurrency` puts every worker's map of running tasks beside
  `Executions` and `Leases`.
- `Progress` bounds the work a task can take.
- `Executor` is one execution in the form of the source, on the DAO. What the
  recognizer and the summarizer do, and what goes wrong, is given. Between its
  statements any run of the rest of the system may happen; the whole is then a
  run of `Executions`, under its one hypothesis.
- `Dispatcher`, `Worker` and `Retry` are the other imperative parts of the queue:
  the polling loop with its map of running tasks, start and stop, and the retry
  endpoint. What others do between their database calls is an arbitrary change
  of the table.
- `Uploads` interleaves uploads and deletions step by step with the disk and the
  unique hash index; `UploadService` is one upload and one deletion in the form
  of the source, which refine it. `Catalog` joins `Uploads` and `Protocol`: one task
  per recording. `Staging` is the chunked staging loop.
- `Json`, `Sse` and `SummaryStream` print, frame, replay and read back the summary
  stream. `Listing` is the paged list.

## Where the code and its documentation differ

- README.md:88 says a task is executed at most 4 times. Reclaims, resets and
  requeues do not count as failures: `ExecutionBound` is the true bound, it is
  reached for all counts (`ExecutionBoundReached`), and the documented one holds
  if and only if the counts are zero (`DocumentedBoundIff`).
- api/service/recording.py:84 says an upload leaves no garbage. If the first hash
  lookup fails or is cancelled, its `.part` file stays.
- api/service/recording.py:115-121 takes an upload without an answer for one
  without a row. Cancelled while its session closes after the commit
  (api/repository/recording.py:41-60), it removes the file and the row stays; a
  deletion cancelled there leaves the file without a row. `CutUploadLosesFile` and
  `CutDeletionStrandsFile` are such runs, and `DiskAgreesWithDatabase` says that
  nothing else parts disk and table.
- A call cut off while its session closes after its commit has effects that are
  never answered elsewhere too: a retry requeues without waking the worker
  (`RetryTask`), and a claim leaves tasks that nobody works on until their leases
  lapse (`Turn`, `OrphanWaits`).
- api/controller/recording.py:58 says a newly generated summary is stored. The
  stream never stores one; only `mark_done` writes summaries.
- A lease of less than 5 seconds expires before a punctual renewal, because the
  renewal interval has a floor of 5 seconds (`PunctualLoopKeepsLeaseIff`).
- `running_tasks` is popped by task id. The limit on concurrent executions holds
  of the map always; of the executions, whatever is claimed, if and only if it is
  at most 1 (`LiveWithinLimitIff`), and in general as long as no worker claims a
  task it is working on (`LiveWithinLimit`), as when renewals are on time
  (`OnTimeWithinLimit`).

## Model

| member | source | states |
|---|---|---|
| TaskStore.TaskDao.ClaimPending | api/repository/dao/task.py:123-164 | claims the oldest due, unlocked tasks, as many as fit the limit, for this worker, and changes no other row |
| TaskStore.TaskDao.RenewLease | api/repository/dao/task.py:166-185 | true exactly for the holder; extends the lease from now |
| TaskStore.TaskDao.MarkSummarizing | api/repository/dao/task.py:187-205 | true exactly for the holder; stores the transcript |
| TaskStore.TaskDao.MarkDone | api/repository/dao/task.py:207-228 | true exactly for the holder; stores the summary and frees the row |
| TaskStore.TaskDao.MarkFailure | api/repository/dao/task.py:230-270 | answers the new failure count and status, pending while retries are left, or nothing for a stranger |
| TaskStore.TaskDao.RequeueFailed | api/repository/dao/task.py:272-296 | resets a failed task and answers it; answers nothing otherwise |
| TaskStore.TaskDao.ReclaimInFlight | api/repository/dao/task.py:298-333 | frees and counts exactly the in-flight rows with a lapsed lease or, on request, the worker's own |
| TaskStore.TaskDao.ResetAborted | api/repository/dao/task.py:335-363 | frees and counts exactly the listed in-flight rows of this worker |
| TaskStore.TaskDao.DeleteByRecording | api/repository/dao/task.py:117-121 | removes and counts the recording's rows |
| TaskStore.TaskDao.Create | api/repository/dao/task.py:98-102 | adds a pending row, due at once |
| TaskStore.PickExists | api/repository/dao/task.py:137-146 | some set of rows is what ORDER BY created_at LIMIT selects |
| Protocol.InvStep | api/repository/dao/task.py:123-363 | every statement keeps the lock, result, retry, conservation and pacing shape of every row |
| Protocol.InvRun | api/repository/dao/task.py:123-363 | the same over every run |
| QueueLaws.StatementsFollowEdges | api/repository/dao/task.py:123-363 | a statement changes a row only along an edge of the state machine, stamps it with the transaction's time and keeps its identity |
| QueueLaws.OwnerGuardsMissIdleRows | api/repository/dao/task.py:174-263 | guards on locked_by alone never match a pending, done or failed row |
| QueueLaws.DoneIsForever | api/repository/dao/task.py:207-228 | a done row never changes again in any run, until deleted |
| QueueLaws.GoneIsForever | api/repository/dao/task.py:117-121 | a deleted task never comes back |
| QueueLaws.RowIdentity | api/repository/dao/task.py:41-73 | no run changes a task's recording or creation time |
| QueueLaws.EveryReachableRow | api/repository/dao/task.py:151-263 | in flight, locked and leased are the same thing; a summary exactly when done; failed exactly at max_retries + 1 failures |
| QueueLaws.Conservation | api/repository/dao/task.py:123-363 | claims = failures + reclaims + resets + dones + 1 if in flight; failures = (max_retries + 1) * requeues + retry_count |
| QueueLaws.ExecutionBound | README.md:86-88 | claims are at most (max_retries + 1) * (requeues + 1) + reclaims + resets, 4 by default when there are none |
| QueueLaws.ExecutionBoundReached | README.md:86-88 | for all counts of requeues, reclaims and resets some run has exactly those and reaches the bound |
| QueueLaws.DocumentedBoundIff | README.md:86-88 | the documented bound (max_retries + 1, 4 by default) holds of all runs with given counts if and only if they are zero: one reclaim, reset or requeue suffices to exceed it |
| QueueLaws.ExecutionsUnbounded | README.md:86-88 | reclaims alone suffice: for every n a run with n executions of a task that never failed |
| QueueLaws.FailuresBetweenRequeues | README.md:187 | exactly max_retries + 1 failures separate consecutive requeues |
| QueueLaws.HeldUntilReleased | api/repository/dao/task.py:187-363 | a task in flight stays with its holder until a mark, a reclaim, a reset or its deletion |
| QueueLaws.NoDoubleClaim | api/repository/dao/task.py:130-164 | between two claims of a task there is a release |
| QueueLaws.BackoffLowerBound | api/repository/dao/task.py:239-261 | no task fails for good sooner than 2^(max_retries + 1) - 2 seconds after creation or last requeue, whatever is reclaimed or reset |
| QueueLaws.NextAttempt | api/repository/dao/task.py:255-261 | a waiting task is due at once, except exactly 2^n seconds after its nth failure |
| QueueLaws.LapsedBecomesClaimable | api/worker/dispatcher.py:170-190 | a lapsed task is claimable in the reclaiming transaction itself, with its retries untouched, and no other row moves |
| Columns.RequeuedIsNew | api/repository/dao/task.py:272-296 | a requeued task is as a task created now, but for its creation time |
| Columns.RowsShowLastWritten | api/repository/dao/task.py:123-363 | in every run the transcript, error and summary on a row are what was last written there: no failed, reclaimed or reset attempt and no claim loses a transcript |
| Columns.AttemptsKeepResults | api/repository/dao/task.py:151-263 | which statements leave transcript, summary, error and retries alone |
| Columns.ClipIsLongestPrefix | api/repository/dao/task.py:250 | an error is stored as its longest prefix within 1000 characters |
| Claims.CommitIsAtomic | api/worker/dispatcher.py:170-190 | what a transaction wrote step by step is, at commit, one atomic reclaim followed by one atomic claim |
| Claims.TransactionsRefineAtomicClaims | api/repository/dao/task.py:136-164 | every interleaving of reclaim-and-claim transactions and statements is a run of the atomic queue |
| Claims.PicksAreSafe | api/repository/dao/task.py:136-164 | row locks of open transactions never overlap, and picked rows are still pending and due at the status-less UPDATE |
| Claims.DbInvStep | api/worker/common.py:21-30 | begin, lock, pick, update, commit, rollback and foreign statements keep what open transactions rely on |
| Executions.SysInvStep | api/worker/executor.py:42-128 | every move of every execution keeps the fence and the fit between execution and row |
| Executions.FenceIsEpoch | api/repository/dao/task.py:187-270 | a mark is accepted exactly when it comes from the execution of the latest claim, and finds the stage it expects |
| Executions.StaleMarksChangeNothing | api/worker/executor.py:74-105 | the same in every run; a refused mark changes no row |
| Executions.DoneResultIsOneExecution | api/worker/executor.py:68-105 | a done row holds a transcript and the answer of the summarizer to it, from its last claim's execution |
| Executions.RenewalReportsLoss | api/worker/executor.py:149-184 | a renewal fails exactly when the task is no longer this execution's, and otherwise extends the lease |
| Executions.LossIsForever | api/worker/executor.py:124-125 | an execution that lost its task never gets it back |
| Executions.ClaimKeepsFenceIff | README.md:98 | a claim keeps the fence if and only if its worker has no live execution of a claimed task |
| Executions.OrphanWaits | api/worker/dispatcher.py:113-117 | a task in flight that nobody works on, as after such a claim, stays exactly as it is until its deletion, its worker's reset or start, or a reclaim after its lease lapsed |
| FencedClaims.TransactionsKeepFence | api/repository/dao/task.py:136-164 | executions over open claim transactions, with row locks and waiting statements, are a run of `Executions` on the committed table: the fence holds and a done row is one execution's |
| FencedClaims.JointStep | api/worker/dispatcher.py:170-190 | every step of either keeps that, a commit being one reclaim and one fenced claim |
| OnTimeClaims.OnTimeTransactionsKeepFence | README.md:98 | with timely renewals, and claims that commit within their lease, all that holds with no hypothesis on claims: no open transaction has locked a task being worked on, and each is worked on once |
| SelfReclaim.SelfReclaimMixesResults | api/worker/executor.py:170-184 | a run in which a worker whose renewal loop died reclaims its own task; the done row mixes two executions |
| Leases.NobodyReclaims | api/worker/executor.py:149-184 | while executions are on time no claim can take a task being worked on |
| Leases.OnTimeRunsAreFenced | api/worker/worker.py:63-64 | runs with timely renewals satisfy the fence's hypothesis of themselves |
| Leases.LiveLeasesNeverExpire | api/worker/executor.py:149-184 | in such runs a live execution is the latest claim's, its lease has not expired, and no periodic reclaim matches its row |
| Leases.OneExecutionPerTask | README.md:98 | in such runs an existing task has at most one live execution, across all workers |
| Concurrency.OnTimeWithinLimit | api/worker/dispatcher.py:88-139 | in such runs no dispatcher overlaps itself: each worker's live executions stay within its limit |
| Concurrency.LiveWithinLimit | api/worker/dispatcher.py:88-139 | the same of all runs without a self reclaim: popping by task id keeps the map exactly the live executions |
| Leases.PunctualLoopKeepsLeaseIff | api/worker/worker.py:63 | a punctual renewal comes before expiry if and only if the lease is at least 5 seconds |
| Progress.AcceptedWorkDecreases | api/repository/dao/task.py:123-270 | each accepted claim or mark decreases a measure on (retries left, stage) that is zero exactly for terminal tasks |
| Progress.TasksTerminate | README.md:187 | at most 3 * (max_retries + 1) claims and marks per requeue, plus two per reclaim or reset; when spent, the task is terminal |
| Executor.TaskExecutor.Process | api/worker/executor.py:42-130 | whatever others do meanwhile, what an execution does is a run of `Executions`; unless its task is lost it ends as the first thing that goes wrong has it, and if nothing does it finishes: the done row then holds the recognizer's answer and the summarizer's answer to it; a failure goes last, with that error; on return its task is not its own any more, unless it was cut off or its failure could not be recorded |
| Executor.TaskExecutor.LeaseKeepalive | api/worker/executor.py:149-168 | the same from the first renewal on, which is for the whole lease |
| Executor.TaskExecutor.AwaitWhileLeased | api/worker/executor.py:186-211 | work counts only while the lease is not found lost, and the lease is found lost only when the task is |
| Executor.TaskExecutor.HandleTaskFailure | api/worker/executor.py:213-248 | one failure is sent, with the error, unless the transaction breaks or is cut short; if accepted, the row is free, shows the error, and is pending or failed by its count |
| Executor.TaskExecutor.MarkSummarizing | api/worker/executor.py:74-94 | a refused transcript ends the execution, with no failure accepted; an accepted one is what gets summarized |
| Executor.TaskExecutor.RollBack | api/worker/executor.py:80-83 | an error while a refused mark is rolled back sends a failure that is refused as well |
| Executor.TaskExecutor.MarkDone | api/worker/executor.py:96-105 | unless something goes wrong, the summary of the saved transcript is saved too, or the task was lost |
| Executor.TaskExecutor.SendDone | api/worker/executor.py:96-105 | an accepted summary leaves the done row with this transcript and this summary, those of its last claim; a refused one means the task was lost |
| Executor.TaskExecutor.FailAfterDone | api/worker/executor.py:126-128 | a failure sent after the done mark was accepted finds the row done or deleted, whatever happened meanwhile, and changes nothing |
| Executor.ForeignRun | api/worker/executor.py:170-184 | whatever others and its renewal loop do, an execution's stage stays, a lost task stays lost, and `lease_lost` is set only for a lost task |
| Executor.RefusalIsLoss | api/worker/executor.py:80-105 | after a mark the task is still this execution's exactly when it was an accepted transcript |
| Dispatcher.TaskDispatcher.RecoverZombieTasks | api/worker/dispatcher.py:69-86 | every matching row becomes due with its retries untouched, every other row is unchanged |
| Dispatcher.TaskDispatcher.ReclaimAndClaim | api/worker/dispatcher.py:170-190 | of the rows due, lapsed ones included when a reclaim is due, and not locked by others, as many as the limit are claimed, the oldest first; the other lapsed rows become due, no other row changes, and the timer moves; the whole is a legal run of the queue from any state with this table |
| Dispatcher.PickDispatches | api/repository/dao/task.py:136-164 | what ORDER BY, LIMIT and SKIP LOCKED pick after the reclaim, said of the table before it |
| Dispatcher.TransactionIsRun | api/worker/dispatcher.py:170-190 | a reclaim, if due, and a claim of rows then pending and due are a legal run of the queue |
| Dispatcher.TaskDispatcher.ScheduleAll | api/worker/dispatcher.py:107-139 | every claimed id gets an execution, within the limit |
| Dispatcher.TaskDispatcher.Turn | api/worker/dispatcher.py:91-117 | a committed iteration does just that, with the room there is as the limit; what it claims is scheduled, unless the transaction raised or was cut off after its commit: then it is abandoned, in flight under this worker's lease; a rolled back one changes no row |
| Dispatcher.TaskDispatcher.MaybeReclaimExpiredLeases | api/worker/dispatcher.py:192-196 | when due, the next reclaim is an interval away even if this one failed; unless it was rolled back, exactly the lapsed rows become due |
| Dispatcher.TaskDispatcher.Others | api/worker/dispatcher.py:134-137 | finishing executions only shrink the map and the set of live executions |
| Dispatcher.TaskDispatcher.DispatcherLoop | api/worker/dispatcher.py:88-139 | every iteration is such a turn, with one reclaim timer through them all; map and live executions are a reachable pool; running tasks never exceed max_concurrency at any point, nor do live executions, unless a claim overlapped one and max_concurrency is at least 2; all that was claimed was scheduled, but for the claims that did not return after their commit |
| Dispatcher.LiveWithinLimitIff | api/worker/dispatcher.py:88-139 | live executions stay within max_concurrency in all reachable pools if and only if it is at most 1 |
| Dispatcher.SchedulingTracksIff | api/worker/dispatcher.py:129-137 | the map keeps track of live executions if and only if no scheduled task is already running |
| Dispatcher.PopByKeyOverfills | api/worker/dispatcher.py:134-137 | from max_concurrency 2 on, popping by key lets any number of executions live while the map is empty |
| Worker.TaskWorker.Start | api/worker/dispatcher.py:47-54 | unless its transaction is rolled back no row is locked by this worker afterwards, its former rows are due, others' unexpired rows are unchanged; it runs only if that returns |
| Worker.TaskWorker.Stop | api/worker/worker.py:106-142 | after a stop the map is empty, nothing runs unless a claim had overlapped, and, unless the reset is rolled back, the cancelled tasks still held are handed back and no other row is touched |
| Worker.TaskWorker.StopRemaining | api/worker/worker.py:127-138 | all that is still in the map is cancelled and handed back |
| Worker.TaskWorker.CancelRemaining | api/worker/worker.py:127-137 | exactly the executions in the map are cancelled, and the map is left empty |
| Worker.TaskWorker.HandBack | api/worker/executor.py:132-147 | exactly the cancelled tasks still held are handed back, due, with their retries untouched |
| Retry.TaskService.RetryTask | api/service/task.py:36-75 | whatever happens between its calls, at most one requeue, as new; it is submitted unless its call was cut off after the commit; an answer that tells the row as it is or why there is none; refused as failed only after two requeues missed; interrupted only by a call that does not return |
| Retry.TaskService.RequeueAndSubmit | api/service/task.py:38-43 | a failed task is requeued and submitted, any other is untouched; a call that raises submits nothing, whether or not it had committed |
| Retry.TaskService.RequeueFailed | api/repository/task.py:17-22 | a requeue whose call did not return after its commit is unanswered |
| Uploads.InvStep | api/service/recording.py:84-121 | every step of every upload and deletion, cut off at any point, keeps which files there are tied to rows and requests, and the unique index |
| Uploads.DiskAgreesWithDatabase | api/service/recording.py:84-121 | files are those recorded plus those under way, but for requests cut off after their commit; every recorded file exists if and only if the recordings of all such uploads were deleted, and at rest every file is recorded if and only if what each such deletion left was removed by another request; a staged part is left exactly by a failed lookup |
| Uploads.UncutRunsAgree | api/service/recording.py:84-121 | if no request is cut off after its commit, at rest the files are exactly those recorded |
| Uploads.FailedLookupLeavesPart | api/service/recording.py:84-85 | a run in which a failed first lookup leaves a staged part and nothing else |
| Uploads.CutUploadLosesFile | api/repository/recording.py:41-60 | a run in which an upload cut off while its session closes leaves its row and removes its file; the next upload of that content is told it exists |
| Uploads.CutDeletionStrandsFile | api/repository/recording.py:100-111 | a run in which a deletion cut off while its session closes leaves a file without a row |
| Uploads.StrandedFile | api/service/recording.py:171-177 | the file of a cut deletion is never recorded, and is there exactly until another request removes it |
| Uploads.UploadsAreIdempotent | api/repository/recording.py:33-66 | one recording per hash, made by one upload of that content, which when over was told created or was cut off after its commit; no file left by any upload not told created |
| Uploads.DeletionSteps | api/service/recording.py:171-177 | a deletion's steps never take another recording's row or file |
| Uploads.CommitStep | api/repository/recording.py:50-60 | committing an insert keeps hashes unique and the file accounted for |
| Catalog.OneTaskPerRecording | api/repository/recording.py:33-66 | in every reachable state each recording has exactly one task and each task its recording |
| Catalog.CatalogRun | api/repository/recording.py:100-111 | uploads, deletions and queue statements together are, on either side, a legal run of that side: the insert of a task never meets another of its recording |
| Catalog.TaskMissingIff | api/service/recording.py:42-45 | a reader that found a recording finds no task if and only if its deletion has committed since |
| UploadService.RecordingService.Upload | api/service/recording.py:84-141 | however requests interleave, the code is a run of `Uploads`; without a fault the upload creates the recording, unless the content was recorded at some moment since it began; told created, row and file are there unless deleted since; told existing, no file is left and the recording named was made from the same content; an exception leaves no file, save the part if the lookup failed, and no row, unless it came after the commit, or unless the worker could not be woken: then row and file stay; a task is missing only if its recording was deleted; each new row announced wakes the worker once |
| UploadService.RecordingService.CreateRecordingAndTask | api/repository/recording.py:33-66 | a new row of its own, or a row made from the same content, or an exception, before or after the commit; without a fault only a rival that clashed and was deleted at once brings an exception |
| UploadService.RecordingService.CloseCreated | api/repository/recording.py:59-60 | after the commit the session closes: the row is answered as created, or it stays unanswered |
| UploadService.InsertRace | api/repository/recording.py:50-66 | an insert clashes with a recording made from the same content, or goes ahead with no other insert of it open |
| UploadService.RecordingService.DeleteRecording | api/service/recording.py:171-185 | the code is a run of `Uploads`; a removed recording has neither row nor file, one not found has no row; only a fault before the commit keeps the row, and only one after it leaves the file, unless another request removes it |
| UploadService.RunMeanwhile | api/repository/recording.py:33-111 | no interleaving undoes that a recording was created for its content, nor moves another request on |
| Staging.StageUpload | api/utils/file.py:85-118 | without an interruption content is accepted if and only if it is not empty and within the limit, and each rejection has its cause; accepted content has the size and the hash of the whole, byte by byte; every rejection or interruption leaves no part file |
| Staging.CollectingGivesContent | api/utils/file.py:43-51 | a hash that only collects what it is fed gives back the content: every byte counts, in order |
| Staging.ChunkSink.Write | api/utils/file.py:43-46 | part file, size and hash advance together by the chunk |
| Staging.DigestConcat | api/utils/file.py:43-51 | hashing chunk by chunk hashes the concatenation |
| Staging.StagedUpload.Commit | api/utils/file.py:75-78 | moves the part to its final path |
| Staging.StagedUpload.Discard | api/utils/file.py:80-82 | removes the part; does nothing after a commit |
| Json.ValueRoundTrip | api/controller/recording.py:24-26 | printed JSON reads back as the value, whatever follows it |
| Json.TextRoundTrip | api/controller/recording.py:24-26 | string escapes of RFC 8259 section 7 are undone exactly |
| Json.EscapesAsPython | api/controller/recording.py:25 | quotes, backslashes and control characters are escaped as json.dumps does, all others written as they are |
| Json.PrintIsOneLine | api/controller/recording.py:24-26 | a payload holds no line break, so a frame has one data line |
| Sse.StreamRoundTripIff | api/controller/recording.py:24-26 | parsing the frames returns exactly the events if and only if no event name is empty or broken over lines |
| Sse.PayloadRoundTrip | api/controller/recording.py:24-26 | a message's data decodes to the event's payload |
| SummaryStream.ReplayStoredSummary | api/service/recording.py:258-265 | deltas of 16 characters, the last shorter, that concatenate to the stored JSON, then the summary |
| SummaryStream.EventSource | api/controller/recording.py:62-73 | the body is the frames of the events before the client hung up |
| SummaryStream.PrefixReachesClient | api/controller/recording.py:62-73 | a client receives exactly the events before it hung up |
| SummaryStream.ReplayReachesClient | api/service/recording.py:258-265 | from a replay a client rebuilds the stored JSON and the summary |
| SummaryStream.ReplayIffDetailShows | api/service/recording.py:199-213 | the stream replays exactly when the detail shows a summary, and then that summary |
| SummaryStream.StreamPrepared | api/service/recording.py:193-233 | a stored result is replayed with the row's transcript, otherwise the trimmed transcript is summarized; each error has exactly its cause |
| SummaryStream.StripTrims | api/service/recording.py:216 | stripping removes the blanks around the text and nothing else |
| SummaryStream.EventReachesClient | api/controller/recording.py:66-73 | what a client decodes from each kind of event |
| Listing.PagesCoverEverything | api/repository/recording.py:84-98 | pages in order yield every recording once, newest first, each with its own task; past the end they are empty and the total is what the pages add up to |
| Listing.OrderIsUnique | api/repository/dao/recording.py:53-60 | with distinct creation times the order is determined |
| Listing.PageAccepted | api/service/recording.py:146-149 | exactly pages from 1 and sizes from 1 to 100 are accepted |

## Left out

- `Executor` and `UploadService` carry the state of everyone else with them as one value; an object shared by several running executions or requests is not modelled.
- A crash of the API process in the middle of an upload or a deletion: its files stay.
- Statements of one transaction are atomic and stamped with the time they run; only the reclaim-and-claim transaction is opened up and stamped with its start.
- Statements that change several rows, such as a single-statement reclaim, may in `Protocol` take any subset of the matching rows; the DAO method takes them all.
- FastAPI routing, exception mapping, middleware, logging, settings and worker identity files: no protocol state.
- SQLAlchemy, connection pools and migrations: only row locks, rechecking after a lock wait, commit and rollback are modelled.
- Speech recognition and the language model are arbitrary: they answer, fail, or are cut short. Summaries are taken to be non-empty dictionaries, as the summarizer's result model guarantees.
- JSON numbers, booleans and null do not occur in summaries and stream payloads and are not in `Json`; surrogate escapes are not combined, since the printer never writes them.
- The order of a summary's members: the JSONB column forgets it, the model keeps it.
- Generating a summary for the stream from the language model: nothing is stored, so no state changes.
- Clock skew between the application and the database, and float rounding of intervals: one clock, exact arithmetic.
- A commit or a rename whose outcome is unknown because a cancellation lands inside it; the removal of a file, once begun, is taken to succeed.
- SHA-256 itself: any hash computed byte by byte, and equal hashes are taken as equal keys.
- Staging.StageUpload: an I/O error or cancellation strikes before a read, not inside a write or the final flush; the clean-up is the same.
- Listing.PagesCoverEverything: holds over a database that does not change between pages.
- File extension checks and response mapping other than the detail's: easy members.
