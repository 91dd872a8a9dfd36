# Verified model of the video-job protocol

This project models how a video job moves through the system, and proves what survives every interleaving of its
actors: uploads, RQ workers, the stuck-job reconciler, manual retries and cleanups, with stale queue messages, crashes,
failing Redis and object-storage calls, and expiring leases. Around that protocol it models the reconciler's Redis
lease, the upload rate limiter, admission control, idempotent uploads, object keys and error sanitising.

`dafny verify dfyconfig.toml` checks everything.

## How it is built

Each operation that updates state in place is a method over mutable objects (`VideoJobs.Database`,
`RedisQueue.QueueService`, `RedisLock.Redis`, `RateLimiter.CounterStore`, `JobCleanup.ObjectStorage`), proved against
functions such as `VideoWorker.Claimed` or `JobRecovery.ResetForRequeue` that say which columns a transaction writes.
The transition systems use the same functions as their steps, so the theorems over runs speak of what the methods do.
The contracts also write out columns, conditions, texts and numbers in terms of the inputs, so none of them rests on
such a function alone.

| file | content |
|---|---|
| `VideoJobs`, `RedisQueue` | the row, the table, the session, the queue and its retry budget |
| `VideoWorker`, `JobRecovery`, `JobRetry`, `VideoUpload`, `UploadEndpoint` | the actors, one transaction after the other, with the others free to act in between |
| `Lifecycle`, `LifecycleInvariant`, `ReachableStates` | all actors as one transition system, and what every reachable state keeps |
| `QuiescentStability`, `DeliveryConservation`, `RetryAlignment`, `AttemptLimit`, `RetryCounter`, `BoundedRecovery`, `LeasedRecovery`, `IdempotentUpload`, `CleanedJobs`, `ArtifactStore`, `CleanupRaces` | theorems over whole runs |
| `Counterexamples` | runs that show what the protocol does not promise |
| `CleanupRules`, `JobCleanup`, `CleanupPasses`, `CleanupProgress`, `CleanupStarvation` | cleanup rules, one pass, any sequence of passes, and when they get stuck |
| `RedisLock`, `ReconcilerLease`, `Reconciler` | the lease, any number of lease holders, one reconciler run |
| `RateLimiter`, `RateLimitTraces`, `RateBounds` | the fixed-window counter, its traces, its bounds |
| `AdmissionControl`, `AdmissionBound` | the admission check, and check-then-act over all interleavings |
| `PythonText`, `ErrorMessages`, `ObjectKeys`, `Common` | string operations and the pure rules built on them |

## Assumptions

- A commit writes the columns the code assigned, over whatever the row holds by then.
- Reading a row, changing it and committing is atomic when no external call lies in between. Enqueueing and the commit
  that follows are two steps, in this order.
- Enqueueing either pushes one message or raises and pushes none.
- UUIDs are fresh. All actors read one clock.
- RQ delivers a message again only after the worker raised or died, and at most `Retry.max` more times. One message has
  at most one live run.
- A database outage ends the actor that meets it, like a crash.
- Reconciler passes may reach any row that is PROCESSING or QUEUED by then, which includes every row a real pass
  reaches, so the theorems about runs do not depend on timeouts.
- Redis fails in three ways: the command is not run, it is run and the reply is lost, or (lease) the ttl is refused
  because it is not positive.

## What the code does not give

Each point has an input that shows it and the exact condition under which the code does give it.

- `attempt_count <= max_attempts` fails under duplicate messages (`Counterexamples.AttemptsExceedTheLimit`). It holds
  throughout a run if and only if no worker claims a row at its limit that is neither COMPLETED nor FAILED
  (`AttemptLimit.AttemptsStayWithinTheLimit`): `workers/video_worker.py:227` asks for FAILED rows only.
- COMPLETED by itself is not final: a duplicate live run's failure overwrites it, and an upload's late QUEUED commit
  reopens it (`Counterexamples.DuplicateRunOverwritesCompleted`, `Counterexamples.LateCommitReopensCompleted`). It is
  final if and only if the job has no live run and no call that has yet to commit
  (`QuiescentStability.CompletedIsFinalIffQuiescent`; for exhausted FAILED rows
  `QuiescentStability.TerminalRowIsFinalIffQuiescent`).
- `manual_retry_count` loses retries that overlap (`Counterexamples.OverlappingRetriesLoseOne`). It equals the number of
  committed retries if and only if every commit found the counter as it had read it
  (`RetryCounter.CounterIsExactIffFresh`), and a first lost count is never made up.
- A cleanup overtaken by a manual retry gives up references it never read, or deletes the row, and leaves the new
  artifacts behind (`Counterexamples.CleanupLosesNewArtifacts`): `backend/app/services/job_cleanup_service.py:196-223`
  looks at neither status nor references again. What the row names at the commit is gone if and only if the cleanup had
  read it at its start and no run has put it back (`CleanupRaces.CommitLeavesNothingBehindIff`). That is certain when the
  row is terminal and nothing of the job is in flight at the start, and a FAILED job is not retried by hand before the
  commit (`CleanupRaces.QuiescentJobIsCleanedUp`).
- Cleanup applies its limit before the retention rules, so enough old FAILED rows that are not exhausted stop it for
  good, for every limit and retention (`CleanupStarvation.CleanupCanStarve`). A pass stalls if and only if its whole
  snapshot is such rows (`CleanupProgress.PassStallsIff`); with fewer than `limit` rows in the way, finitely many passes
  clean every expired row (`CleanupProgress.ExpiredRowsAreCleaned`).
- An upload that dies on its way can strand its row (`Counterexamples.UploadIsStranded`): no actor ever picks the row
  up, and its idempotency key is answered with it for ever (`IdempotentUpload.StrandedForever`). Exactly the UPLOADED
  rows without a pending upload and without a delivery are stuck (`IdempotentUpload.UploadedForGoodIffStranded`).
- README.md line 157 of the repository says that locking keeps reconcilers from recovering the same job concurrently.
  That holds as long as no pass overruns its lease (`ReconcilerLease.MutualExclusion`), and from every state with an
  overrun a second reconciler can get in (`ReconcilerLease.OverrunAdmitsAnother`). The admin endpoint
  (`backend/app/api/v1/jobs.py:73-91`) takes no lock at all.
- Overlapping recoveries requeue a PROCESSING job twice at one attempt count
  (`Counterexamples.OverlappingRecoveriesRepeat`); without overlap there are fewer than `max_attempts` of them
  (`BoundedRecovery.RecoveriesAreBounded`), and passes inside leases that nobody overruns do not overlap
  (`LeasedRecovery.LeasedRecoveriesAreBounded`). Recoveries of a QUEUED job are bounded by nothing: each pushes one more
  message and counts no attempt (`Counterexamples.MessagesPileUp`).
- A request that stalls between its clock reading and its increment until the counter has expired escapes the rate
  limit (`RateBounds.StalledRequestEscapes`). The limiter answers every request by its rank if and only if no increment
  finds its counter expired (`RateBounds.CounterRefinesLogIffSafe`), which is so when every increment reaches Redis
  within the window it read (`RateLimitTraces.PromptRunIsSafe`), in particular when requests take no time
  (`RateBounds.InstantRequestsArePrompt`). Redis failures never let more requests of a window pass in total, although
  a single request may pass that would not have passed otherwise (`RateBounds.FailureFreesASlot`,
  `RateBounds.RequestPassesIff`).
- Sanitising a stored message again is the identity for ordinary errors, but not always for a `ProcessingError`: a
  doubled blank inside a known FFmpeg message hides it once (`ErrorMessages.ProcessingErrorFixedPoint` is the exact
  condition, `ErrorMessages.ProcessingErrorNotAlwaysFixed` an input).

## Model

| member | source | states |
|---|---|---|
| RedisQueue.QueueService.EnqueueVideoProcessing | backend/app/services/queue_service.py:26-54 | an enqueue adds exactly one message with `1 + max(0, max_attempts - 1)` deliveries, and a failing one adds none |
| RedisQueue.DepthCountsWaiting | backend/app/services/admission_control.py:64 | the queue depth is the number of waiting messages |
| VideoJobs.Database.Commit | backend/app/db/models.py:61-63 | a commit stores the session's columns and stamps `updated_at`, and touches no other row |
| VideoWorker.ClaimJob | workers/video_worker.py:214-250 | a row is claimed unless it is missing, COMPLETED, or FAILED and exhausted or at its limit; a claim counts one attempt, and a refused one writes nothing |
| VideoWorker.FinishJob | workers/video_worker.py:279-288 | the COMPLETED commit clears the failure metadata and times the run, over whatever the row holds by then; a local job gets the two paths `processed_dir/<id>.mp4` and `thumbnails_dir/<id>.jpg`, an object job its two URIs and two keys |
| VideoWorker.MarkJobFailed | workers/video_worker.py:90-103 | the stored message is that of the failure made fit for the API, the job is exhausted exactly when RQ gets no further try, and the other columns are those the source assigns |
| VideoWorker.ProcessVideoJob | workers/video_worker.py:208-367 | a delivery makes exactly its claim commit and one final commit, with other actors in between: COMPLETED with the output columns of its own id, or FAILED with unchanged outputs and the message of the failure or of the missing raw reference; it raises to RQ exactly when attempts remain or the row has vanished |
| JobRecovery.JobRecoveryService.FindStuckJobs | backend/app/services/job_recovery_service.py:27-45 | returns, each once, exactly the rows that are PROCESSING and started more than the processing timeout ago, or QUEUED and last updated more than the queued timeout ago |
| JobRecovery.JobRecoveryService.RecoverOne | backend/app/services/job_recovery_service.py:124-186 | the row as read decides between skip, fail, and requeue; the message is pushed first, and the commit goes over the row as the other actors left it, or raises if it has vanished; a requeued row loses failure, timing and outputs and names the message, a failed one is exhausted with the text of its cause |
| JobRecovery.JobRecoveryService.RecoverStuckJobs | backend/app/services/job_recovery_service.py:47-92 | the three id lists partition the handled part of the snapshot, which is all of it unless the pass raises, whatever others do meanwhile; the counters agree with them up to vanished rows; a quiet pass handles every stuck job and no other row |
| JobRecovery.RecoverySettlesJob | backend/app/services/job_recovery_service.py:124-210 | a recovered row is QUEUED if and only if attempts remain and the queue is up, else exhausted FAILED, and is not stuck again within the queued timeout |
| JobRecovery.QuietPassSettles | backend/app/services/job_recovery_service.py:47-92 | after a quiet pass every stuck job is QUEUED under a message that is in the queue, or exhausted FAILED, and a pass within the queued timeout finds none of them |
| JobRetry.RetryFailedJob | backend/app/services/job_service.py:36-83 | only FAILED jobs are retried; every other outcome changes nothing; a retry enqueues first and then resets the row as it is by then: QUEUED with no attempts, failure, timing or outputs, one retry counted and timed, under the new message |
| VideoUpload.CommitNewJobOrGetExisting | backend/app/services/video_service.py:199-217 | the insert succeeds exactly when the key is free; otherwise the holder's job is returned, or the error is raised if it has vanished |
| VideoUpload.EnqueueOrFail | backend/app/services/video_service.py:219-244 | the message is pushed before the QUEUED commit, which names it; a failing enqueue is recorded as FAILED |
| VideoUpload.UploadAndProcess | backend/app/services/video_service.py:55-197 | with the other actors between its transactions: the insert decides on the key, one message at most is pushed, and the last transaction writes QUEUED or the failure over the row as it is then; undisturbed, one row and one message, or one row with its failure, or the holder of the key |
| VideoUpload.LandedSpelledOut | backend/app/services/video_service.py:55-197 | column by column, the row, the queue and the answer after an undisturbed upload in each of its endings |
| UploadEndpoint.UploadVideo | backend/app/api/v1/videos.py:149-254 | a response says exactly which check stopped the request: the rate limiter, from the counter and the fate of its two commands alone, the key, its holder, admission, or the file; only a request that passed all writes; a repeated key is answered without admission or validation but not without the rate limiter; 503 exactly for a job FAILED for want of the queue |
| LifecycleInvariant.RunsKeepRow | workers/video_worker.py:241-288 | every update a worker commits keeps a row coherent and its keys in order, whatever the row holds by then |
| LifecycleInvariant.CallsKeepRow | backend/app/services/job_recovery_service.py:163-186 | so does every update of uploads, recoveries, retries and cleanups |
| LifecycleInvariant.NextKeepsInv | backend/app/services/job_recovery_service.py:124-186 | every single step of every actor keeps the global invariant |
| LifecycleInvariant.ReachableInv | workers/video_worker.py:208-367 | the invariant holds after every run from the empty system |
| ReachableStates.RowsAreCoherent | workers/video_worker.py:83-99 | in every reachable state: PROCESSING has an attempt and a start time, FAILED at the limit is exhausted, exhausted FAILED has a failure time, COMPLETED has no failure metadata and a completion time |
| ReachableStates.NoPhantomQueueing | backend/app/services/video_service.py:219-244 | in every reachable state a QUEUED row names a message that was enqueued for that very job, with the full budget |
| ReachableStates.FinishedJobsNameTheirOutputs | workers/video_worker.py:132-205 | in every reachable state a COMPLETED row that was not cleaned names exactly the two files, or the two objects, of its own id |
| ReachableStates.DeadRunIsStuckIff | backend/app/services/job_recovery_service.py:188-210 | a row claimed and then left alone is stuck at every time later by more than the timeout and at no earlier one, whatever the others do meanwhile; the attempts then decide between requeue and failure |
| QuiescentStability.TerminalRowsAreStable | workers/video_worker.py:218-239 | a COMPLETED or exhausted FAILED row with no live run and no pending commit keeps all columns, except that a cleanup may note an error or clear all references, until it is deleted or, if FAILED, retried by hand |
| QuiescentStability.CompletedIsFinalIffQuiescent | workers/video_worker.py:301-311 | a COMPLETED row stays COMPLETED in every continuation if and only if it has no live run and no call that has yet to commit |
| QuiescentStability.TerminalRowIsFinalIffQuiescent | workers/video_worker.py:333-343 | the same equivalence for all columns, and for exhausted FAILED rows that are not retried by hand |
| DeliveryConservation.DeliveriesAreConserved | backend/app/services/queue_service.py:38-51 | claims, due deliveries and lost deliveries of a job add up to `1 + max(0, max_attempts - 1)` per enqueue, over all interleavings |
| DeliveryConservation.WorkersTerminate | workers/video_worker.py:329-365 | worker steps use up a weight that only enqueues add, so without enqueues the worker side stops |
| DeliveryConservation.ClaimsAreCounted | workers/video_worker.py:246-250 | the claims recorded in the messages of a job are the claims made in the run |
| DeliveryConservation.LossesAreCounted | workers/video_worker.py:329-365 | over every run, deliveries are lost only by refused claims, runs that end for good and crashes without redelivery, and by no failure below the limit |
| RetryAlignment.AttemptCountIsClaimCount | workers/video_worker.py:246-250 | before its first manual retry a row's `attempt_count` is the number of claims of its job over all messages |
| RetryAlignment.RetriesAreAligned | backend/app/services/queue_service.py:11-43 | attempts, remaining deliveries and lost deliveries of an undisturbed job add up to `max_attempts`; its used-up message leaves it COMPLETED, exhausted FAILED at the limit, or PROCESSING at the limit, which the next recovery fails for good without enqueueing |
| RetryAlignment.EpochIsAligned | backend/app/services/job_recovery_service.py:137-142 | the same for every stretch that starts with one message and nothing else on its way |
| RetryAlignment.RetryEpochIsAligned | backend/app/services/job_service.py:49-72 | a manual retry of a job at rest opens such a stretch, whatever all actors do between its read, its enqueue and its commit, short of fetching its message or reading another retry: the job has its full `max_attempts` again, aligned with the new message |
| AttemptLimit.StepOverTheLimit | workers/video_worker.py:227-249 | one step takes a row over its limit if and only if it is a claim of a row at the limit that is neither COMPLETED nor FAILED |
| AttemptLimit.AttemptsStayWithinTheLimit | workers/video_worker.py:227-249 | a run keeps `attempt_count <= max_attempts` throughout if and only if it has no such claim |
| RetryCounter.CounterIsExactIffFresh | backend/app/services/job_service.py:49-72 | `manual_retry_count` never exceeds the committed retries, and equals them if and only if every commit found the counter as it had read it |
| RetryCounter.FreshIffNoneOverlapped | backend/app/services/job_service.py:69 | on an exact counter, a commit adds one if and only if no other retry was committed since it read |
| RetryCounter.RetryWritesAtItsCommit | backend/app/services/job_service.py:49-72 | against all other actors a manual retry writes the row at its commit alone; a failing enqueue leaves the table as it was |
| BoundedRecovery.RecoveriesAreBounded | backend/app/services/job_recovery_service.py:131-175 | between manual retries, non-overlapping passes requeue a PROCESSING job at strictly increasing attempt counts, so at most `max_attempts - 1` times, even with duplicate messages |
| LeasedRecovery.RecoveriesDoNotOverlap | workers/run_reconciler.py:168-185 | any number of reconcilers that recover only inside leases nobody overruns never work on a job at the same time |
| LeasedRecovery.LeasedRecoveriesAreBounded | workers/run_reconciler.py:168-185 | so together they requeue a PROCESSING job fewer than `max_attempts` times between manual retries |
| Counterexamples.OverlappingRecoveriesRepeat | backend/app/services/job_recovery_service.py:131-157 | a reachable state with two recoveries of a PROCESSING row at the same attempt count |
| Counterexamples.MessagesPileUp | backend/app/services/job_recovery_service.py:144-157 | for every n a reachable state with n waiting messages of one QUEUED job and no attempt |
| IdempotentUpload.UploadsAreIdempotent | backend/app/api/v1/videos.py:107-136 | for any interleaved uploads with one key: one row at most, one answer at most among surviving rows, one enqueue at most |
| IdempotentUpload.TakenKeyIsAnswered | backend/app/api/v1/videos.py:107-136 | a request whose key is taken gets the holder and writes nothing; only one that lost a race is refused, when the holder is FAILED for want of the queue |
| IdempotentUpload.StrandedForever | backend/app/services/video_service.py:101-116 | a row whose upload died on its way is never touched again and holds its key |
| IdempotentUpload.UploadedForGoodIffStranded | backend/app/services/video_service.py:101-116 | an UPLOADED row stays so in every continuation if and only if no upload has yet to commit it and no delivery of it is left; otherwise two actions can move it |
| CleanedJobs.CleanedFailedJobStaysFailed | workers/video_worker.py:132-147 | a FAILED row without references and live runs never becomes COMPLETED nor gets a reference back, whatever is retried |
| CleanedJobs.CleanupEndsTheJob | backend/app/services/job_cleanup_service.py:209-223 | after the cleanup of a FAILED job without a live run is committed, no continuation completes the job or restores a reference |
| ArtifactStore.GateServesFinishedJobs | backend/app/api/v1/videos.py:315-347 | the assets gate serves exactly the COMPLETED object-storage jobs, an uncleaned one with its three deterministic objects, and gives each other job the answer for its reason |
| ArtifactStore.ServedObjectsExist | workers/video_worker.py:156-205 | the objects behind the URLs of a job whose references no cleanup has opened are in the store |
| ArtifactStore.OtherCleanupSpares | backend/app/services/job_cleanup_service.py:198-207 | a cleanup of another job deletes none of this job's objects |
| Counterexamples.AttemptsExceedTheLimit | workers/video_worker.py:227-249 | a reachable state with more attempts than `max_attempts` |
| Counterexamples.DuplicateRunOverwritesCompleted | workers/video_worker.py:333-343 | a reachable COMPLETED row that a duplicate run's failure turns FAILED |
| Counterexamples.LateCommitReopensCompleted | backend/app/services/video_service.py:239-241 | a reachable COMPLETED row that a late commit turns QUEUED with every message used up |
| Counterexamples.OverlappingRetriesLoseOne | backend/app/services/job_service.py:49-72 | a reachable row with two committed retries and a counter of one |
| Counterexamples.UploadIsStranded | backend/app/services/video_service.py:101-110 | a reachable stranded row |
| Counterexamples.CleanupLosesNewArtifacts | backend/app/services/job_cleanup_service.py:196-223 | a cleanup overtaken by a retry clears or deletes a COMPLETED row while an object the row names stays stored |
| CleanupRaces.GoneUnlessRestored | backend/app/services/job_cleanup_service.py:198-207 | against all other actors: what a cleanup has read and deleted is stored again only if a run put it back |
| CleanupRaces.CommitLeavesNothingBehindIff | backend/app/services/job_cleanup_service.py:196-223 | for a cleanup against all other actors, after any earlier cleanups of the job: an object the row names at the commit is gone if and only if the cleanup had read it at its start and no run put it back |
| CleanupRaces.QuiescentJobIsCleanedUp | backend/app/services/job_cleanup_service.py:196-223 | with a terminal row and nothing in flight at the start, and no manual retry of a FAILED job before the commit, every object the row names at the commit is gone, whatever else happens and however many cleanups work on the job |
| JobCleanup.JobCleanupService.CandidateJobs | backend/app/services/job_cleanup_service.py:184-194 | selects the oldest uncleaned finished rows, all of them or exactly `limit` |
| JobCleanup.JobCleanupService.CleanupOne | backend/app/services/job_cleanup_service.py:196-225 | objects are deleted first, up to the first failure; only then the row is deleted or stripped of every reference |
| JobCleanup.JobCleanupService.Cleanup | backend/app/services/job_cleanup_service.py:83-182 | a candidate is an uncleaned row of the snapshot that is COMPLETED for the days of the one retention, or FAILED for good for the days of the other; a pass changes rows and objects exactly as the candidates demand, files each under cleaned or failed, and a dry or disabled one changes nothing |
| JobCleanup.DeletionStopsAtBroken | backend/app/services/job_cleanup_service.py:198-207 | deletion succeeds exactly when no referenced object fails, then removes all of them, and never removes anything else |
| JobCleanup.CleanOneSpelledOut | backend/app/services/job_cleanup_service.py:145-161 | all objects named by the three key columns go and the row is stripped or deleted, or an object that cannot be deleted stays and the row records the error alone |
| CleanupPasses.ReferencesOutliveObjects | backend/app/services/job_cleanup_service.py:196-225 | over any passes with any failures and no other writers, a row loses a reference or is deleted only after all its objects were deleted |
| CleanupPasses.PassDecides | backend/app/services/job_cleanup_service.py:145-161 | a candidate is finished if and only if none of its objects fails; otherwise it keeps every reference, stays a candidate and moves to the end of the order |
| CleanupPasses.OtherJobsKeepTheirObjects | backend/app/services/job_cleanup_service.py:284-289 | nothing below the prefix of a job that is not a candidate is deleted, and its row is unchanged |
| CleanupPasses.ReachableTablesAreOwned | backend/app/utils/object_keys.py:13-22 | in every reachable state every row names only keys below its own prefix |
| CleanupProgress.PassShrinksBacklog | backend/app/services/job_cleanup_service.py:305-323 | a pass removes from the backlog exactly the candidates without failing objects |
| CleanupProgress.FullPassSize | backend/app/services/job_cleanup_service.py:145-161 | a pass that fails on none of its snapshot and finds all of it expired removes `limit` rows from the backlog, or all |
| CleanupProgress.PassStallsIff | backend/app/services/job_cleanup_service.py:109-118 | on a backlog of blockers and expired, deletable rows a pass makes no progress if and only if its snapshot is all blockers |
| CleanupProgress.ExpiredRowsAreCleaned | backend/app/services/job_cleanup_service.py:184-194 | with fewer than `limit` other rows in the backlog, (number of expired rows) / (limit - others) failure-free passes, rounded up, clean every expired row |
| CleanupProgress.BlockersStarveCleanup | backend/app/services/job_cleanup_service.py:184-194 | `limit` oldest non-exhausted FAILED rows keep every later pass from changing anything |
| CleanupStarvation.CleanupCanStarve | backend/app/services/job_cleanup_service.py:108-118 | for every limit, retention and configuration a reachable state with an expired job that no passes with that limit ever clean |
| ObjectKeys.SafeFilenameIsOneSegment | backend/app/utils/object_keys.py:6-10 | any client file name becomes one non-empty path segment |
| ObjectKeys.FileNameIsKept | backend/app/utils/object_keys.py:6-10 | a file name without slashes is kept up to its backslashes, and the directories before it are dropped |
| ObjectKeys.OwnersAreDisjoint | backend/app/utils/object_keys.py:13-22 | one key lies below at most one job's prefix |
| ObjectKeys.KeysNeverCollide | backend/app/utils/object_keys.py:13-22 | keys are injective in the id and disjoint across raw, processed and thumbnail |
| ErrorMessages.StoredMessageIsNormalForm | backend/app/utils/error_messages.py:8-30 | a stored message is non-empty, at most 500 characters, without leading, trailing or repeated white space, and storing it again as an ordinary error changes nothing |
| ErrorMessages.StoredTextDependsOnMarker | backend/app/utils/error_messages.py:8-21 | a ProcessingError that contains a known FFmpeg message, in any case, is stored as one of two fixed texts; anything else as its own truncated text |
| ErrorMessages.TruncateSafeIsPresentable | backend/app/utils/error_messages.py:24-30 | the same for the truncation alone, including a cut after a blank |
| ErrorMessages.TruncateSafeKeepsText | backend/app/utils/error_messages.py:24-30 | a text that fits keeps all its words in order; a longer one becomes exactly 500 characters, a prefix and three dots |
| ErrorMessages.ProcessingErrorFixedPoint | backend/app/utils/error_messages.py:8-15 | exactly when storing a message again as a ProcessingError changes nothing |
| ErrorMessages.ProcessingErrorNotAlwaysFixed | backend/app/utils/error_messages.py:11-14 | an input for which it does change |
| RedisLock.RedisDistributedLock.Acquire | backend/app/services/distributed_lock.py:44-59 | a granted lock holds the key for the whole ttl; a refusal without an error comes only after the deadline and with the key held by somebody else |
| RedisLock.RedisDistributedLock.Release | backend/app/services/distributed_lock.py:61-73 | removes the key exactly when it is this object's live lease |
| ReconcilerLease.LeaseIsFenced | backend/app/services/distributed_lock.py:11-17 | no step of anyone else changes a live lease or takes its token |
| ReconcilerLease.HolderKeepsItsKey | backend/app/services/distributed_lock.py:11-17 | over any run, an unreleased lease stays in place until its ttl is over |
| ReconcilerLease.MutualExclusion | workers/run_reconciler.py:168-185 | two reconcilers are inside the pass at once only if one has overrun its lease |
| ReconcilerLease.OverrunLetsTwoIn | workers/run_reconciler.py:168-185 | for every ttl, a run with an overrun and two reconcilers inside |
| ReconcilerLease.OverrunAdmitsAnother | workers/run_reconciler.py:168-185 | from every reachable state with an overrun, others alone bring a second reconciler inside |
| ReconcilerLease.HoldWindow | workers/run_reconciler.py:41-51 | outside oneshot mode the next grant comes at least w seconds after the holder's start, for every w within both the interval and `max(0, ttl - 1)`, whatever the holder does |
| ReconcilerLease.ReleaseIsDueIff | workers/run_reconciler.py:41-51 | a holder that ended its pass may release in oneshot mode, after the interval, or after the ttl less one second, and not before |
| ReconcilerLease.GrantsAreTheAcquisitions | backend/app/services/distributed_lock.py:49-52 | the grants are exactly the acquisitions, and nobody is inside the pass without one |
| ReconcilerLease.TimelyReleaseSucceeds | workers/run_reconciler.py:204-207 | a release succeeds if and only if the ttl is not over; outside oneshot mode the earliest is due when the hold window ends, and for one second from then on it succeeds |
| Reconciler.HoldLockForInterval | workers/run_reconciler.py:41-51 | sleeps for what is left of `min(interval, max(0, ttl - 1))` seconds since the start, except in oneshot mode |
| Reconciler.RunOnce | workers/run_reconciler.py:143-211 | recovers only when enabled and, with locking on, only inside a granted lease; deals with every stuck job, or with those before the entry at which the database raises; always releases what it acquired, not before the pass and the hold window are over; reports success exactly when Redis answers within the ttl |
| RateLimiter.ResetIsTheNextBoundary | backend/app/services/rate_limiter.py:77-79 | `now + reset_seconds` is the next window boundary, and `1 <= reset_seconds <= window` |
| RateLimiter.UploadRateLimiter.CheckUploadAllowed | backend/app/services/rate_limiter.py:60-119 | a request passes exactly when Redis answered and the count it reached is within the limit; the answer carries the reason, the limit, what remains and the time to the next window |
| RateLimitTraces.ExecKeepsInv | backend/app/services/rate_limiter.py:82-85 | as long as no increment finds its counter expired, the counter of a window equals the logged increments, for every interleaving and every Redis failure |
| RateLimitTraces.PromptRunIsSafe | backend/app/services/rate_limiter.py:82-85 | a counter never expires inside its window, so increments that arrive within the window they read never find it expired |
| RateBounds.CounterRefinesLog | backend/app/services/rate_limiter.py:77-106 | without failures and without an expired counter, the k-th request of a window passes if and only if `k <= limit`, with the exact remaining count and reset time |
| RateBounds.CounterRefinesLogIffSafe | backend/app/services/rate_limiter.py:77-106 | for a positive limit and without failures, all answers follow the ranks if and only if no increment finds its counter expired |
| RateBounds.RequestPassesIff | backend/app/services/rate_limiter.py:82-117 | with failures, a request passes if and only if Redis answered it and fewer than `limit` increments of its window came before, provided no increment finds its counter expired |
| RateBounds.WindowBound | backend/app/services/rate_limiter.py:89-97 | at most `limit` requests of a window pass, whatever commands fail, provided no increment finds its counter expired |
| RateBounds.IntervalBound | backend/app/services/rate_limiter.py:77-106 | at most `(ceil(L / w) + 1) * limit` requests pass in any interval of length L, provided no increment finds its counter expired |
| RateBounds.FailuresAllowFewer | backend/app/services/rate_limiter.py:108-117 | with failures no more requests of a window pass than without, provided no increment of either trace finds its counter expired |
| RateBounds.StalledRequestEscapes | backend/app/services/rate_limiter.py:77-85 | two requests of one window pass under a limit of one when one stalls past the expiry |
| RateBounds.FailureFreesASlot | backend/app/services/rate_limiter.py:108-117 | a request that passes only because an earlier one failed |
| AdmissionControl.UploadAdmissionController.CheckUploadAllowed | backend/app/services/admission_control.py:50-86 | uploads are admitted exactly with at least the required workers and fewer waiting messages than the threshold; otherwise the first failing check is named |
| AdmissionBound.UploadsRespectTheBound | backend/app/services/admission_control.py:62-79 | with at most C uploads between check and enqueue, uploads alone never push the depth above `max_queue_depth - 1 + C` |
| AdmissionBound.BoundIsReached | backend/app/services/admission_control.py:62-79 | for every threshold and every positive C some run reaches that depth |

## Left out

- FFmpeg, temporary files and file copying: a run succeeds, raises or crashes.
- boto3 and presigned URLs: the store is a set of (bucket, key), deletion is idempotent and may fail, and a URL is the
  object it points to.
- RQ, Redis and SQLAlchemy internals beyond the assumptions above.
- Metrics, tracing, logging, gauges and health endpoints: they do not influence the protocol.
- Admin authentication, settings coercion, upload file checks and client identification: single decisions. The file
  checks are one flag of `UploadEndpoint.UploadVideo`; the client is a given string, and different clients use different
  counters.
- Columns that no actor decides on (`content_type`, `created_at`), column widths, and the queue-pressure label of an
  admission answer.
- Clock resolution: times are integers, whole seconds or milliseconds as each file says.
- JobCleanup.JobCleanupService.Cleanup: one pass runs at one instant and without other writers; every interleaving of
  single deletions and commits with all other actors is the subject of `CleanupRaces`.
- CleanupPasses.ReferencesOutliveObjects: passes have no other writers here; with other writers the statement is false,
  and `CleanupRaces.CommitLeavesNothingBehindIff` is what holds.
- CleanupRaces.CommitLeavesNothingBehindIff: while the cleanup runs no other cleanup deletes objects of the same job,
  and runs that are live at its start still have the outputs they stored (always so without a live run,
  `CleanupRaces.NoRunIsIntact`, or before any cleanup of the job, `CleanupRaces.FirstCleanupFindsRunsIntact`). When
  cleanups of one job delete at the same time, one direction remains (`CleanupRaces.GoneUnlessRestored`).
- UploadEndpoint.UploadVideo: the other actors wait while the checks of one request are made; concurrent checks are in
  `AdmissionBound`, concurrent increments in `RateLimitTraces`, concurrent lookups in `IdempotentUpload`.
- VideoUpload.UploadAndProcess: the object store itself is not part of this method; the order of storing, enqueueing and
  committing against all other actors is in `Lifecycle`.
- The ORM's UPDATE names only the columns whose value differs from the one loaded; here a commit writes every column
  the code assigns. The two differ where a commit assigns what it had loaded although another actor changed it since:
  - A cleanup that loaded empty output columns does not clear outputs written meanwhile. The references then stay in the
    row, which is still marked as cleaned. So the half of `Counterexamples.CleanupLosesNewArtifacts` that keeps the row
    rests on the assumption; with `delete_db_rows` the row is deleted in both readings.
  - A run that loaded empty failure columns and completes after a recovery has failed the row does not clear them: the
    row is then COMPLETED with an error message and `retry_exhausted`, against `ReachableStates.RowsAreCoherent`.
  - A recovery that read a QUEUED row does not write `status`, so it does not reopen a row COMPLETED meanwhile. The
    converse half of `QuiescentStability.CompletedIsFinalIffQuiescent` rests on the assumption for such calls.
- VideoJobs.Environment.Act: in the methods the other actors change rows but not the queue, so
  `VideoUpload.UploadAndProcess`, `VideoUpload.EnqueueOrFail`, `JobRecovery.JobRecoveryService.RecoverOne` and
  `JobRetry.RetryFailedJob` name the whole queue afterwards. Pushes and fetches by others in between are in `Lifecycle`.
- ErrorMessages.ProcessingErrorFixedPoint: `str.lower` is modelled on ASCII letters; the two texts searched for consist of
  nothing else.
