/** All actors over one table, one RQ queue and one object store. One action is one database transaction or one Redis
    or object-storage command, so every interleaving of the actors, with their crashes, is a sequence of actions. */
module Lifecycle {
  import opened Common
  import opened CleanupRules
  import opened ErrorMessages
  import opened JobRecovery
  import opened JobRetry
  import opened ObjectKeys
  import opened RedisQueue
  import opened VideoJobs
  import opened VideoUpload
  import opened VideoWorker

  /** An upload request. `Answered(id)` is a successful response carrying that job; `Refused` is an error response or
      a crash of the API process. */
  datatype UploadStage =
    | Received
    | KeyFree
    | KeyRaced
    | Inserted(id: JobId)
    | Saved(id: JobId)
    | Pushed(id: JobId, message: nat)
    | Answered(id: JobId)
    | Refused

  /** A recovery or manual retry that has read the row and decided to requeue it. */
  datatype RequeueStage = Decided | Enqueued(message: nat) | Applied(message: nat) | Dropped

  /** What the call read before it enqueued. */
  datatype Source = RecoveryRead(attemptsRead: nat, wasProcessing: bool) | RetryRead(countRead: nat)

  /** `refs` are the references read, `pending` those not deleted yet. */
  datatype CleanupStage =
    | Picked
    | Deleting(refs: seq<ObjectRef>, pending: seq<ObjectRef>)
    | CleanupOver

  datatype Call =
    | UploadCall(key: Option<string>, at: UploadStage)
    | RequeueCall(job: JobId, maxRead: int, source: Source, stage: RequeueStage)
    | CleanupCall(target: JobId, deleteRow: bool, progress: CleanupStage)

  /** `used` are the ids ever inserted. Calls and messages are never removed, so an index names one for good. */
  datatype State = State(
    cfg: Settings, rows: Table, used: set<JobId>, messages: seq<Message>, calls: seq<Call>, store: set<ObjectRef>,
    now: int)

  function Init(cfg: Settings, now: int): State {
    State(cfg, map[], {}, [], [], {}, now)
  }

  datatype WorkerStep =
    | Fetch | ClaimRow | Download | StoreVideo | StoreThumbnail | Complete | Return
    | Fail(failure: Failure, errorType: string)
    | Crash(redelivered: bool)

  datatype UploadStep =
    | LookUp(found: Option<JobId>)
    | Insert(id: JobId, filename: string, backend: Backend)
    | ReadRaced(found: Option<JobId>)
    | SaveRaw(path: string)
    | SaveRawFails(error: string)
    | PushUpload
    | PushUploadFails(error: string)
    | CommitQueued
    | Refuse

  datatype RequeueStep = Push | PushFails(error: string) | Apply | Drop

  datatype CleanupStep = OpenReferences | DeleteNext | DeleteFails(error: string) | CommitCleanup | Abandon

  datatype Action =
    | Tick(elapsed: nat)
    | UploadArrives(key: Option<string>)
    | RecoveryReads(id: JobId)
    | RetryReads(id: JobId)
    | CleanupPicks(id: JobId, completedAfterDays: int, failedAfterDays: int, deleteRow: bool)
    | Upload(c: nat, upload: UploadStep)
    | Requeue(c: nat, requeue: RequeueStep)
    | Cleanup(c: nat, cleanup: CleanupStep)
    | Worker(m: nat, worker: WorkerStep)

  // State updates shared by the actors

  function WithRow(s: State, id: JobId, row: Row): State {
    s.(rows := s.rows[id := Stamped(row, s.now)])
  }

  function WithCall(s: State, c: nat, call: Call): State
    requires c < |s.calls|
  {
    s.(calls := s.calls[c := call])
  }

  function WithMessage(s: State, m: nat, message: Message): State
    requires m < |s.messages|
  {
    s.(messages := s.messages[m := message])
  }

  function Began(s: State, call: Call): State {
    s.(calls := s.calls + [call])
  }

  function Enqueue(s: State, id: JobId, origin: nat, maxAttempts: int): State {
    s.(messages := s.messages + [NewMessage(id, origin, maxAttempts)])
  }

  // RQ workers (workers/video_worker.py)

  ghost predicate WorkerEnabled(s: State, m: nat, step: WorkerStep) {
    && m < |s.messages|
    && var message := s.messages[m];
       match step
       case Fetch => message.phase.Waiting? && message.left > 0
       case ClaimRow => message.phase.Fetched?
       case Download =>
         && message.phase.Running? && message.phase.stage.Started? && message.phase.backend.ObjectStorage?
         && Truthy(message.phase.raw) && ObjectRef(s.cfg.rawVideoBucket, message.phase.raw.value) in s.store
       case StoreVideo => message.phase.Running? && message.phase.stage.Downloaded?
       case StoreThumbnail => message.phase.Running? && message.phase.stage.VideoStored?
       case Complete =>
         && message.phase.Running? && message.job in s.rows
         && (message.phase.stage.ThumbnailStored?
             || (message.phase.stage.Started? && message.phase.backend.LocalStorage? && Truthy(message.phase.raw)))
       case Return => message.phase.Running? && message.phase.stage.Committed?
       case Fail(_, _) => message.phase.Running?
       case Crash(_) => message.phase.Fetched? || message.phase.Running?
  }

  function WorkerApply(s: State, m: nat, step: WorkerStep): State
    requires WorkerEnabled(s, m, step)
  {
    var message := s.messages[m];
    match step
    case Fetch => WithMessage(s, m, message.(left := message.left - 1, phase := Fetched))
    case ClaimRow =>
      if Verdict(s.rows, message.job).Claim? then
        var row := Claimed(s.rows[message.job], s.now);
        var running := Running(s.now, row.backend, RawReference(row), Started);
        WithMessage(WithRow(s, message.job, row), m, message.(claims := message.claims + 1, phase := running))
      else WithMessage(s, m, Finished(message, 1))
    case Download => WithMessage(s, m, message.(phase := message.phase.(stage := Downloaded)))
    case StoreVideo =>
      WithMessage(s.(store := s.store + {ObjectRef(s.cfg.processedVideoBucket, ProcessedObjectKey(message.job))}),
                  m, message.(phase := message.phase.(stage := VideoStored)))
    case StoreThumbnail =>
      WithMessage(s.(store := s.store + {ObjectRef(s.cfg.thumbnailBucket, ThumbnailObjectKey(message.job))}),
                  m, message.(phase := message.phase.(stage := ThumbnailStored)))
    case Complete =>
      var row := Completed(s.cfg, message.job, s.rows[message.job], message.phase.started, s.now);
      WithMessage(WithRow(s, message.job, row), m, message.(phase := message.phase.(stage := Committed)))
    case Return => WithMessage(s, m, Finished(message, 0))
    case Fail(failure, errorType) =>
      if message.job !in s.rows then WithMessage(s, m, Redelivered(message))
      else
        var row := MarkedFailed(s.rows[message.job], failure, errorType, message.phase.started, s.now);
        WithMessage(WithRow(s, message.job, row), m,
                    if ShouldRqRetry(row) then Redelivered(message) else Finished(message, 0))
    case Crash(redelivered) =>
      var unclaimed := message.(lost := message.lost + if message.phase.Fetched? then 1 else 0);
      WithMessage(s, m, if redelivered then Redelivered(unclaimed) else Finished(unclaimed, 0))
  }

  // Uploads (backend/app/api/v1/videos.py, backend/app/services/video_service.py)

  /** What a SELECT by idempotency key returns. */
  ghost predicate LookupResult(rows: Table, key: Option<string>, found: Option<JobId>) {
    match found
    case None => !KeyTaken(rows, key)
    case Some(id) => key.Some? && id in rows && rows[id].idempotencyKey == key
  }

  ghost predicate UploadEnabled(s: State, c: nat, step: UploadStep) {
    && c < |s.calls| && s.calls[c].UploadCall?
    && var key, at := s.calls[c].key, s.calls[c].at;
       match step
       case LookUp(found) => at.Received? && LookupResult(s.rows, key, found)
       case Insert(id, _, _) => at.KeyFree? && (KeyTaken(s.rows, key) || (id !in s.used && SlashFree(id)))
       case ReadRaced(found) => at.KeyRaced? && LookupResult(s.rows, key, found)
       case SaveRaw(_) => at.Inserted? && at.id in s.rows
       case SaveRawFails(_) => at.Inserted? && at.id in s.rows
       case PushUpload => at.Saved? && at.id in s.rows
       case PushUploadFails(_) => at.Saved? && at.id in s.rows
       case CommitQueued => at.Pushed? && at.id in s.rows
       case Refuse => !at.Answered? && !at.Refused?
  }

  function UploadApply(s: State, c: nat, step: UploadStep): State
    requires UploadEnabled(s, c, step)
  {
    var key, at := s.calls[c].key, s.calls[c].at;
    match step
    case LookUp(found) => WithCall(s, c, UploadCall(key, if found.Some? then Answered(found.value) else KeyFree))
    case Insert(id, filename, backend) =>
      if KeyTaken(s.rows, key) then WithCall(s, c, UploadCall(key, KeyRaced))
      else
        WithCall(s.(rows := s.rows[id := NewRow(s.cfg, id, key, filename, backend, s.now)], used := s.used + {id}),
                 c, UploadCall(key, Inserted(id)))
    case ReadRaced(found) =>
      var answer := if found.Some? && !QueueWasUnavailable(s.rows[found.value]) then Answered(found.value) else Refused;
      WithCall(s, c, UploadCall(key, answer))
    case SaveRaw(path) =>
      var row := s.rows[at.id];
      if row.backend.LocalStorage? then
        WithCall(WithRow(s, at.id, RawSaved(row, path)), c, UploadCall(key, Saved(at.id)))
      else
        var rawObject := ObjectRef(s.cfg.rawVideoBucket, RawObjectKey(at.id, row.originalFilename));
        WithCall(s.(store := s.store + {rawObject}), c, UploadCall(key, Saved(at.id)))
    case SaveRawFails(error) =>
      var row := s.rows[at.id];
      if row.backend.LocalStorage? then WithCall(s, c, UploadCall(key, Refused))
      else
        WithCall(WithRow(s, at.id, UploadFailed(row, OBJECT_UPLOAD_FAILED + error)), c,
                 UploadCall(key, Answered(at.id)))
    case PushUpload =>
      WithCall(Enqueue(s, at.id, c, s.rows[at.id].maxAttempts), c, UploadCall(key, Pushed(at.id, |s.messages|)))
    case PushUploadFails(error) =>
      WithCall(WithRow(s, at.id, UploadFailed(s.rows[at.id], ENQUEUE_FAILED + error)), c, UploadCall(key, Refused))
    case CommitQueued =>
      WithCall(WithRow(s, at.id, Queued(s.rows[at.id], at.message)), c, UploadCall(key, Answered(at.id)))
    case Refuse => WithCall(s, c, UploadCall(key, Refused))
  }

  // Recovery and manual retry (backend/app/services/job_recovery_service.py, job_service.py)

  /** A recovery pass may reach any row that is PROCESSING or QUEUED by then: the pass rechecks only the status. */
  ghost predicate RecoveryReadsEnabled(s: State, id: JobId) {
    id in s.rows && (s.rows[id].status.PROCESSING? || s.rows[id].status.QUEUED?)
  }

  function RecoveryReadsApply(s: State, id: JobId): State
    requires RecoveryReadsEnabled(s, id)
  {
    var row := s.rows[id];
    if ShouldFailStuckJob(row) then WithRow(s, id, RecoveryFailed(row, TIMEOUT_MESSAGE, s.now))
    else Began(s, RequeueCall(id, row.maxAttempts, RecoveryRead(row.attemptCount, row.status.PROCESSING?), Decided))
  }

  ghost predicate RetryReadsEnabled(s: State, id: JobId) {
    id in s.rows && s.rows[id].status.FAILED?
  }

  function RetryReadsApply(s: State, id: JobId): State
    requires RetryReadsEnabled(s, id)
  {
    Began(s, RequeueCall(id, s.rows[id].maxAttempts, RetryRead(s.rows[id].retries.manualCount), Decided))
  }

  ghost predicate RequeueEnabled(s: State, c: nat, step: RequeueStep) {
    && c < |s.calls| && s.calls[c].RequeueCall?
    && var call := s.calls[c];
       match step
       case Push => call.stage.Decided?
       case PushFails(_) => call.stage.Decided? && (call.source.RecoveryRead? ==> call.job in s.rows)
       case Apply => call.stage.Enqueued? && call.job in s.rows
       case Drop => call.stage.Decided? || call.stage.Enqueued?
  }

  function RequeuedRow(row: Row, source: Source, message: nat, now: int): Row {
    match source
    case RecoveryRead(_, _) => ResetForRequeue(row).(queueJobId := Some(message))
    case RetryRead(countRead) => ManuallyRetried(row, countRead, message, now)
  }

  /** A failing enqueue makes a recovery mark the row failed; a manual retry only reports it. */
  function RequeueApply(s: State, c: nat, step: RequeueStep): State
    requires RequeueEnabled(s, c, step)
  {
    var call := s.calls[c];
    match step
    case Push => WithCall(Enqueue(s, call.job, c, call.maxRead), c, call.(stage := Enqueued(|s.messages|)))
    case PushFails(error) =>
      var dropped := WithCall(s, c, call.(stage := Dropped));
      if call.source.RetryRead? then dropped
      else WithRow(dropped, call.job, RecoveryFailed(s.rows[call.job], "recovery_enqueue_failed: " + error, s.now))
    case Apply =>
      WithCall(WithRow(s, call.job, RequeuedRow(s.rows[call.job], call.source, call.stage.message, s.now)), c,
               call.(stage := Applied(call.stage.message)))
    case Drop => WithCall(s, c, call.(stage := Dropped))
  }

  // Cleanup (backend/app/services/job_cleanup_service.py)

  ghost predicate CleanupPicksEnabled(s: State, id: JobId, completedAfterDays: int, failedAfterDays: int) {
    id in s.rows && IsCleanupCandidate(s.rows[id], s.now, completedAfterDays, failedAfterDays)
  }

  ghost predicate CleanupEnabled(s: State, c: nat, step: CleanupStep) {
    && c < |s.calls| && s.calls[c].CleanupCall?
    && var job, progress := s.calls[c].target, s.calls[c].progress;
       match step
       case OpenReferences => progress.Picked? && job in s.rows
       case DeleteNext => progress.Deleting? && progress.pending != []
       case DeleteFails(_) => progress.Deleting? && progress.pending != [] && job in s.rows
       case CommitCleanup => progress.Deleting? && progress.pending == [] && job in s.rows
       case Abandon => !progress.CleanupOver?
  }

  function CleanupApply(s: State, c: nat, step: CleanupStep): State
    requires CleanupEnabled(s, c, step)
  {
    var call := s.calls[c];
    match step
    case OpenReferences =>
      var refs := ObjectReferences(s.cfg, s.rows[call.target]);
      WithCall(s, c, call.(progress := Deleting(refs, refs)))
    case DeleteNext =>
      WithCall(s.(store := s.store - {call.progress.pending[0]}), c,
               call.(progress := Deleting(call.progress.refs, call.progress.pending[1..])))
    case DeleteFails(error) =>
      WithCall(WithRow(s, call.target, CleanupFailed(s.rows[call.target], error)), c, call.(progress := CleanupOver))
    case CommitCleanup =>
      var over := WithCall(s, c, call.(progress := CleanupOver));
      if call.deleteRow then over.(rows := s.rows - {call.target})
      else WithRow(over, call.target, CleanedUp(s.rows[call.target], s.now))
    case Abandon => WithCall(s, c, call.(progress := CleanupOver))
  }

  // The system

  ghost predicate Enabled(s: State, a: Action) {
    match a
    case Tick(_) => true
    case UploadArrives(_) => true
    case RecoveryReads(id) => RecoveryReadsEnabled(s, id)
    case RetryReads(id) => RetryReadsEnabled(s, id)
    case CleanupPicks(id, completedAfterDays, failedAfterDays, _) =>
      CleanupPicksEnabled(s, id, completedAfterDays, failedAfterDays)
    case Upload(c, step) => UploadEnabled(s, c, step)
    case Requeue(c, step) => RequeueEnabled(s, c, step)
    case Cleanup(c, step) => CleanupEnabled(s, c, step)
    case Worker(m, step) => WorkerEnabled(s, m, step)
  }

  function Next(s: State, a: Action): State
    requires Enabled(s, a)
  {
    match a
    case Tick(elapsed) => s.(now := s.now + elapsed)
    case UploadArrives(key) => Began(s, UploadCall(key, Received))
    case RecoveryReads(id) => RecoveryReadsApply(s, id)
    case RetryReads(id) => RetryReadsApply(s, id)
    case CleanupPicks(id, _, _, deleteRow) => Began(s, CleanupCall(id, deleteRow, Picked))
    case Upload(c, step) => UploadApply(s, c, step)
    case Requeue(c, step) => RequeueApply(s, c, step)
    case Cleanup(c, step) => CleanupApply(s, c, step)
    case Worker(m, step) => WorkerApply(s, m, step)
  }

  ghost predicate Valid(s: State, actions: seq<Action>)
    decreases |actions|
  {
    actions == [] || (Enabled(s, actions[0]) && Valid(Next(s, actions[0]), actions[1..]))
  }

  ghost function Exec(s: State, actions: seq<Action>): State
    requires Valid(s, actions)
    decreases |actions|
  {
    if actions == [] then s else Exec(Next(s, actions[0]), actions[1..])
  }
}
