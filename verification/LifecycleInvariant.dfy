/** What every reachable state of the lifecycle keeps. */
module LifecycleInvariant {
  import opened Common
  import opened CleanupRules
  import opened ErrorMessages
  import opened JobRecovery
  import opened Lifecycle
  import opened ObjectKeys
  import opened RedisQueue
  import opened VideoJobs
  import opened VideoUpload
  import opened VideoWorker

  // Rows

  /** The status columns of one row agree with one another. */
  ghost predicate Coherent(row: Row) {
    && row.maxAttempts >= 1
    && (row.status.UPLOADED? ==> row.attemptCount == 0 && row.failure == NO_FAILURE && row.retries.manualCount == 0)
    && (row.status.PROCESSING? ==> row.attemptCount >= 1 && row.timing.startedAt.Some?)
    && (row.status.FAILED? && row.attemptCount >= row.maxAttempts ==> row.failure.retryExhausted)
    && (row.status.FAILED? && row.failure.retryExhausted ==> row.failure.failedAt.Some?)
    && (row.status.COMPLETED? ==> row.failure == NO_FAILURE && row.timing.completedAt.Some?)
  }

  ghost predicate AbsentOr(column: Option<string>, value: string) {
    column.None? || column == Some(value)
  }

  /** An object-storage row names its own artifacts, and a COMPLETED one that was not cleaned names all of them. */
  ghost predicate KeysOk(id: JobId, row: Row) {
    && AbsentOr(row.raw.objectKey, RawObjectKey(id, row.originalFilename))
    && AbsentOr(row.outputs.processedObjectKey, ProcessedObjectKey(id))
    && AbsentOr(row.outputs.thumbnailObjectKey, ThumbnailObjectKey(id))
    && (row.backend.ObjectStorage? && row.cleanup.cleanedUpAt.None? ==> row.raw.objectKey.Some?)
    && (row.backend.ObjectStorage? && row.cleanup.cleanedUpAt.None? && row.status.COMPLETED? ==>
          row.outputs.processedObjectKey.Some? && row.outputs.thumbnailObjectKey.Some?)
  }

  ghost predicate RowOk(id: JobId, row: Row) {
    Coherent(row) && KeysOk(id, row)
  }

  /** Columns no actor ever changes, and the status no actor ever restores. */
  ghost predicate SameRow(before: Row, after: Row) {
    && after.idempotencyKey == before.idempotencyKey && after.originalFilename == before.originalFilename
    && after.backend == before.backend && after.maxAttempts == before.maxAttempts
    && (after.status.UPLOADED? ==> before.status.UPLOADED?)
  }

  lemma RunsKeepRow(cfg: Settings, id: JobId, row: Row, failure: Failure, text: string, started: int, now: int)
    requires RowOk(id, row)
    ensures RowOk(id, Claimed(row, now)) && SameRow(row, Claimed(row, now))
    ensures RowOk(id, Completed(cfg, id, row, started, now)) && SameRow(row, Completed(cfg, id, row, started, now))
    ensures RowOk(id, MarkedFailed(row, failure, text, started, now))
    ensures SameRow(row, MarkedFailed(row, failure, text, started, now))
  {
  }

  lemma CallsKeepRow(id: JobId, row: Row, text: string, now: int, message: nat, source: Source)
    requires RowOk(id, row)
    ensures RowOk(id, RecoveryFailed(row, text, now)) && SameRow(row, RecoveryFailed(row, text, now))
    ensures RowOk(id, RequeuedRow(row, source, message, now)) && SameRow(row, RequeuedRow(row, source, message, now))
    ensures RowOk(id, Queued(row, message)) && SameRow(row, Queued(row, message))
    ensures RowOk(id, RawSaved(row, text)) && SameRow(row, RawSaved(row, text))
    ensures RowOk(id, CleanedUp(row, now)) && SameRow(row, CleanedUp(row, now))
    ensures RowOk(id, CleanupFailed(row, text)) && SameRow(row, CleanupFailed(row, text))
    ensures row.status.UPLOADED? ==> RowOk(id, UploadFailed(row, text)) && SameRow(row, UploadFailed(row, text))
  {
  }

  // Messages

  /** Every delivery of a message's budget is still due, under way, became a claim, or was lost. */
  ghost predicate Balanced(message: Message) {
    && message.claims + message.lost + message.left + (if message.phase.Fetched? then 1 else 0) == message.budget
    && (message.phase.Waiting? ==> message.left > 0)
    && (message.phase.Done? ==> message.left == 0)
    && (message.phase.Running? ==> message.claims > 0)
  }

  ghost predicate Names(messages: seq<Message>, m: nat, id: JobId) {
    m < |messages| && messages[m].job == id
  }

  ghost predicate MessageOk(s: State, message: Message) {
    && Balanced(message)
    && message.job in s.used && message.origin < |s.calls| && !s.calls[message.origin].CleanupCall?
    && (message.job in s.rows ==> message.budget == Deliveries(s.rows[message.job].maxAttempts))
  }

  // Calls

  /** A row between its insert and its enqueue: nobody but the upload that inserted it knows of it. */
  ghost predicate Pristine(s: State, id: JobId) {
    && id in s.rows && s.rows[id].status.UPLOADED?
    && forall m | 0 <= m < |s.messages| :: s.messages[m].job != id
  }

  ghost predicate KeyKept(s: State, id: JobId, key: Option<string>) {
    id in s.used && (id in s.rows && key.Some? ==> s.rows[id].idempotencyKey == key)
  }

  ghost predicate Pushing(messages: seq<Message>, m: nat, id: JobId, c: nat) {
    Names(messages, m, id) && messages[m].origin == c
  }

  ghost predicate Holds(call: Call, id: JobId) {
    call.UploadCall? && (call.at == Inserted(id) || call.at == Saved(id))
  }

  ghost predicate PastUpload(s: State, id: JobId) {
    id in s.used && (id in s.rows ==> !s.rows[id].status.UPLOADED?)
  }

  ghost predicate CallOk(s: State, c: nat)
    requires c < |s.calls|
  {
    match s.calls[c]
    case UploadCall(key, Inserted(id)) => Pristine(s, id) && KeyKept(s, id, key)
    case UploadCall(key, Saved(id)) => Pristine(s, id) && KeyKept(s, id, key)
    case UploadCall(key, Pushed(id, m)) => Pushing(s.messages, m, id, c) && KeyKept(s, id, key)
    case UploadCall(key, Answered(id)) => KeyKept(s, id, key)
    case UploadCall(_, _) => true
    case RequeueCall(id, maxRead, _, stage) =>
      && PastUpload(s, id) && (id in s.rows ==> maxRead == s.rows[id].maxAttempts)
      && (stage.Enqueued? ==> Pushing(s.messages, stage.message, id, c))
      && (stage.Applied? ==> Pushing(s.messages, stage.message, id, c))
    case CleanupCall(id, _, progress) =>
      PastUpload(s, id) && (progress.Deleting? ==> forall ref <- progress.pending :: OwnKey(id, ref.key))
  }

  // The invariant

  ghost predicate TableOk(rows: Table, used: set<JobId>) {
    && (forall id <- used :: SlashFree(id))
    && (forall id <- rows :: id in used && RowOk(id, rows[id]))
  }

  ghost predicate RowsOk(s: State) {
    TableOk(s.rows, s.used)
  }

  ghost predicate MessagesOk(s: State) {
    forall m | 0 <= m < |s.messages| :: MessageOk(s, s.messages[m])
  }

  ghost predicate CallsOk(s: State) {
    && (forall c | 0 <= c < |s.calls| :: CallOk(s, c))
    && (forall c, d, id | 0 <= c < d < |s.calls| && Holds(s.calls[c], id) :: !Holds(s.calls[d], id))
  }

  /** A QUEUED row names a message that was really enqueued for its job. */
  ghost predicate QueuedIsNamed(s: State) {
    forall id <- s.rows :: s.rows[id].status.QUEUED? ==>
      s.rows[id].queueJobId.Some? && Names(s.messages, s.rows[id].queueJobId.value, id)
  }

  ghost predicate Inv(s: State) {
    RowsOk(s) && MessagesOk(s) && CallsOk(s) && QueuedIsNamed(s) && KeysUnique(s.rows)
  }

  // What an action leaves alone

  ghost predicate SameMessage(before: Message, after: Message) {
    after.job == before.job && after.origin == before.origin && after.budget == before.budget
  }

  ghost predicate SameCall(before: Call, after: Call) {
    match before
    case UploadCall(key, _) => after.UploadCall? && after.key == key
    case RequeueCall(job, maxRead, source, _) =>
      after.RequeueCall? && after.job == job && after.maxRead == maxRead && after.source == source
    case CleanupCall(target, deleteRow, _) =>
      after.CleanupCall? && after.target == target && after.deleteRow == deleteRow
  }

  /** Messages and calls keep their identity, ids are not reused, and surviving rows keep their fixed columns. */
  ghost predicate Frame(s: State, s': State) {
    && s'.cfg == s.cfg && s.used <= s'.used && s.now <= s'.now
    && |s.messages| <= |s'.messages|
    && (forall m | 0 <= m < |s.messages| :: SameMessage(s.messages[m], s'.messages[m]))
    && |s.calls| <= |s'.calls|
    && (forall c | 0 <= c < |s.calls| :: SameCall(s.calls[c], s'.calls[c]))
    && (forall id <- s'.rows :: if id in s.rows then SameRow(s.rows[id], s'.rows[id]) else id !in s.used)
  }

  lemma WorkerFrames(s: State, m: nat, step: WorkerStep)
    requires WorkerEnabled(s, m, step)
    ensures Frame(s, WorkerApply(s, m, step))
  {
  }

  /** An upload step changes one call and one row, and pushes at most one message. */
  lemma UploadTouches(s: State, c: nat, step: UploadStep)
    requires UploadEnabled(s, c, step) && s.rows.Keys <= s.used
    ensures var s' := UploadApply(s, c, step);
            && s'.cfg == s.cfg && s'.now == s.now && s.used <= s'.used && |s'.calls| == |s.calls|
            && s'.calls == s.calls[c := s'.calls[c]] && SameCall(s.calls[c], s'.calls[c])
            && (s'.messages == s.messages
                || (|s'.messages| == |s.messages| + 1 && s'.messages[..|s.messages|] == s.messages))
  {
  }

  lemma UploadKeepsFixedColumns(s: State, c: nat, step: UploadStep, id: JobId)
    requires UploadEnabled(s, c, step) && s.rows.Keys <= s.used && id in UploadApply(s, c, step).rows
    ensures if id in s.rows then SameRow(s.rows[id], UploadApply(s, c, step).rows[id]) else id !in s.used
  {
  }

  lemma UploadFrames(s: State, c: nat, step: UploadStep)
    requires UploadEnabled(s, c, step) && s.rows.Keys <= s.used
    ensures Frame(s, UploadApply(s, c, step))
  {
    var s' := UploadApply(s, c, step);
    UploadTouches(s, c, step);
    forall m | 0 <= m < |s.messages| ensures SameMessage(s.messages[m], s'.messages[m]) {
      assert s'.messages[..|s.messages|][m] == s.messages[m];
    }
    forall id <- s'.rows ensures if id in s.rows then SameRow(s.rows[id], s'.rows[id]) else id !in s.used {
      UploadKeepsFixedColumns(s, c, step, id);
    }
  }

  lemma RequeueFrames(s: State, c: nat, step: RequeueStep)
    requires RequeueEnabled(s, c, step)
    ensures Frame(s, RequeueApply(s, c, step))
  {
  }

  lemma CleanupFrames(s: State, c: nat, step: CleanupStep)
    requires CleanupEnabled(s, c, step)
    ensures Frame(s, CleanupApply(s, c, step))
  {
  }

  lemma NextFrames(s: State, a: Action)
    requires Enabled(s, a) && s.rows.Keys <= s.used
    ensures Frame(s, Next(s, a))
  {
    match a
    case Upload(c, step) => UploadFrames(s, c, step);
    case Requeue(c, step) => RequeueFrames(s, c, step);
    case Cleanup(c, step) => CleanupFrames(s, c, step);
    case Worker(m, step) => WorkerFrames(s, m, step);
    case _ =>
  }

  // Each part of the invariant, actor by actor

  lemma RowChanges(rows: Table, used: set<JobId>, id: JobId, row: Row, now: int)
    requires TableOk(rows, used) && id in rows && RowOk(id, row)
    ensures TableOk(rows[id := Stamped(row, now)], used)
  {
  }

  lemma WorkerKeepsRows(s: State, m: nat, step: WorkerStep)
    requires WorkerEnabled(s, m, step) && RowsOk(s)
    ensures RowsOk(WorkerApply(s, m, step))
  {
    var message := s.messages[m];
    var id := message.job;
    if id in s.rows {
      var row := s.rows[id];
      var started := if message.phase.Running? then message.phase.started else 0;
      var failure := if step.Fail? then step.failure else OtherError("");
      var text := if step.Fail? then step.errorType else "";
      RunsKeepRow(s.cfg, id, row, failure, text, started, s.now);
      RowChanges(s.rows, s.used, id, Claimed(row, s.now), s.now);
      RowChanges(s.rows, s.used, id, Completed(s.cfg, id, row, started, s.now), s.now);
      RowChanges(s.rows, s.used, id, MarkedFailed(row, failure, text, started, s.now), s.now);
    }
  }

  lemma NewRowIsOk(cfg: Settings, id: JobId, key: Option<string>, filename: string, backend: Backend, now: int)
    ensures RowOk(id, NewRow(cfg, id, key, filename, backend, now))
  {
  }

  lemma UploadChanges(rows: Table, used: set<JobId>, id: JobId, text: string, message: nat, now: int)
    requires TableOk(rows, used) && id in rows
    ensures TableOk(rows[id := Stamped(RawSaved(rows[id], text), now)], used)
    ensures TableOk(rows[id := Stamped(Queued(rows[id], message), now)], used)
    ensures rows[id].status.UPLOADED? ==> TableOk(rows[id := Stamped(UploadFailed(rows[id], text), now)], used)
  {
    var row := rows[id];
    RowChanges(rows, used, id, RawSaved(row, text), now);
    RowChanges(rows, used, id, Queued(row, message), now);
    if row.status.UPLOADED? {
      RowChanges(rows, used, id, UploadFailed(row, text), now);
    }
  }

  lemma UploadKeepsRows(s: State, c: nat, step: UploadStep)
    requires UploadEnabled(s, c, step) && RowsOk(s) && CallsOk(s)
    ensures RowsOk(UploadApply(s, c, step))
  {
    var at := s.calls[c].at;
    assert CallOk(s, c);
    match step
    case Insert(id, filename, backend) =>
      NewRowIsOk(s.cfg, id, s.calls[c].key, filename, backend, s.now);
    case SaveRaw(path) => UploadChanges(s.rows, s.used, at.id, path, 0, s.now);
    case SaveRawFails(error) => UploadChanges(s.rows, s.used, at.id, OBJECT_UPLOAD_FAILED + error, 0, s.now);
    case PushUploadFails(error) => UploadChanges(s.rows, s.used, at.id, ENQUEUE_FAILED + error, 0, s.now);
    case CommitQueued => UploadChanges(s.rows, s.used, at.id, "", at.message, s.now);
    case _ =>
  }

  lemma RequeueKeepsRows(s: State, c: nat, step: RequeueStep)
    requires RequeueEnabled(s, c, step) && RowsOk(s)
    ensures RowsOk(RequeueApply(s, c, step))
  {
    var call := s.calls[c];
    match step
    case PushFails(error) =>
      if call.source.RecoveryRead? {
        var text := "recovery_enqueue_failed: " + error;
        CallsKeepRow(call.job, s.rows[call.job], text, s.now, 0, call.source);
        RowChanges(s.rows, s.used, call.job, RecoveryFailed(s.rows[call.job], text, s.now), s.now);
      }
    case Apply =>
      CallsKeepRow(call.job, s.rows[call.job], "", s.now, call.stage.message, call.source);
      var requeued := RequeuedRow(s.rows[call.job], call.source, call.stage.message, s.now);
      RowChanges(s.rows, s.used, call.job, requeued, s.now);
    case _ =>
  }

  lemma RecoveryReadsKeepsRows(s: State, id: JobId)
    requires RecoveryReadsEnabled(s, id) && RowsOk(s)
    ensures RowsOk(RecoveryReadsApply(s, id))
  {
    CallsKeepRow(id, s.rows[id], TIMEOUT_MESSAGE, s.now, 0, RetryRead(0));
    RowChanges(s.rows, s.used, id, RecoveryFailed(s.rows[id], TIMEOUT_MESSAGE, s.now), s.now);
  }

  lemma CleanupKeepsRows(s: State, c: nat, step: CleanupStep)
    requires CleanupEnabled(s, c, step) && RowsOk(s)
    ensures RowsOk(CleanupApply(s, c, step))
  {
    var id := s.calls[c].target;
    match step
    case DeleteFails(error) =>
      CallsKeepRow(id, s.rows[id], error, s.now, 0, RetryRead(0));
      RowChanges(s.rows, s.used, id, CleanupFailed(s.rows[id], error), s.now);
    case CommitCleanup =>
      CallsKeepRow(id, s.rows[id], "", s.now, 0, RetryRead(0));
      RowChanges(s.rows, s.used, id, CleanedUp(s.rows[id], s.now), s.now);
    case _ =>
  }

  lemma NextKeepsRows(s: State, a: Action)
    requires Enabled(s, a) && RowsOk(s) && CallsOk(s)
    ensures RowsOk(Next(s, a))
  {
    match a
    case Upload(c, step) => UploadKeepsRows(s, c, step);
    case Requeue(c, step) => RequeueKeepsRows(s, c, step);
    case Cleanup(c, step) => CleanupKeepsRows(s, c, step);
    case Worker(m, step) => WorkerKeepsRows(s, m, step);
    case RecoveryReads(id) => RecoveryReadsKeepsRows(s, id);
    case _ =>
  }

  lemma WorkerKeepsBalance(s: State, m: nat, step: WorkerStep)
    requires WorkerEnabled(s, m, step) && Balanced(s.messages[m])
    ensures Balanced(WorkerApply(s, m, step).messages[m])
    ensures forall k | 0 <= k < |s.messages| && k != m :: WorkerApply(s, m, step).messages[k] == s.messages[k]
    ensures |WorkerApply(s, m, step).messages| == |s.messages|
  {
  }

  lemma MessageStays(s: State, s': State, m: nat)
    requires Frame(s, s') && m < |s.messages| && MessageOk(s, s.messages[m]) && Balanced(s'.messages[m])
    ensures MessageOk(s', s'.messages[m])
  {
    assert SameMessage(s.messages[m], s'.messages[m]);
    assert SameCall(s.calls[s.messages[m].origin], s'.calls[s.messages[m].origin]);
  }

  lemma WorkerKeepsMessages(s: State, m: nat, step: WorkerStep)
    requires WorkerEnabled(s, m, step) && MessagesOk(s)
    ensures MessagesOk(WorkerApply(s, m, step))
  {
    var s' := WorkerApply(s, m, step);
    assert MessageOk(s, s.messages[m]);
    WorkerFrames(s, m, step);
    WorkerKeepsBalance(s, m, step);
    forall k | 0 <= k < |s'.messages| ensures MessageOk(s', s'.messages[k]) {
      assert MessageOk(s, s.messages[k]);
      MessageStays(s, s', k);
    }
  }

  lemma UploadKeepsMessages(s: State, c: nat, step: UploadStep)
    requires UploadEnabled(s, c, step) && MessagesOk(s) && s.rows.Keys <= s.used
    ensures MessagesOk(UploadApply(s, c, step))
  {
  }

  lemma RequeueKeepsMessages(s: State, c: nat, step: RequeueStep)
    requires RequeueEnabled(s, c, step) && MessagesOk(s) && CallOk(s, c)
    ensures MessagesOk(RequeueApply(s, c, step))
  {
  }

  lemma CleanupKeepsMessages(s: State, c: nat, step: CleanupStep)
    requires CleanupEnabled(s, c, step) && MessagesOk(s)
    ensures MessagesOk(CleanupApply(s, c, step))
  {
  }

  lemma NextKeepsMessages(s: State, a: Action)
    requires Enabled(s, a) && MessagesOk(s) && CallsOk(s) && s.rows.Keys <= s.used
    ensures MessagesOk(Next(s, a))
  {
    match a
    case Upload(c, step) => UploadKeepsMessages(s, c, step);
    case Requeue(c, step) => RequeueKeepsMessages(s, c, step);
    case Cleanup(c, step) => CleanupKeepsMessages(s, c, step);
    case Worker(m, step) => WorkerKeepsMessages(s, m, step);
    case _ =>
  }

  /** A call that did not move stays in order while its own row, if it still holds one, is left alone. */
  lemma CallStays(s: State, s': State, c: nat)
    requires c < |s.calls| && Frame(s, s') && s'.calls[c] == s.calls[c] && CallOk(s, c)
    requires forall id :: Holds(s.calls[c], id) ==> Pristine(s', id)
    ensures CallOk(s', c)
  {
    match s.calls[c]
    case UploadCall(_, Inserted(id)) => assert Holds(s.calls[c], id);
    case UploadCall(_, Saved(id)) => assert Holds(s.calls[c], id);
    case UploadCall(_, Pushed(_, m)) => assert SameMessage(s.messages[m], s'.messages[m]);
    case RequeueCall(_, _, _, Enqueued(m)) => assert SameMessage(s.messages[m], s'.messages[m]);
    case RequeueCall(_, _, _, Applied(m)) => assert SameMessage(s.messages[m], s'.messages[m]);
    case _ =>
  }

  lemma CallsStay(s: State, s': State, moved: nat)
    requires Frame(s, s') && CallsOk(s) && |s'.calls| <= |s.calls| + 1
    requires forall c | 0 <= c < |s.calls| && c != moved :: s'.calls[c] == s.calls[c]
    requires forall c, id | 0 <= c < |s.calls| && c != moved && Holds(s.calls[c], id) :: Pristine(s', id)
    requires moved < |s'.calls| ==> CallOk(s', moved)
    requires |s'.calls| > |s.calls| ==> moved == |s.calls|
    requires forall c, id | 0 <= c < |s.calls| && c != moved && Holds(s.calls[c], id) ::
      moved < |s'.calls| ==> !Holds(s'.calls[moved], id)
    ensures CallsOk(s')
  {
    forall c | 0 <= c < |s'.calls| && c != moved
      ensures CallOk(s', c)
    {
      CallStays(s, s', c);
    }
  }

  lemma HoldsIsPristine(s: State, c: nat, id: JobId)
    requires CallsOk(s) && c < |s.calls| && Holds(s.calls[c], id)
    ensures Pristine(s, id)
  {
    assert CallOk(s, c);
  }

  lemma WorkerKeepsCalls(s: State, m: nat, step: WorkerStep)
    requires WorkerEnabled(s, m, step) && CallsOk(s)
    ensures CallsOk(WorkerApply(s, m, step))
  {
    var s' := WorkerApply(s, m, step);
    WorkerFrames(s, m, step);
    forall c, id | 0 <= c < |s.calls| && Holds(s.calls[c], id)
      ensures Pristine(s', id)
    {
      HoldsIsPristine(s, c, id);
      assert s'.rows[id] == s.rows[id];
      assert forall k | 0 <= k < |s'.messages| :: s'.messages[k].job == s.messages[k].job;
    }
    CallsStay(s, s', |s.calls|);
  }

  lemma RequeueKeepsCalls(s: State, c: nat, step: RequeueStep)
    requires RequeueEnabled(s, c, step) && CallsOk(s)
    ensures CallsOk(RequeueApply(s, c, step))
  {
    var s' := RequeueApply(s, c, step);
    var job := s.calls[c].job;
    RequeueFrames(s, c, step);
    assert CallOk(s, c);
    forall d, id | 0 <= d < |s.calls| && Holds(s.calls[d], id)
      ensures Pristine(s', id)
    {
      HoldsIsPristine(s, d, id);
      assert id != job;
    }
    var call := s.calls[c];
    assert call.stage.Enqueued? ==> SameMessage(s.messages[call.stage.message], s'.messages[call.stage.message]);
    CallsStay(s, s', c);
  }

  lemma ReferencesAreOwn(cfg: Settings, id: JobId, row: Row)
    requires KeysOk(id, row)
    ensures forall ref <- ObjectReferences(cfg, row) :: OwnKey(id, ref.key)
  {
    KeysAreOwn(id, row.originalFilename);
  }

  lemma CleanupKeepsCalls(s: State, c: nat, step: CleanupStep)
    requires CleanupEnabled(s, c, step) && CallsOk(s)
    requires s.calls[c].target in s.rows ==> KeysOk(s.calls[c].target, s.rows[s.calls[c].target])
    ensures CallsOk(CleanupApply(s, c, step))
  {
    var s' := CleanupApply(s, c, step);
    var target := s.calls[c].target;
    CleanupFrames(s, c, step);
    assert CallOk(s, c);
    if step.OpenReferences? {
      ReferencesAreOwn(s.cfg, target, s.rows[target]);
    }
    forall d, id | 0 <= d < |s.calls| && Holds(s.calls[d], id)
      ensures Pristine(s', id)
    {
      HoldsIsPristine(s, d, id);
      assert id != target;
    }
    CallsStay(s, s', c);
  }

  lemma UploadKeepsCalls(s: State, c: nat, step: UploadStep)
    requires UploadEnabled(s, c, step) && CallsOk(s) && s.rows.Keys <= s.used
    requires forall m | 0 <= m < |s.messages| :: s.messages[m].job in s.used
    ensures CallsOk(UploadApply(s, c, step))
  {
    var s' := UploadApply(s, c, step);
    UploadFrames(s, c, step);
    assert CallOk(s, c);
    forall d, id | 0 <= d < |s.calls| && d != c && Holds(s.calls[d], id)
      ensures Pristine(s', id) && !Holds(s'.calls[c], id)
    {
      HoldsIsPristine(s, d, id);
      assert !Holds(s.calls[c], id);
    }
    CallsStay(s, s', c);
  }

  lemma BeganKeepsCalls(s: State, call: Call)
    requires CallsOk(s) && CallOk(Began(s, call), |s.calls|) && forall id :: !Holds(call, id)
    ensures CallsOk(Began(s, call))
  {
    forall d, id | 0 <= d < |s.calls| && Holds(s.calls[d], id)
      ensures Pristine(Began(s, call), id)
    {
      HoldsIsPristine(s, d, id);
    }
    CallsStay(s, Began(s, call), |s.calls|);
  }

  lemma RecoveryReadsKeepsCalls(s: State, id: JobId)
    requires RecoveryReadsEnabled(s, id) && CallsOk(s) && s.rows.Keys <= s.used
    ensures CallsOk(RecoveryReadsApply(s, id))
  {
    var row := s.rows[id];
    if ShouldFailStuckJob(row) {
      var s' := RecoveryReadsApply(s, id);
      NextFrames(s, RecoveryReads(id));
      forall d, other | 0 <= d < |s.calls| && Holds(s.calls[d], other)
        ensures Pristine(s', other)
      {
        HoldsIsPristine(s, d, other);
      }
      CallsStay(s, s', |s.calls|);
    } else {
      var source := RecoveryRead(row.attemptCount, row.status.PROCESSING?);
      BeganKeepsCalls(s, RequeueCall(id, row.maxAttempts, source, Decided));
    }
  }

  lemma NextKeepsCalls(s: State, a: Action)
    requires Enabled(s, a) && CallsOk(s) && s.rows.Keys <= s.used
    requires forall m | 0 <= m < |s.messages| :: s.messages[m].job in s.used
    requires forall id <- s.rows :: KeysOk(id, s.rows[id])
    ensures CallsOk(Next(s, a))
  {
    match a
    case Upload(c, step) => UploadKeepsCalls(s, c, step);
    case Requeue(c, step) => RequeueKeepsCalls(s, c, step);
    case Cleanup(c, step) => CleanupKeepsCalls(s, c, step);
    case Worker(m, step) => WorkerKeepsCalls(s, m, step);
    case RecoveryReads(id) => RecoveryReadsKeepsCalls(s, id);
    case UploadArrives(key) => BeganKeepsCalls(s, UploadCall(key, Received));
    case RetryReads(id) =>
      BeganKeepsCalls(s, RequeueCall(id, s.rows[id].maxAttempts, RetryRead(s.rows[id].retries.manualCount), Decided));
    case CleanupPicks(id, _, _, deleteRow) =>
      BeganKeepsCalls(s, CleanupCall(id, deleteRow, Picked));
    case Tick(elapsed) =>
      var s' := Next(s, a);
      forall d, id | 0 <= d < |s.calls| && Holds(s.calls[d], id) ensures Pristine(s', id) {
        HoldsIsPristine(s, d, id);
      }
      CallsStay(s, s', |s.calls|);
  }

  ghost predicate RowNamed(messages: seq<Message>, id: JobId, row: Row) {
    row.status.QUEUED? ==> row.queueJobId.Some? && Names(messages, row.queueJobId.value, id)
  }

  lemma NamesStay(s: State, s': State)
    requires QueuedIsNamed(s) && Frame(s, s')
    requires forall id <- s'.rows ::
      (id in s.rows && s'.rows[id].status == s.rows[id].status && s'.rows[id].queueJobId == s.rows[id].queueJobId)
      || RowNamed(s'.messages, id, s'.rows[id])
    ensures QueuedIsNamed(s')
  {
  }

  lemma WorkerKeepsNames(s: State, m: nat, step: WorkerStep)
    requires WorkerEnabled(s, m, step) && QueuedIsNamed(s)
    ensures QueuedIsNamed(WorkerApply(s, m, step))
  {
    WorkerFrames(s, m, step);
    NamesStay(s, WorkerApply(s, m, step));
  }

  lemma UploadKeepsNames(s: State, c: nat, step: UploadStep)
    requires UploadEnabled(s, c, step) && QueuedIsNamed(s) && s.rows.Keys <= s.used && CallOk(s, c)
    ensures QueuedIsNamed(UploadApply(s, c, step))
  {
    UploadFrames(s, c, step);
    NamesStay(s, UploadApply(s, c, step));
  }

  lemma RequeueKeepsNames(s: State, c: nat, step: RequeueStep)
    requires RequeueEnabled(s, c, step) && QueuedIsNamed(s) && CallOk(s, c)
    ensures QueuedIsNamed(RequeueApply(s, c, step))
  {
    RequeueFrames(s, c, step);
    NamesStay(s, RequeueApply(s, c, step));
  }

  lemma CleanupKeepsNames(s: State, c: nat, step: CleanupStep)
    requires CleanupEnabled(s, c, step) && QueuedIsNamed(s)
    ensures QueuedIsNamed(CleanupApply(s, c, step))
  {
    CleanupFrames(s, c, step);
    NamesStay(s, CleanupApply(s, c, step));
  }

  lemma NextKeepsNames(s: State, a: Action)
    requires Enabled(s, a) && QueuedIsNamed(s) && s.rows.Keys <= s.used
    requires a.Upload? ==> CallOk(s, a.c)
    requires a.Requeue? ==> CallOk(s, a.c)
    ensures QueuedIsNamed(Next(s, a))
  {
    match a
    case Upload(c, step) => UploadKeepsNames(s, c, step);
    case Requeue(c, step) => RequeueKeepsNames(s, c, step);
    case Cleanup(c, step) => CleanupKeepsNames(s, c, step);
    case Worker(m, step) => WorkerKeepsNames(s, m, step);
    case _ =>
  }

  lemma KeysStayUnique(before: Table, after: Table)
    requires KeysUnique(before)
    requires forall id <- after :: id in before && after[id].idempotencyKey == before[id].idempotencyKey
    ensures KeysUnique(after)
  {
  }

  lemma InsertedKeyIsUnique(rows: Table, id: JobId, row: Row)
    requires KeysUnique(rows) && !KeyTaken(rows, row.idempotencyKey)
    ensures KeysUnique(rows[id := row])
  {
  }

  lemma NextKeepsKeysUnique(s: State, a: Action)
    requires Enabled(s, a) && KeysUnique(s.rows) && s.rows.Keys <= s.used
    ensures KeysUnique(Next(s, a).rows)
  {
    if a.Upload? && a.upload.Insert? && !KeyTaken(s.rows, s.calls[a.c].key) {
      InsertedKeyIsUnique(s.rows, a.upload.id, Next(s, a).rows[a.upload.id]);
    } else {
      NextFrames(s, a);
      forall id <- Next(s, a).rows
        ensures id in s.rows && Next(s, a).rows[id].idempotencyKey == s.rows[id].idempotencyKey
      {
        assert id in s.rows ==> SameRow(s.rows[id], Next(s, a).rows[id]);
      }
      KeysStayUnique(s.rows, Next(s, a).rows);
    }
  }

  /** One action keeps the invariant. */
  lemma NextKeepsInv(s: State, a: Action)
    requires Enabled(s, a) && Inv(s)
    ensures Inv(Next(s, a))
  {
    NextKeepsRows(s, a);
    assert forall m | 0 <= m < |s.messages| :: MessageOk(s, s.messages[m]);
    NextKeepsMessages(s, a);
    NextKeepsCalls(s, a);
    NextKeepsNames(s, a);
    NextKeepsKeysUnique(s, a);
  }

  lemma {:induction false} ExecKeepsInv(s: State, actions: seq<Action>)
    requires Valid(s, actions) && Inv(s)
    ensures Inv(Exec(s, actions))
    decreases |actions|
  {
    if actions != [] {
      NextKeepsInv(s, actions[0]);
      ExecKeepsInv(Next(s, actions[0]), actions[1..]);
    }
  }

  /** Every run from the empty system, whatever the interleaving, crashes, stale messages and failures. */
  lemma ReachableInv(cfg: Settings, start: int, actions: seq<Action>)
    requires Valid(Init(cfg, start), actions)
    ensures Inv(Exec(Init(cfg, start), actions))
  {
    ExecKeepsInv(Init(cfg, start), actions);
  }
}
