/** Runs that show what the protocol does not promise. The exact conditions are in `AttemptLimit`,
    `QuiescentStability`, `RetryCounter`, `IdempotentUpload`, `CleanupRaces` and `CleanupProgress`. */
module Counterexamples {
  import opened BoundedRecovery
  import opened Common
  import opened CleanupRules
  import opened ErrorMessages
  import opened IdempotentUpload
  import opened Lifecycle
  import opened LifecycleInvariant
  import opened ObjectKeys
  import opened ReachableStates
  import opened RedisQueue
  import opened RetryCounter
  import opened VideoJobs
  import opened VideoUpload
  import opened VideoWorker

  const JOB := "j"

  /** The only job is in object storage, untouched by workers, with its raw file stored. */
  ghost predicate Untouched(s: State) {
    && s.rows.Keys == {JOB}
    && var row := s.rows[JOB];
       && row.attemptCount == 0 && row.maxAttempts == 3 && row.backend.ObjectStorage?
       && row.outputs == NO_OUTPUTS && row.cleanup.cleanedUpAt.None?
       && Truthy(row.raw.objectKey) && ObjectRef(s.cfg.rawVideoBucket, row.raw.objectKey.value) in s.store
  }

  lemma InsertedUpload(cfg: Settings, begin: int) returns (s: State)
    ensures Reaches(Init(cfg, begin), s) && s.cfg == cfg && s.store == {} && s.messages == []
    ensures s.rows == map[JOB := NewRow(cfg, JOB, None, "f", ObjectStorage, begin)]
    ensures s.calls == [UploadCall(None, Inserted(JOB))]
  {
    var start := Init(cfg, begin);
    ReachesItself(start);
    assert '/' !in JOB;
    s := Step(start, start, UploadArrives(None));
    s := Step(start, s, Upload(0, LookUp(None)));
    s := Step(start, s, Upload(0, Insert(JOB, "f", ObjectStorage)));
  }

  lemma SavedUpload(cfg: Settings, begin: int) returns (s: State)
    ensures Reaches(Init(cfg, begin), s) && Untouched(s) && s.rows[JOB].status.UPLOADED?
    ensures s.rows[JOB].retries.manualCount == 0 && s.messages == [] && s.calls == [UploadCall(None, Saved(JOB))]
  {
    s := InsertedUpload(cfg, begin);
    s := Step(Init(cfg, begin), s, Upload(0, SaveRaw("")));
  }

  /** An upload that has enqueued and has yet to commit QUEUED. */
  lemma PushedUpload(cfg: Settings, begin: int) returns (s: State)
    ensures Reaches(Init(cfg, begin), s) && Untouched(s) && s.rows[JOB].status.UPLOADED?
    ensures s.messages == [NewMessage(JOB, 0, 3)] && s.calls == [UploadCall(None, Pushed(JOB, 0))]
  {
    s := SavedUpload(cfg, begin);
    s := Step(Init(cfg, begin), s, Upload(0, PushUpload));
  }

  lemma QueuedUpload(cfg: Settings, begin: int) returns (s: State)
    ensures Reaches(Init(cfg, begin), s) && Untouched(s) && s.rows[JOB].status.QUEUED?
    ensures s.messages == [NewMessage(JOB, 0, 3)] && |s.calls| == 1 && s.calls[0].UploadCall?
  {
    s := PushedUpload(cfg, begin);
    s := Step(Init(cfg, begin), s, Upload(0, CommitQueued));
  }

  /** A recovery of the still QUEUED job adds a second message; the first one stays. */
  lemma DuplicateMessage(cfg: Settings, begin: int) returns (s: State)
    ensures Reaches(Init(cfg, begin), s) && Untouched(s) && s.rows[JOB].status.QUEUED?
    ensures s.messages == [NewMessage(JOB, 0, 3), NewMessage(JOB, 1, 3)]
  {
    s := QueuedUpload(cfg, begin);
    s := Step(Init(cfg, begin), s, RecoveryReads(JOB));
    s := Step(Init(cfg, begin), s, Requeue(1, Push));
    s := Step(Init(cfg, begin), s, Requeue(1, Apply));
  }

  ghost predicate Claimable(s: State, m: nat) {
    && m < |s.messages| && s.messages[m].job == JOB && s.messages[m].phase.Waiting? && s.messages[m].left > 0
    && JOB in s.rows && !s.rows[JOB].status.COMPLETED? && !s.rows[JOB].status.FAILED?
  }

  lemma Claims(start: State, s: State, m: nat) returns (next: State)
    requires Reaches(start, s) && Claimable(s, m)
    ensures Reaches(start, next)
    ensures next.rows == s.rows[JOB := Stamped(Claimed(s.rows[JOB], s.now), s.now)]
    ensures |next.messages| == |s.messages| && next.calls == s.calls && next.store == s.store && next.cfg == s.cfg
    ensures forall k | 0 <= k < |s.messages| && k != m :: next.messages[k] == s.messages[k]
    ensures next.messages[m].job == JOB && next.messages[m].left == s.messages[m].left - 1
    ensures next.messages[m].phase
            == Running(s.now, s.rows[JOB].backend, RawReference(Claimed(s.rows[JOB], s.now)), Started)
  {
    next := Step(start, s, Worker(m, Fetch));
    next := Step(start, next, Worker(m, ClaimRow));
  }

  lemma CrashedAttempt(start: State, s: State, m: nat) returns (next: State)
    requires Reaches(start, s) && Claimable(s, m)
    ensures Reaches(start, next)
    ensures next.rows == s.rows[JOB := Stamped(Claimed(s.rows[JOB], s.now), s.now)]
    ensures |next.messages| == |s.messages| && next.messages[m].job == JOB
    ensures forall k | 0 <= k < |s.messages| && k != m :: next.messages[k] == s.messages[k]
    ensures next.messages[m].left == s.messages[m].left - 1
    ensures next.messages[m].left > 0 ==> next.messages[m].phase.Waiting?
  {
    next := Claims(start, s, m);
    next := Step(start, next, Worker(m, Crash(true)));
  }

  /** A run that has claimed the job and finds everything it needs. */
  lemma SuccessfulRun(start: State, s: State, m: nat) returns (next: State)
    requires Reaches(start, s) && m < |s.messages| && s.messages[m].job == JOB && s.rows.Keys == {JOB}
    requires s.messages[m].phase.Running? && s.messages[m].phase.stage.Started?
    requires s.messages[m].phase.backend.ObjectStorage? && Truthy(s.messages[m].phase.raw)
    requires ObjectRef(s.cfg.rawVideoBucket, s.messages[m].phase.raw.value) in s.store
    ensures Reaches(start, next) && next.rows.Keys == {JOB} && next.rows[JOB].status.COMPLETED?
    ensures next.rows[JOB].attemptCount == s.rows[JOB].attemptCount
    ensures next.rows[JOB].maxAttempts == s.rows[JOB].maxAttempts && next.calls == s.calls
    ensures |next.messages| == |s.messages| && next.messages[m].job == JOB && next.messages[m].phase.Done?
    ensures forall k | 0 <= k < |s.messages| && k != m :: next.messages[k] == s.messages[k]
    ensures next.cfg == s.cfg && ObjectRef(s.cfg.processedVideoBucket, ProcessedObjectKey(JOB)) in next.store
    ensures s.rows[JOB].backend.ObjectStorage? ==>
      next.rows[JOB].outputs.processedObjectKey == Some(ProcessedObjectKey(JOB))
  {
    next := Step(start, s, Worker(m, Download));
    next := Step(start, next, Worker(m, StoreVideo));
    next := Step(start, next, Worker(m, StoreThumbnail));
    next := Step(start, next, Worker(m, Complete));
    next := Step(start, next, Worker(m, Return));
  }

  /** `attempt_count <= max_attempts` is not an invariant: the claim checks the limit of FAILED rows only, so a
      duplicate message pushes a crashed job over it. */
  lemma AttemptsExceedTheLimit(cfg: Settings, begin: int) returns (s: State)
    ensures Reaches(Init(cfg, begin), s) && JOB in s.rows && s.rows[JOB].attemptCount > s.rows[JOB].maxAttempts
  {
    var start := Init(cfg, begin);
    s := DuplicateMessage(cfg, begin);
    s := CrashedAttempt(start, s, 0);
    s := CrashedAttempt(start, s, 0);
    s := CrashedAttempt(start, s, 0);
    s := CrashedAttempt(start, s, 1);
  }

  /** COMPLETED alone absorbs nothing: the failure of a duplicate live run overwrites it, so stability needs a row
      without live runs. */
  lemma DuplicateRunOverwritesCompleted(cfg: Settings, begin: int) returns (done: State, later: State)
    ensures Reaches(Init(cfg, begin), done) && JOB in done.rows && done.rows[JOB].status.COMPLETED?
    ensures Reaches(done, later) && JOB in later.rows && later.rows[JOB].status.FAILED?
  {
    var start := Init(cfg, begin);
    var s := DuplicateMessage(cfg, begin);
    s := Claims(start, s, 0);
    s := Claims(start, s, 1);
    done := SuccessfulRun(start, s, 0);
    ReachesItself(done);
    later := Step(done, done, Worker(1, Fail(OtherError("x"), "E")));
  }

  /** A commit of QUEUED that comes after the worker is done takes a COMPLETED job back to QUEUED although its
      message is used up, so stability needs a row without a pending commit. */
  lemma LateCommitReopensCompleted(cfg: Settings, begin: int) returns (done: State, later: State)
    ensures Reaches(Init(cfg, begin), done) && JOB in done.rows && done.rows[JOB].status.COMPLETED?
    ensures Reaches(done, later) && JOB in later.rows && later.rows[JOB].status.QUEUED?
    ensures forall m | 0 <= m < |later.messages| :: later.messages[m].phase.Done?
  {
    var start := Init(cfg, begin);
    var s := PushedUpload(cfg, begin);
    s := Claims(start, s, 0);
    done := SuccessfulRun(start, s, 0);
    ReachesItself(done);
    later := Step(done, done, Upload(0, CommitQueued));
  }

  /** An upload whose enqueue fails. */
  lemma FailedEnqueue(cfg: Settings, begin: int) returns (s: State)
    ensures Reaches(Init(cfg, begin), s) && s.rows.Keys == {JOB} && s.rows[JOB].status.FAILED?
    ensures s.rows[JOB].retries.manualCount == 0 && s.calls == [UploadCall(None, Refused)]
  {
    s := SavedUpload(cfg, begin);
    s := Step(Init(cfg, begin), s, Upload(0, PushUploadFails("")));
  }

  /** A manual retry that has read the counter as zero and has yet to commit. */
  predicate AboutToCommit(call: Call) {
    call.RequeueCall? && call.job == JOB && call.source == RetryRead(0) && call.stage.Enqueued?
  }

  lemma OverlappingRetries(cfg: Settings, begin: int) returns (s: State)
    ensures Reaches(Init(cfg, begin), s) && JOB in s.rows && |s.calls| == 3 && s.calls[0].UploadCall?
    ensures AboutToCommit(s.calls[1]) && AboutToCommit(s.calls[2])
  {
    s := FailedEnqueue(cfg, begin);
    s := Step(Init(cfg, begin), s, RetryReads(JOB));
    s := Step(Init(cfg, begin), s, RetryReads(JOB));
    s := Step(Init(cfg, begin), s, Requeue(1, Push));
    s := Step(Init(cfg, begin), s, Requeue(2, Push));
  }

  /** Two manual retries that overlap count as one: both read the counter before either commits. */
  lemma OverlappingRetriesLoseOne(cfg: Settings, begin: int) returns (s: State)
    ensures Reaches(Init(cfg, begin), s) && JOB in s.rows
    ensures CommittedRetries(s.calls, JOB) == 2 && s.rows[JOB].retries.manualCount == 1
  {
    var start := Init(cfg, begin);
    var enqueued := OverlappingRetries(cfg, begin);
    NothingCommitted(enqueued.calls);
    var first := Step(start, enqueued, Requeue(1, Apply));
    AppliedUpdated(enqueued.calls, 1, first.calls[1], JOB);
    s := Step(start, first, Requeue(2, Apply));
    AppliedUpdated(first.calls, 2, s.calls[2], JOB);
  }

  lemma {:induction false} NothingCommitted(calls: seq<Call>)
    requires forall call <- calls :: !(RetryOf(call, JOB) && call.stage.Applied?)
    ensures CommittedRetries(calls, JOB) == 0
  {
    if calls != [] {
      assert calls[|calls| - 1] in calls;
      NothingCommitted(calls[..|calls| - 1]);
    }
  }

  /** An upload process that dies after its insert strands the row. */
  lemma UploadIsStranded(cfg: Settings, begin: int) returns (s: State)
    ensures Reaches(Init(cfg, begin), s) && Stranded(s, JOB)
  {
    s := InsertedUpload(cfg, begin);
    s := Step(Init(cfg, begin), s, Upload(0, Refuse));
  }

  // A cleanup overtaken by a manual retry

  lemma FailedAttempt(start: State, s: State, m: nat) returns (next: State)
    requires Reaches(start, s) && m < |s.messages| && s.messages[m].job == JOB && s.messages[m].phase.Waiting?
    requires s.messages[m].left > 0 && s.rows.Keys == {JOB} && Verdict(s.rows, JOB).Claim?
    ensures Reaches(start, next) && next.rows.Keys == {JOB} && next.rows[JOB].status.FAILED?
    ensures next.rows[JOB].attemptCount == s.rows[JOB].attemptCount + 1
    ensures next.rows[JOB].maxAttempts == s.rows[JOB].maxAttempts
    ensures next.rows[JOB].raw == s.rows[JOB].raw && next.rows[JOB].outputs == s.rows[JOB].outputs
    ensures next.rows[JOB].cleanup == s.rows[JOB].cleanup && next.rows[JOB].backend == s.rows[JOB].backend
    ensures next.rows[JOB].failure.retryExhausted <==> next.rows[JOB].attemptCount >= next.rows[JOB].maxAttempts
    ensures next.rows[JOB].failure.failedAt == Some(s.now)
    ensures next.store == s.store && next.cfg == s.cfg && next.now == s.now && next.calls == s.calls
    ensures |next.messages| == |s.messages| && next.messages[m].job == JOB
    ensures s.messages[m].left > 1 && !next.rows[JOB].failure.retryExhausted ==>
      next.messages[m].phase.Waiting? && next.messages[m].left == s.messages[m].left - 1
  {
    next := Step(start, s, Worker(m, Fetch));
    next := Step(start, next, Worker(m, ClaimRow));
    next := Step(start, next, Worker(m, Fail(OtherError(""), "")));
  }

  /** The only job has used up its attempts and still references its raw object, which is stored. */
  ghost predicate Exhausted(s: State) {
    && s.rows.Keys == {JOB}
    && var row := s.rows[JOB];
       && row.status.FAILED? && row.failure.retryExhausted && row.failure.failedAt == Some(s.now)
       && row.outputs == NO_OUTPUTS && row.backend.ObjectStorage? && row.cleanup.cleanedUpAt.None?
       && Truthy(row.raw.objectKey) && ObjectRef(s.cfg.rawVideoBucket, row.raw.objectKey.value) in s.store
       && row.maxAttempts == 3
  }

  lemma ExhaustedJob(cfg: Settings, begin: int) returns (s: State)
    ensures Reaches(Init(cfg, begin), s) && Exhausted(s) && |s.messages| == 1 && |s.calls| == 1
  {
    var start := Init(cfg, begin);
    s := QueuedUpload(cfg, begin);
    s := FailedAttempt(start, s, 0);
    s := FailedAttempt(start, s, 0);
    s := FailedAttempt(start, s, 0);
  }

  /** Call 1 is a cleanup that has read the raw reference of the job and deleted nothing yet. */
  ghost predicate Opened(s: State, deleteRow: bool) {
    && s.rows.Keys == {JOB} && s.rows[JOB].backend.ObjectStorage? && Truthy(s.rows[JOB].raw.objectKey)
    && var raw := ObjectRef(s.cfg.rawVideoBucket, s.rows[JOB].raw.objectKey.value);
       && raw in s.store && |s.calls| >= 2 && s.calls[1] == CleanupCall(JOB, deleteRow, Deleting([raw], [raw]))
  }

  lemma OpenedCleanup(cfg: Settings, begin: int, deleteRow: bool) returns (s: State)
    ensures Reaches(Init(cfg, begin), s) && Opened(s, deleteRow)
    ensures s.rows[JOB].status.FAILED? && s.rows[JOB].maxAttempts == 3 && |s.messages| == 1 && |s.calls| == 2
  {
    s := ExhaustedJob(cfg, begin);
    var raw := ObjectRef(s.cfg.rawVideoBucket, s.rows[JOB].raw.objectKey.value);
    assert ObjectReferences(s.cfg, s.rows[JOB]) == [raw];
    s := Step(Init(cfg, begin), s, CleanupPicks(JOB, 0, 0, deleteRow));
    s := Step(Init(cfg, begin), s, Cleanup(1, OpenReferences));
  }

  lemma RetriedMeanwhile(cfg: Settings, begin: int, deleteRow: bool) returns (s: State)
    ensures Reaches(Init(cfg, begin), s) && Opened(s, deleteRow)
    ensures s.rows[JOB].status.QUEUED? && |s.messages| == 2 && s.messages[1] == NewMessage(JOB, 2, 3)
  {
    s := OpenedCleanup(cfg, begin, deleteRow);
    s := Step(Init(cfg, begin), s, RetryReads(JOB));
    s := Step(Init(cfg, begin), s, Requeue(2, Push));
    s := Step(Init(cfg, begin), s, Requeue(2, Apply));
  }

  lemma ClaimedMeanwhile(cfg: Settings, begin: int, deleteRow: bool) returns (s: State)
    ensures Reaches(Init(cfg, begin), s) && Opened(s, deleteRow) && |s.messages| == 2 && s.messages[1].job == JOB
    ensures s.messages[1].phase.Running? && s.messages[1].phase.stage.Started?
    ensures s.messages[1].phase.backend.ObjectStorage? && s.messages[1].phase.raw == s.rows[JOB].raw.objectKey
  {
    s := RetriedMeanwhile(cfg, begin, deleteRow);
    s := Claims(Init(cfg, begin), s, 1);
  }

  lemma ProcessedVideoIsNotRaw(cfg: Settings, raw: ObjectRef, id: JobId, filename: string)
    requires raw.key == RawObjectKey(id, filename) && SlashFree(id)
    ensures raw != ObjectRef(cfg.processedVideoBucket, ProcessedObjectKey(id))
  {
    KeysNeverCollide(id, id, filename, filename);
  }

  /** The retried job completes, and only then the cleanup goes on: it gives up references it never read, or deletes
      the row, and leaves the new artifacts in the store. */
  lemma CleanupLosesNewArtifacts(cfg: Settings, begin: int, deleteRow: bool) returns (before: State, after: State)
    ensures Reaches(Init(cfg, begin), before) && Enabled(before, Cleanup(1, CommitCleanup))
    ensures after == Next(before, Cleanup(1, CommitCleanup)) && before.calls[1].target == JOB
    ensures before.rows[JOB].status.COMPLETED?
    ensures exists ref <- ObjectReferences(before.cfg, before.rows[JOB]) :: ref in after.store
    ensures deleteRow ==> JOB !in after.rows
    ensures !deleteRow ==> JOB in after.rows && NoReferences(after.rows[JOB]) && after.rows[JOB].status.COMPLETED?
  {
    var start := Init(cfg, begin);
    var s := ClaimedMeanwhile(cfg, begin, deleteRow);
    var video := ObjectRef(s.cfg.processedVideoBucket, ProcessedObjectKey(JOB));
    ReachedInv(cfg, begin, s);
    assert RowOk(JOB, s.rows[JOB]) && '/' !in JOB;
    ProcessedVideoIsNotRaw(s.cfg, s.calls[1].progress.pending[0], JOB, s.rows[JOB].originalFilename);
    s := SuccessfulRun(start, s, 1);
    assert Truthy(Some(ProcessedObjectKey(JOB)));
    assert video in ObjectReferences(s.cfg, s.rows[JOB]);
    before := Step(start, s, Cleanup(1, DeleteNext));
    after := Next(before, Cleanup(1, CommitCleanup));
  }

  // What recoveries do not bound

  /** Every recovery of a QUEUED row pushes one more message and counts no attempt, so the messages of one job are
      bounded by nothing but the number of passes. */
  lemma {:induction false} MessagesPileUp(cfg: Settings, begin: int, n: nat) returns (s: State)
    requires n > 0
    ensures Reaches(Init(cfg, begin), s) && Untouched(s) && s.rows[JOB].status.QUEUED?
    ensures |s.messages| == |s.calls| == n
    ensures forall m | 0 <= m < n :: s.messages[m].job == JOB && s.messages[m].phase.Waiting?
  {
    if n == 1 {
      s := QueuedUpload(cfg, begin);
    } else {
      var start, c := Init(cfg, begin), n - 1;
      s := MessagesPileUp(cfg, begin, n - 1);
      s := Step(start, s, RecoveryReads(JOB));
      s := Step(start, s, Requeue(c, Push));
      s := Step(start, s, Requeue(c, Apply));
    }
  }

  lemma ClaimedUpload(cfg: Settings, begin: int) returns (s: State)
    ensures Reaches(Init(cfg, begin), s) && s.rows.Keys == {JOB} && s.rows[JOB].status.PROCESSING?
    ensures s.rows[JOB].attemptCount == 1 && s.rows[JOB].maxAttempts == 3
    ensures |s.calls| == 1 && s.calls[0].UploadCall?
  {
    s := QueuedUpload(cfg, begin);
    s := Claims(Init(cfg, begin), s, 0);
  }

  /** A recovery that has read the PROCESSING row after its first attempt. */
  predicate ReadFirstAttempt(call: Call) {
    call.RequeueCall? && call.job == JOB && call.source == RecoveryRead(1, true)
  }

  lemma TwoRecoveriesRead(cfg: Settings, begin: int) returns (s: State)
    ensures Reaches(Init(cfg, begin), s) && s.rows.Keys == {JOB} && |s.calls| == 3 && s.calls[0].UploadCall?
    ensures ReadFirstAttempt(s.calls[1]) && s.calls[1].stage.Enqueued?
    ensures ReadFirstAttempt(s.calls[2]) && s.calls[2].stage.Enqueued?
  {
    var start := Init(cfg, begin);
    s := ClaimedUpload(cfg, begin);
    s := Step(start, s, RecoveryReads(JOB));
    s := Step(start, s, RecoveryReads(JOB));
    s := Step(start, s, Requeue(1, Push));
    s := Step(start, s, Requeue(2, Push));
  }

  /** Two passes that overlap on a job, as the admin endpoint allows beside a reconciler, requeue it at the same attempt
      count. */
  lemma OverlappingRecoveriesRepeat(cfg: Settings, begin: int) returns (s: State)
    ensures Reaches(Init(cfg, begin), s) && Reads(s.calls, JOB) == [1, 1] && !Increasing(Reads(s.calls, JOB))
  {
    s := TwoRecoveriesRead(cfg, begin);
    s := Step(Init(cfg, begin), s, Requeue(1, Apply));
    s := Step(Init(cfg, begin), s, Requeue(2, Apply));
    ReadsOfThree(s.calls);
    assert Reads(s.calls, JOB)[0] == Reads(s.calls, JOB)[1];
  }

  lemma ReadsOfThree(calls: seq<Call>)
    requires |calls| == 3 && calls[0].UploadCall?
    requires ReadFirstAttempt(calls[1]) && calls[1].stage.Applied?
    requires ReadFirstAttempt(calls[2]) && calls[2].stage.Applied?
    ensures Reads(calls, JOB) == [1, 1]
  {
    assert calls[..2][..1] == [calls[0]] && calls[..2][1] == calls[1];
    assert Reads([calls[0]], JOB) == [];
    assert Reads(calls[..2], JOB) == [1];
  }
}
