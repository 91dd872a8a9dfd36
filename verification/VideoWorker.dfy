/** workers/video_worker.py: one RQ delivery, from the claim of the row to its COMPLETED or FAILED commit. */
module VideoWorker {
  import opened Common
  import opened ErrorMessages
  import opened ObjectKeys
  import opened VideoJobs

  datatype ClaimVerdict = NotFound | AlreadyCompleted | MaxAttemptsExhausted | Claim

  function Verdict(rows: Table, id: JobId): ClaimVerdict {
    if id !in rows then NotFound
    else if rows[id].status.COMPLETED? then AlreadyCompleted
    else if && rows[id].status.FAILED?
            && (rows[id].failure.retryExhausted || rows[id].attemptCount >= rows[id].maxAttempts)
    then MaxAttemptsExhausted
    else Claim
  }

  /** The columns assigned by the claim. */
  function Claimed(row: Row, now: int): Row {
    row.(failure := if row.status.FAILED? || row.status.PROCESSING? then row.failure.(errorMessage := None)
                    else row.failure,
         timing := row.timing.(startedAt := Some(now)), attemptCount := row.attemptCount + 1, status := PROCESSING)
  }

  /** The reference `_run_processing` insists on before it does anything. */
  function RawReference(row: Row): Option<string> {
    if row.backend.LocalStorage? then row.raw.path else row.raw.objectKey
  }

  /** The output columns set by `_run_processing`. */
  function NewOutputs(cfg: Settings, id: JobId, row: Row): Outputs {
    match row.backend
    case LocalStorage =>
      row.outputs.(processedPath := Some(cfg.processedDir + "/" + id + ".mp4"),
                   thumbnailPath := Some(cfg.thumbnailsDir + "/" + id + ".jpg"))
    case ObjectStorage =>
      Outputs(Some(S3Uri(cfg.processedVideoBucket, ProcessedObjectKey(id))),
              Some(S3Uri(cfg.thumbnailBucket, ThumbnailObjectKey(id))),
              Some(ProcessedObjectKey(id)), Some(ThumbnailObjectKey(id)))
  }

  /** The columns assigned by a successful run. */
  function Completed(cfg: Settings, id: JobId, row: Row, started: int, now: int): Row {
    row.(outputs := NewOutputs(cfg, id, row), failure := NO_FAILURE, status := COMPLETED,
         timing := row.timing.(completedAt := Some(now), duration := Some(now - started)))
  }

  /** The columns assigned by a failed run. */
  function MarkedFailed(row: Row, failure: Failure, errorType: string, started: int, now: int): Row {
    row.(status := FAILED,
         failure := FailureMetadata(Some(SanitizeErrorMessage(failure)), Some(now), Some(errorType),
                                    row.attemptCount >= row.maxAttempts),
         timing := row.timing.(completedAt := Some(now), duration := Some(now - started)))
  }

  predicate ShouldRqRetry(row: Row) {
    row.attemptCount < row.maxAttempts
  }

  /** What the download, FFmpeg and the uploads do in one run. */
  datatype Processing = Succeeds | Raises(failure: Failure, errorType: string)

  function RunOutcome(row: Row, processing: Processing): Processing {
    if Truthy(RawReference(row)) then processing
    else if row.backend.LocalStorage? then Raises(ProcessingError("missing raw_path for local job"), "ProcessingError")
    else Raises(ProcessingError("missing raw_object_key for object job"), "ProcessingError")
  }

  method ClearFailureMetadata(job: VideoJob)
    modifies job`failure
    ensures job.failure == NO_FAILURE
  {
    job.failure := job.failure.(errorMessage := None);
    job.failure := job.failure.(failedAt := None);
    job.failure := job.failure.(lastErrorType := None);
    job.failure := job.failure.(retryExhausted := false);
  }

  /** The stored message is that of the failure, made fit for the API, and the job is exhausted exactly at its limit. */
  method MarkJobFailed(job: VideoJob, failure: Failure, errorType: string, processingStart: int, now: int)
    modifies job
    ensures job.AsRow() == MarkedFailed(old(job.AsRow()), failure, errorType, processingStart, now)
    ensures job.failure.errorMessage.Some? && Presentable(job.failure.errorMessage.value)
    ensures var before := old(job.AsRow());
            job.AsRow() == before.(
              status := FAILED,
              failure := FailureMetadata(Some(SanitizeErrorMessage(failure)), Some(now), Some(errorType),
                                         before.attemptCount >= before.maxAttempts),
              timing := Timing(before.timing.startedAt, Some(now), Some(now - processingStart)))
  {
    StoredMessageIsNormalForm(failure);
    job.status := FAILED;
    job.failure := FailureMetadata(Some(SanitizeErrorMessage(failure)), Some(now), Some(errorType),
                                   job.attemptCount >= job.maxAttempts);
    job.timing := job.timing.(completedAt := Some(now), duration := Some(now - processingStart));
  }

  method SetOutputs(cfg: Settings, job: VideoJob)
    modifies job`outputs
    ensures job.outputs == NewOutputs(cfg, job.id, old(job.AsRow()))
    ensures job.backend.LocalStorage? ==>
      job.outputs
      == Outputs(Some(cfg.processedDir + "/" + job.id + ".mp4"), Some(cfg.thumbnailsDir + "/" + job.id + ".jpg"),
                 old(job.outputs.processedObjectKey), old(job.outputs.thumbnailObjectKey))
    ensures job.backend.ObjectStorage? ==>
      var pk := "videos/" + job.id + "/processed/" + job.id + ".mp4";
      var tk := "videos/" + job.id + "/thumbnails/" + job.id + ".jpg";
      job.outputs == Outputs(Some("s3://" + cfg.processedVideoBucket + "/" + pk),
                             Some("s3://" + cfg.thumbnailBucket + "/" + tk), Some(pk), Some(tk))
  {
    KeysSpelledOut(job.id, job.originalFilename);
    if job.backend.LocalStorage? {
      job.outputs := job.outputs.(processedPath := Some(cfg.processedDir + "/" + job.id + ".mp4"));
      job.outputs := job.outputs.(thumbnailPath := Some(cfg.thumbnailsDir + "/" + job.id + ".jpg"));
      return;
    }
    var pk, tk := ProcessedObjectKey(job.id), ThumbnailObjectKey(job.id);
    job.outputs := job.outputs.(processedObjectKey := Some(pk), thumbnailObjectKey := Some(tk));
    job.outputs := job.outputs.(processedPath := Some(S3Uri(cfg.processedVideoBucket, pk)));
    job.outputs := job.outputs.(thumbnailPath := Some(S3Uri(cfg.thumbnailBucket, tk)));
  }

  /** The first transaction: find the row, decide, and claim it. */
  method ClaimJob(db: Database, id: JobId) returns (job: VideoJob?)
    modifies db`rows
    ensures job != null <==> Verdict(old(db.rows), id).Claim?
    ensures job == null ==> db.rows == old(db.rows)
    ensures job != null ==> fresh(job) && job.id == id && db.rows == old(db.rows)[id := job.AsRow()]
    ensures job != null ==> job.AsRow() == Stamped(Claimed(old(db.rows[id]), db.now), db.now)
    ensures job == null <==>
      || id !in old(db.rows)
      || old(db.rows[id]).status.COMPLETED?
      || (old(db.rows[id]).status.FAILED?
          && (old(db.rows[id]).failure.retryExhausted || old(db.rows[id]).attemptCount >= old(db.rows[id]).maxAttempts))
    ensures job != null ==>
      var before := old(db.rows[id]);
      db.rows[id] == before.(
        status := PROCESSING, attemptCount := before.attemptCount + 1, updatedAt := db.now,
        timing := Timing(Some(db.now), before.timing.completedAt, before.timing.duration),
        failure := if before.status.FAILED? || before.status.PROCESSING? then before.failure.(errorMessage := None)
                   else before.failure)
  {
    job := db.Get(id);
    if job == null || job.status.COMPLETED? {
      return null;
    }
    if job.status.FAILED? && (job.failure.retryExhausted || job.attemptCount >= job.maxAttempts) {
      return null;
    }
    if job.status.FAILED? {
      job.failure := job.failure.(errorMessage := None);
    } else if job.status.PROCESSING? {
      job.failure := job.failure.(errorMessage := None);
    }
    job.timing := job.timing.(startedAt := Some(db.now));
    job.attemptCount := job.attemptCount + 1;
    job.status := PROCESSING;
    db.Commit(job);
  }

  /** The last transaction of a successful run: the assigned columns go over whatever the row holds by now. */
  method FinishJob(db: Database, cfg: Settings, job: VideoJob, processingStart: int)
    modifies db`rows, job
    ensures db.rows ==
            old(db.rows)[job.id := Stamped(Completed(cfg, job.id, old(job.AsRow()), processingStart, db.now), db.now)]
    ensures var before := old(job.AsRow());
            db.rows[job.id] == before.(
              status := COMPLETED, failure := FailureMetadata(None, None, None, false), updatedAt := db.now,
              timing := Timing(before.timing.startedAt, Some(db.now), Some(db.now - processingStart)),
              outputs := db.rows[job.id].outputs)
    ensures job.backend.LocalStorage? ==>
      db.rows[job.id].outputs
      == Outputs(Some(cfg.processedDir + "/" + job.id + ".mp4"), Some(cfg.thumbnailsDir + "/" + job.id + ".jpg"),
                 old(job.outputs.processedObjectKey), old(job.outputs.thumbnailObjectKey))
    ensures job.backend.ObjectStorage? ==>
      var pk := "videos/" + job.id + "/processed/" + job.id + ".mp4";
      var tk := "videos/" + job.id + "/thumbnails/" + job.id + ".jpg";
      db.rows[job.id].outputs == Outputs(Some("s3://" + cfg.processedVideoBucket + "/" + pk),
                                         Some("s3://" + cfg.thumbnailBucket + "/" + tk), Some(pk), Some(tk))
  {
    SetOutputs(cfg, job);
    ClearFailureMetadata(job);
    job.status := COMPLETED;
    job.timing := job.timing.(completedAt := Some(db.now), duration := Some(db.now - processingStart));
    db.Commit(job);
  }

  /** The last transaction of a run, over the row as it is by now. */
  method EndRun(db: Database, cfg: Settings, id: JobId, started: int, outcome: Processing) returns (raised: bool)
    requires id in db.rows
    modifies db`rows
    ensures id in db.rows
    ensures var before, after := old(db.rows[id]), db.rows[id];
            && db.rows == old(db.rows)[id := after]
            && after == before.(status := after.status, failure := after.failure, outputs := after.outputs,
                                timing := Timing(before.timing.startedAt, Some(db.now), Some(db.now - started)),
                                updatedAt := db.now)
    ensures match outcome
            case Succeeds =>
              !raised && db.rows[id] == Stamped(Completed(cfg, id, old(db.rows[id]), started, db.now), db.now)
            case Raises(failure, errorType) =>
              var failed := MarkedFailed(old(db.rows[id]), failure, errorType, started, db.now);
              raised == ShouldRqRetry(failed) && db.rows[id] == Stamped(failed, db.now)
    ensures outcome.Succeeds? ==>
      && !raised && db.rows[id].status.COMPLETED? && db.rows[id].failure == FailureMetadata(None, None, None, false)
      && if old(db.rows[id]).backend.LocalStorage? then
           db.rows[id].outputs
           == Outputs(Some(cfg.processedDir + "/" + id + ".mp4"), Some(cfg.thumbnailsDir + "/" + id + ".jpg"),
                      old(db.rows[id]).outputs.processedObjectKey, old(db.rows[id]).outputs.thumbnailObjectKey)
         else
           var pk := "videos/" + id + "/processed/" + id + ".mp4";
           var tk := "videos/" + id + "/thumbnails/" + id + ".jpg";
           db.rows[id].outputs == Outputs(Some("s3://" + cfg.processedVideoBucket + "/" + pk),
                                          Some("s3://" + cfg.thumbnailBucket + "/" + tk), Some(pk), Some(tk))
    ensures outcome.Raises? ==>
      && db.rows[id].status.FAILED? && db.rows[id].outputs == old(db.rows[id]).outputs
      && db.rows[id].failure
         == FailureMetadata(Some(SanitizeErrorMessage(outcome.failure)), Some(db.now), Some(outcome.errorType),
                            old(db.rows[id]).attemptCount >= old(db.rows[id]).maxAttempts)
      && (raised <==> old(db.rows[id]).attemptCount < old(db.rows[id]).maxAttempts)
  {
    raised := false;
    var job := db.Get(id);
    match outcome {
      case Succeeds =>
        FinishJob(db, cfg, job, started);
      case Raises(failure, errorType) =>
        MarkJobFailed(job, failure, errorType, started, db.now);
        db.Commit(job);
        if job.attemptCount < job.maxAttempts {
          raised := true;
        }
    }
  }

  /** One delivery, with the other actors free to change any row while FFmpeg runs. `claimed` and `finishing` are the
      table just after the claim commit and just before the final one, so the contract says what each of the two
      transactions writes, and that there is no other. `raised` is what RQ sees. */
  method ProcessVideoJob(db: Database, env: Environment, cfg: Settings, id: JobId, processing: Processing)
    returns (raised: bool, ghost claimed: Table, ghost finishing: Table)
    modifies db
    ensures !Verdict(old(db.rows), id).Claim? ==> !raised && db.rows == old(db.rows)
    ensures Verdict(old(db.rows), id).Claim? ==>
      && claimed == old(db.rows)[id := Stamped(Claimed(old(db.rows[id]), old(db.now)), old(db.now))]
      && (env.quiet ==> finishing == claimed)
      && (id !in finishing ==> raised && db.rows == finishing)
      && (id in finishing ==>
        match RunOutcome(claimed[id], processing)
        case Succeeds =>
          && !raised
          && db.rows == finishing[id := Stamped(Completed(cfg, id, finishing[id], old(db.now), db.now), db.now)]
        case Raises(failure, errorType) =>
          var failed := MarkedFailed(finishing[id], failure, errorType, old(db.now), db.now);
          raised == ShouldRqRetry(failed) && db.rows == finishing[id := Stamped(failed, db.now)])
    ensures Verdict(old(db.rows), id).Claim? && id in finishing ==>
      var raw := if claimed[id].backend.LocalStorage? then claimed[id].raw.path else claimed[id].raw.objectKey;
      var before, after := finishing[id], db.rows[id];
      if raw.Some? && raw.value != "" && processing.Succeeds? then
        && !raised && after.status.COMPLETED?
        && if before.backend.LocalStorage? then
             after.outputs
             == Outputs(Some(cfg.processedDir + "/" + id + ".mp4"), Some(cfg.thumbnailsDir + "/" + id + ".jpg"),
                        before.outputs.processedObjectKey, before.outputs.thumbnailObjectKey)
           else
             var pk := "videos/" + id + "/processed/" + id + ".mp4";
             var tk := "videos/" + id + "/thumbnails/" + id + ".jpg";
             after.outputs == Outputs(Some("s3://" + cfg.processedVideoBucket + "/" + pk),
                                      Some("s3://" + cfg.thumbnailBucket + "/" + tk), Some(pk), Some(tk))
      else
        && after.status.FAILED? && after.outputs == before.outputs
        && (raised <==> before.attemptCount < before.maxAttempts)
        && after.failure.retryExhausted == (before.attemptCount >= before.maxAttempts)
        && (raw.Some? && raw.value != "" ==>
              && after.failure.errorMessage == Some(SanitizeErrorMessage(processing.failure))
              && after.failure.lastErrorType == Some(processing.errorType))
        && (raw.None? || raw.value == "" ==>
              && after.failure.lastErrorType == Some("ProcessingError")
              && after.failure.errorMessage
                 == Some(SanitizeErrorMessage(ProcessingError(if claimed[id].backend.LocalStorage?
                                                              then "missing raw_path for local job"
                                                              else "missing raw_object_key for object job"))))
  {
    raised, claimed, finishing := false, db.rows, db.rows;
    var processingStart := db.now;
    var job := ClaimJob(db, id);
    if job == null {
      return;
    }
    claimed := db.rows;
    var outcome := RunOutcome(job.AsRow(), processing);
    env.Act(db);
    finishing := db.rows;
    if id !in db.rows {
      return true, claimed, finishing;
    }
    raised := EndRun(db, cfg, id, processingStart, outcome);
  }
}
