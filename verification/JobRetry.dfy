/** backend/app/services/job_service.py: the manual retry of a failed job. */
module JobRetry {
  import opened Common
  import opened RedisQueue
  import opened VideoJobs

  datatype RetryOutcome = JobNotFound | RetryConflict | EnqueueError | VanishedMeanwhile | Retried

  /** The columns assigned by `retry_failed_job`. `countRead` is the counter as loaded before the enqueue. */
  function ManuallyRetried(row: Row, countRead: nat, message: nat, now: int): Row {
    row.(status := QUEUED, failure := NO_FAILURE, attemptCount := 0, timing := NO_TIMING, outputs := NO_OUTPUTS,
         retries := Retries(countRead + 1, Some(now)), queueJobId := Some(message))
  }

  /** `committing` is the table just before the commit: the other actors may act while Redis is called. */
  method RetryFailedJob(db: Database, queue: QueueService, env: Environment, id: JobId, origin: nat, down: bool)
    returns (outcome: RetryOutcome, ghost committing: Table)
    modifies db, queue
    ensures outcome.JobNotFound? <==> id !in old(db.rows)
    ensures outcome.RetryConflict? <==> id in old(db.rows) && !old(db.rows[id]).status.FAILED?
    ensures outcome.EnqueueError? <==> id in old(db.rows) && old(db.rows[id]).status.FAILED? && down
    ensures !outcome.Retried? && !outcome.VanishedMeanwhile? ==>
      db.rows == old(db.rows) && queue.messages == old(queue.messages)
    ensures outcome.Retried? || outcome.VanishedMeanwhile? ==>
      && queue.messages == old(queue.messages) + [NewMessage(id, origin, old(db.rows[id]).maxAttempts)]
      && (env.quiet ==> committing == old(db.rows))
      && (outcome.Retried? <==> id in committing)
      && db.rows ==
         if id !in committing then committing
         else
           var retried := ManuallyRetried(committing[id], old(db.rows[id]).retries.manualCount, |old(queue.messages)|,
                                          db.now);
           committing[id := Stamped(retried, db.now)]
    ensures outcome.Retried? ==>
      db.rows[id] == committing[id].(
        status := QUEUED, attemptCount := 0, queueJobId := Some(|old(queue.messages)|), updatedAt := db.now,
        failure := FailureMetadata(None, None, None, false), timing := Timing(None, None, None),
        outputs := Outputs(None, None, None, None),
        retries := Retries(old(db.rows)[id].retries.manualCount + 1, Some(db.now)))
  {
    committing := db.rows;
    var job := db.Get(id);
    if job == null {
      return JobNotFound, committing;
    }
    if !job.status.FAILED? {
      return RetryConflict, committing;
    }
    var rqJobId := queue.EnqueueVideoProcessing(id, job.maxAttempts, origin, down);
    if rqJobId.None? {
      return EnqueueError, committing;
    }
    var countRead := job.retries.manualCount;
    env.Act(db);
    committing := db.rows;
    job := db.Get(id);
    if job == null {
      return VanishedMeanwhile, committing;
    }
    CommitRetry(db, job, countRead, rqJobId.value);
    outcome := Retried;
  }

  method CommitRetry(db: Database, job: VideoJob, countRead: nat, rqJobId: nat)
    modifies db`rows, job
    ensures db.rows ==
            old(db.rows)[job.id := Stamped(ManuallyRetried(old(job.AsRow()), countRead, rqJobId, db.now), db.now)]
    ensures db.rows[job.id] == old(job.AsRow()).(
      status := QUEUED, attemptCount := 0, queueJobId := Some(rqJobId), updatedAt := db.now,
      failure := FailureMetadata(None, None, None, false), timing := Timing(None, None, None),
      outputs := Outputs(None, None, None, None), retries := Retries(countRead + 1, Some(db.now)))
  {
    job.status := QUEUED;
    job.failure := NO_FAILURE;
    job.attemptCount := 0;
    job.timing := NO_TIMING;
    job.outputs := NO_OUTPUTS;
    job.retries := Retries(countRead + 1, Some(db.now));
    job.queueJobId := Some(rqJobId);
    db.Commit(job);
  }
}
