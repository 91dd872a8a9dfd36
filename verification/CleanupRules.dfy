/** The pure rules of backend/app/services/job_cleanup_service.py: which rows are candidates, what they reference and
    what a cleanup writes. Times are in seconds. */
module CleanupRules {
  import opened Common
  import opened VideoJobs

  datatype ObjectRef = ObjectRef(bucket: string, key: string)

  const DAY := 86400

  function CleanupReferenceTime(row: Row): Option<int> {
    match row.status
    case COMPLETED => Some(if row.timing.completedAt.Some? then row.timing.completedAt.value else row.updatedAt)
    case FAILED => Some(if row.failure.failedAt.Some? then row.failure.failedAt.value else row.updatedAt)
    case _ => None
  }

  predicate IsCleanupCandidate(row: Row, now: int, completedAfterDays: int, failedAfterDays: int) {
    && row.cleanup.cleanedUpAt.None?
    && CleanupReferenceTime(row).Some?
    && var reference := CleanupReferenceTime(row).value;
       match row.status
       case COMPLETED => reference <= now - completedAfterDays * DAY
       case FAILED => row.failure.retryExhausted && reference <= now - failedAfterDays * DAY
       case _ => false
  }

  function TruthyRef(bucket: string, key: Option<string>): seq<ObjectRef> {
    if Truthy(key) then [ObjectRef(bucket, key.value)] else []
  }

  /** The references a cleanup deletes, in order; empty columns are skipped. */
  function ObjectReferences(cfg: Settings, row: Row): seq<ObjectRef> {
    TruthyRef(cfg.rawVideoBucket, row.raw.objectKey)
    + TruthyRef(cfg.processedVideoBucket, row.outputs.processedObjectKey)
    + TruthyRef(cfg.thumbnailBucket, row.outputs.thumbnailObjectKey)
  }

  predicate NoReferences(row: Row) {
    row.raw == NO_RAW && row.outputs == NO_OUTPUTS
  }

  /** The columns assigned when everything was deleted. */
  function CleanedUp(row: Row, now: int): Row {
    row.(cleanup := CleanupMark(Some(now), None), raw := NO_RAW, outputs := NO_OUTPUTS)
  }

  /** The column assigned when a deletion failed. */
  function CleanupFailed(row: Row, error: string): Row {
    row.(cleanup := row.cleanup.(errorMessage := Some(Truncated(error))))
  }
}
