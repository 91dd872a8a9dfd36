/** backend/app/db/models.py: the `video_jobs` row that every actor updates, and the session through which it does. */
module VideoJobs {
  import opened Common

  /** A UUID in text form. */
  type JobId = string

  datatype Status = UPLOADED | QUEUED | PROCESSING | COMPLETED | FAILED

  datatype Backend = LocalStorage | ObjectStorage

  datatype Settings = Settings(
    rawVideoBucket: string, processedVideoBucket: string, thumbnailBucket: string,
    processedDir: string, thumbnailsDir: string)

  function S3Uri(bucket: string, objectKey: string): string {
    "s3://" + bucket + "/" + objectKey
  }

  /** Columns that are always reset together are grouped; the grouping changes no value. */
  datatype Raw = Raw(path: Option<string>, objectKey: Option<string>)
  datatype Outputs = Outputs(
    processedPath: Option<string>, thumbnailPath: Option<string>,
    processedObjectKey: Option<string>, thumbnailObjectKey: Option<string>)
  datatype FailureMetadata = FailureMetadata(
    errorMessage: Option<string>, failedAt: Option<int>, lastErrorType: Option<string>, retryExhausted: bool)
  datatype Timing = Timing(startedAt: Option<int>, completedAt: Option<int>, duration: Option<int>)
  datatype Retries = Retries(manualCount: nat, lastAt: Option<int>)
  datatype CleanupMark = CleanupMark(cleanedUpAt: Option<int>, errorMessage: Option<string>)

  const NO_RAW := Raw(None, None)
  const NO_OUTPUTS := Outputs(None, None, None, None)
  const NO_FAILURE := FailureMetadata(None, None, None, false)
  const NO_TIMING := Timing(None, None, None)

  /** One stored row. Times are instants of one shared clock; `queueJobId` names an RQ message. */
  datatype Row = Row(
    idempotencyKey: Option<string>, originalFilename: string, backend: Backend, maxAttempts: int,
    status: Status, attemptCount: nat, queueJobId: Option<nat>,
    raw: Raw, outputs: Outputs, failure: FailureMetadata, timing: Timing, retries: Retries, cleanup: CleanupMark,
    updatedAt: int)

  /** The session's copy of a row. */
  class VideoJob {
    const id: JobId
    const idempotencyKey: Option<string>
    const originalFilename: string
    const backend: Backend
    const maxAttempts: int
    var status: Status
    var attemptCount: nat
    var queueJobId: Option<nat>
    var raw: Raw
    var outputs: Outputs
    var failure: FailureMetadata
    var timing: Timing
    var retries: Retries
    var cleanup: CleanupMark
    var updatedAt: int

    constructor (id: JobId, row: Row)
      ensures this.id == id && AsRow() == row
    {
      this.id, idempotencyKey, originalFilename := id, row.idempotencyKey, row.originalFilename;
      backend, maxAttempts := row.backend, row.maxAttempts;
      status, attemptCount, queueJobId := row.status, row.attemptCount, row.queueJobId;
      raw, outputs, failure, timing := row.raw, row.outputs, row.failure, row.timing;
      retries, cleanup, updatedAt := row.retries, row.cleanup, row.updatedAt;
    }

    function AsRow(): Row
      reads this
    {
      Row(idempotencyKey, originalFilename, backend, maxAttempts, status, attemptCount, queueJobId,
          raw, outputs, failure, timing, retries, cleanup, updatedAt)
    }
  }

  type Table = map<JobId, Row>

  /** `onupdate=func.now()`: every committed update stamps the row. */
  function Stamped(row: Row, now: int): Row {
    row.(updatedAt := now)
  }

  /** The stored table together with the shared clock. */
  class Database {
    var rows: Table
    var now: int

    constructor (now: int)
      ensures rows == map[] && this.now == now
    {
      rows, this.now := map[], now;
    }

    /** `db.get(VideoJob, id)` */
    method Get(id: JobId) returns (job: VideoJob?)
      ensures id !in rows ==> job == null
      ensures id in rows ==> job != null && fresh(job) && job.id == id && job.AsRow() == rows[id]
    {
      job := null;
      if id in rows {
        job := new VideoJob(id, rows[id]);
      }
    }

    /** `db.commit()` for one changed row. */
    method Commit(job: VideoJob)
      modifies this`rows, job`updatedAt
      ensures job.AsRow() == Stamped(old(job.AsRow()), now)
      ensures rows == old(rows)[job.id := Stamped(old(job.AsRow()), now)]
    {
      job.updatedAt := now;
      rows := rows[job.id := job.AsRow()];
    }
  }

  /** The other actors. Between two transactions of one actor they may change any row; a quiet environment
      changes none. */
  class Environment {
    const quiet: bool

    constructor (quiet: bool)
      ensures this.quiet == quiet
    {
      this.quiet := quiet;
    }

    method Act(db: Database)
      modifies db
      ensures db.now >= old(db.now)
      ensures quiet ==> db.rows == old(db.rows) && db.now == old(db.now)
    {
    }
  }
}
