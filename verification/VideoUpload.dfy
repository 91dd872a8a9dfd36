/** backend/app/services/video_service.py: insert the row, store the raw file, enqueue, commit QUEUED. */
module VideoUpload {
  import opened Common
  import opened ObjectKeys
  import opened RedisQueue
  import opened VideoJobs

  const DEFAULT_MAX_ATTEMPTS := 3

  function NewRow(cfg: Settings, id: JobId, key: Option<string>, filename: string, backend: Backend, now: int): Row {
    var rkey := RawObjectKey(id, filename);
    Row(key, filename, backend, DEFAULT_MAX_ATTEMPTS, UPLOADED, 0, None,
        if backend.ObjectStorage? then Raw(Some(S3Uri(cfg.rawVideoBucket, rkey)), Some(rkey)) else NO_RAW,
        NO_OUTPUTS, NO_FAILURE, NO_TIMING, Retries(0, None), CleanupMark(None, None), now)
  }

  /** Local mode stores the path after saving the file; object mode stored its key with the row. */
  function RawSaved(row: Row, path: string): Row {
    if row.backend.LocalStorage? then row.(raw := row.raw.(path := Some(path))) else row
  }

  /** The columns assigned when the object upload or the enqueue fails. */
  function UploadFailed(row: Row, error: string): Row {
    row.(status := FAILED, failure := row.failure.(errorMessage := Some(error)))
  }

  function Queued(row: Row, message: nat): Row {
    row.(queueJobId := Some(message), status := QUEUED)
  }

  const ENQUEUE_FAILED := "enqueue_failed: "
  const OBJECT_UPLOAD_FAILED := "object_upload_failed: "

  /** What the endpoint reads off the row to answer 503. */
  predicate QueueWasUnavailable(row: Row) {
    row.status.FAILED? && row.failure.errorMessage.Some? && "enqueue_failed" <= row.failure.errorMessage.value
  }

  /** The partial unique index on `idempotency_key`. */
  ghost predicate KeysUnique(rows: Table) {
    forall a <- rows, b <- rows ::
      rows[a].idempotencyKey.Some? && rows[a].idempotencyKey == rows[b].idempotencyKey ==> a == b
  }

  predicate KeyTaken(rows: Table, key: Option<string>) {
    key.Some? && exists id <- rows :: rows[id].idempotencyKey == key
  }

  datatype InsertOutcome = Created | Existing(id: JobId) | IntegrityFailure

  /** `committing` is the table at the insert; another request may win the key, or delete its holder, around it. */
  method CommitNewJobOrGetExisting(db: Database, env: Environment, id: JobId, row: Row)
    returns (outcome: InsertOutcome, ghost rereading: Table)
    requires id !in db.rows
    modifies db
    ensures outcome.Created? <==> !KeyTaken(old(db.rows), row.idempotencyKey)
    ensures outcome.Created? ==> db.rows == old(db.rows)[id := row] && db.now == old(db.now)
    ensures !outcome.Created? ==> db.rows == rereading && (env.quiet ==> rereading == old(db.rows))
    ensures outcome.Existing? ==>
      outcome.id in rereading && rereading[outcome.id].idempotencyKey == row.idempotencyKey
    ensures outcome.IntegrityFailure? ==> !KeyTaken(rereading, row.idempotencyKey)
    ensures env.quiet ==> !outcome.IntegrityFailure?
    ensures KeysUnique(old(db.rows)) && outcome.Created? ==> KeysUnique(db.rows)
  {
    rereading := db.rows;
    if !KeyTaken(db.rows, row.idempotencyKey) {
      db.rows := db.rows[id := row];
      return Created, rereading;
    }
    env.Act(db);
    rereading := db.rows;
    if existing :| existing in db.rows && db.rows[existing].idempotencyKey == row.idempotencyKey {
      return Existing(existing), rereading;
    }
    outcome := IntegrityFailure;
  }

  /** The enqueue comes first, the QUEUED commit second, and the other actors may act in between. `vanished` is the
      ORM error for an UPDATE of a row deleted meanwhile. */
  method EnqueueOrFail(db: Database, queue: QueueService, env: Environment, id: JobId, origin: nat, down: bool,
                       error: string)
    returns (vanished: bool, ghost committing: Table)
    requires id in db.rows
    modifies db, queue
    ensures down ==> queue.messages == old(queue.messages)
    ensures !down ==>
      queue.messages == old(queue.messages) + [NewMessage(id, origin, old(db.rows[id]).maxAttempts)]
    ensures env.quiet ==> committing == old(db.rows) && db.now == old(db.now)
    ensures vanished <==> id !in committing
    ensures vanished ==> db.rows == committing
    ensures !vanished ==>
      db.rows == committing[id := Stamped(if down then UploadFailed(committing[id], ENQUEUE_FAILED + error)
                                          else Queued(committing[id], |old(queue.messages)|), db.now)]
    ensures !vanished ==>
      db.rows[id] == if down then
                       committing[id].(status := FAILED, updatedAt := db.now,
                                       failure := committing[id].failure.(
                                         errorMessage := Some("enqueue_failed: " + error)))
                     else committing[id].(status := QUEUED, queueJobId := Some(|old(queue.messages)|),
                                          updatedAt := db.now)
  {
    var job := db.Get(id);
    var rqJobId := queue.EnqueueVideoProcessing(id, job.maxAttempts, origin, down);
    env.Act(db);
    committing := db.rows;
    job := db.Get(id);
    if job == null {
      return true, committing;
    }
    vanished := false;
    if rqJobId.None? {
      job.status := FAILED;
      job.failure := job.failure.(errorMessage := Some(ENQUEUE_FAILED + error));
    } else {
      job.queueJobId := rqJobId;
      job.status := QUEUED;
    }
    db.Commit(job);
  }

  /** What the two storage modes do with the uploaded bytes: keep them, or raise. */
  datatype Saving = Kept(path: string) | SaveFails(error: string)

  datatype UploadOutcome = NewKey(id: JobId) | RaceExisting(id: JobId) | Raised

  /** What the upload handler was given: a fresh id, the validated key, the bytes and how the outside world treats
      them. `origin` identifies the call, `down` is Redis being down. */
  datatype UploadRequest = UploadRequest(
    id: JobId, key: Option<string>, filename: string, backend: Backend, saving: Saving, down: bool, error: string,
    origin: nat)

  /** The row after the storage step. A failing object upload is recorded; a failing local save raises. */
  function SavedRow(row: Row, saving: Saving, now: int): Row {
    match saving
    case Kept(path) => if row.backend.LocalStorage? then Stamped(RawSaved(row, path), now) else row
    case SaveFails(error) =>
      if row.backend.LocalStorage? then row else Stamped(UploadFailed(row, OBJECT_UPLOAD_FAILED + error), now)
  }

  method SaveUpload(db: Database, id: JobId, saving: Saving) returns (raised: bool)
    requires id in db.rows
    modifies db`rows
    ensures raised <==> saving.SaveFails? && old(db.rows[id]).backend.LocalStorage?
    ensures db.rows == old(db.rows)[id := SavedRow(old(db.rows[id]), saving, db.now)]
    ensures var before := old(db.rows[id]);
            db.rows[id] == match saving
                           case Kept(path) =>
                             if before.backend.ObjectStorage? then before
                             else before.(raw := Raw(Some(path), before.raw.objectKey), updatedAt := db.now)
                           case SaveFails(error) =>
                             if before.backend.LocalStorage? then before
                             else before.(status := FAILED, updatedAt := db.now,
                                          failure := before.failure.(
                                            errorMessage := Some("object_upload_failed: " + error)))
  {
    var job := db.Get(id);
    assert db.rows == db.rows[id := db.rows[id]];
    match saving {
      case Kept(path) =>
        if job.backend.LocalStorage? {
          job.raw := Raw(Some(path), job.raw.objectKey);
          db.Commit(job);
        }
        return false;
      case SaveFails(error) =>
        if job.backend.LocalStorage? {
          return true;
        }
        job.status := FAILED;
        job.failure := job.failure.(errorMessage := Some(OBJECT_UPLOAD_FAILED + error));
        db.Commit(job);
        return false;
    }
  }

  /** The last transaction of an upload, over the table `last` as the other actors left it. */
  ghost predicate UploadEnds(r: UploadRequest, last: Table, after: Table, before: seq<Message>, pushed: seq<Message>,
                             outcome: UploadOutcome, now: int)
  {
    match outcome
    case RaceExisting(id) =>
      id in last && last[id].idempotencyKey == r.key && after == last && pushed == before
    case Raised =>
      && after == last && (pushed == before || (r.saving.Kept? && !r.down && Pushed(r, before, pushed)))
    case NewKey(id) =>
      && id == r.id && id in last
      && match r.saving
         case SaveFails(error) =>
           && last[id].backend.ObjectStorage? && pushed == before
           && after == last[id := Stamped(UploadFailed(last[id], OBJECT_UPLOAD_FAILED + error), now)]
         case Kept(_) =>
           if r.down then
             && pushed == before
             && after == last[id := Stamped(UploadFailed(last[id], ENQUEUE_FAILED + r.error), now)]
           else Pushed(r, before, pushed) && after == last[id := Stamped(Queued(last[id], |before|), now)]
  }

  ghost predicate Pushed(r: UploadRequest, before: seq<Message>, after: seq<Message>) {
    && |after| == |before| + 1 && before == after[..|before|]
    && var message := after[|before|];
       message.job == r.id && message.origin == r.origin && message.phase.Waiting? && message.left == message.budget
  }

  /** Save, then enqueue, for the row just inserted. */
  method FinishUpload(db: Database, queue: QueueService, env: Environment, r: UploadRequest)
    returns (outcome: UploadOutcome, ghost last: Table)
    modifies db, queue
    ensures UploadEnds(r, last, db.rows, old(queue.messages), queue.messages, outcome, db.now)
    ensures env.quiet && r.id in old(db.rows) ==>
      && r.id in db.rows && db.rows == old(db.rows)[r.id := db.rows[r.id]]
      && UploadLanded(r, old(db.rows[r.id]), db.rows[r.id], old(queue.messages), queue.messages, outcome, db.now)
    ensures outcome in {NewKey(r.id), Raised} && (env.quiet ==> db.now == old(db.now))
  {
    env.Act(db);
    last := db.rows;
    if r.id !in db.rows {
      return Raised, last;
    }
    var raised := SaveUpload(db, r.id, r.saving);
    if raised {
      last := db.rows;
      return Raised, last;
    }
    if r.saving.SaveFails? {
      return NewKey(r.id), last;
    }
    var vanished;
    vanished, last := EnqueueOrFail(db, queue, env, r.id, r.origin, r.down, r.error);
    outcome := if vanished then Raised else NewKey(r.id);
  }

  /** Both storage modes. Whatever the other actors do between its transactions: the insert decides on the key, at most
      one message is pushed, and the last transaction writes over the table `last` what `UploadEnds` says.
      In a quiet environment:
      - a taken key is answered with its holder, and nothing is written or enqueued;
      - otherwise exactly one row is added, and exactly one message if and only if saving and enqueue succeed; the row
        is QUEUED under that very message, or records which of the two failed, or stays UPLOADED if a local save
        raised. */
  method UploadAndProcess(cfg: Settings, db: Database, queue: QueueService, env: Environment, r: UploadRequest)
    returns (outcome: UploadOutcome, ghost last: Table)
    requires r.id !in db.rows
    modifies db, queue
    ensures UploadEnds(r, last, db.rows, old(queue.messages), queue.messages, outcome, db.now)
    ensures outcome.RaceExisting? ==> KeyTaken(old(db.rows), r.key)
    ensures outcome.NewKey? ==> !KeyTaken(old(db.rows), r.key)
    ensures KeyTaken(old(db.rows), r.key) ==> queue.messages == old(queue.messages)
    ensures env.quiet && KeyTaken(old(db.rows), r.key) ==> outcome.RaceExisting? && db.rows == old(db.rows)
    ensures env.quiet && !KeyTaken(old(db.rows), r.key) ==>
      && r.id in db.rows && db.rows == old(db.rows)[r.id := db.rows[r.id]]
      && UploadLanded(r, NewRow(cfg, r.id, r.key, r.filename, r.backend, old(db.now)), db.rows[r.id],
                      old(queue.messages), queue.messages, outcome, db.now)
  {
    var row := NewRow(cfg, r.id, r.key, r.filename, r.backend, db.now);
    var insert;
    insert, last := CommitNewJobOrGetExisting(db, env, r.id, row);
    match insert {
      case Existing(id) => return RaceExisting(id), last;
      case IntegrityFailure => return Raised, last;
      case Created =>
        assert db.rows[r.id] == row;
        ghost var inserted := db.rows;
        outcome, last := FinishUpload(db, queue, env, r);
        assert env.quiet ==> inserted[r.id := db.rows[r.id]] == old(db.rows)[r.id := db.rows[r.id]];
    }
  }

  /** The result of an undisturbed upload of the row `inserted`. */
  ghost predicate UploadLanded(r: UploadRequest, inserted: Row, row: Row, before: seq<Message>, after: seq<Message>,
                               outcome: UploadOutcome, now: int)
  {
    var local := inserted.backend.LocalStorage?;
    match r.saving
    case SaveFails(error) =>
      && after == before && (outcome == if local then Raised else NewKey(r.id))
      && row == if local then inserted else Stamped(UploadFailed(inserted, OBJECT_UPLOAD_FAILED + error), now)
    case Kept(path) =>
      && outcome == NewKey(r.id)
      && after == (if r.down then before else before + [NewMessage(r.id, r.origin, inserted.maxAttempts)])
      && row == Stamped(if r.down then UploadFailed(RawSaved(inserted, path), ENQUEUE_FAILED + r.error)
                        else Queued(RawSaved(inserted, path), |before|), now)
  }

  /** Column by column, what an undisturbed upload leaves behind in each of its five endings. */
  lemma LandedSpelledOut(cfg: Settings, r: UploadRequest, row: Row, before: seq<Message>, after: seq<Message>,
                         outcome: UploadOutcome, now: int)
    requires UploadLanded(r, NewRow(cfg, r.id, r.key, r.filename, r.backend, now), row, before, after, outcome, now)
    ensures
      var local, kept := r.backend.LocalStorage?, r.saving.Kept?;
      var pushed := kept && !r.down;
      var key := "videos/" + r.id + "/raw/" + SafeFilename(r.filename);
      && outcome == (if local && !kept then Raised else NewKey(r.id))
      && after == before + (if pushed then [Message(r.id, r.origin, 3, 3, 0, 0, Waiting)] else [])
      && row == Row(
           r.key, r.filename, r.backend, 3,
           if pushed then QUEUED else if local && !kept then UPLOADED else FAILED,
           0, if pushed then Some(|before|) else None,
           if !local then Raw(Some("s3://" + cfg.rawVideoBucket + "/" + key), Some(key))
           else if kept then Raw(Some(r.saving.path), None) else Raw(None, None),
           Outputs(None, None, None, None),
           FailureMetadata(if pushed || (local && !kept) then None
                           else if kept then Some("enqueue_failed: " + r.error)
                           else Some("object_upload_failed: " + r.saving.error), None, None, false),
           Timing(None, None, None), Retries(0, None), CleanupMark(None, None), now)
  {
    KeysSpelledOut(r.id, r.filename);
    assert before + [] == before;
  }
}
