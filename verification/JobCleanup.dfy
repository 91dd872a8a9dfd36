/** backend/app/services/job_cleanup_service.py: one cleanup pass over the oldest finished rows. */
module JobCleanup {
  import opened Common
  import opened CleanupRules
  import opened VideoJobs

  datatype Retention = Retention(completedAfterDays: int, failedAfterDays: int)

  /** What the pass selects in SQL: finished rows that were not cleaned. */
  predicate Eligible(row: Row) {
    row.cleanup.cleanedUpAt.None? && (row.status.COMPLETED? || row.status.FAILED?)
  }

  ghost predicate Distinct(ids: seq<JobId>) {
    forall i, j | 0 <= i < j < |ids| :: ids[i] != ids[j]
  }

  /** The first `limit` eligible rows by `updated_at`. The limit is applied before the retention rules are. */
  ghost predicate IsBatch(rows: Table, limit: nat, batch: seq<JobId>) {
    && Distinct(batch) && |batch| <= limit
    && (forall id <- batch :: id in rows && Eligible(rows[id]))
    && (forall i, j | 0 <= i < j < |batch| :: rows[batch[i]].updatedAt <= rows[batch[j]].updatedAt)
    && (forall id <- rows | Eligible(rows[id]) && id !in batch ::
          |batch| == limit && forall other <- batch :: rows[other].updatedAt <= rows[id].updatedAt)
  }

  function Candidates(rows: Table, batch: seq<JobId>, keep: Retention, now: int): (found: seq<JobId>)
    requires forall id <- batch :: id in rows
    ensures forall id ::
      id in found <==> id in batch && IsCleanupCandidate(rows[id], now, keep.completedAfterDays, keep.failedAfterDays)
    ensures Distinct(batch) ==> Distinct(found)
  {
    if batch == [] then []
    else
      var rest := Candidates(rows, batch[1..], keep, now);
      if IsCleanupCandidate(rows[batch[0]], now, keep.completedAfterDays, keep.failedAfterDays)
      then [batch[0]] + rest else rest
  }

  /** Rows and objects, as one pass changes them. */
  datatype World = World(rows: Table, store: set<ObjectRef>)

  /** `broken` are the objects whose deletion fails in this pass, with the message `error`. */
  datatype Pass = Pass(now: int, deleteRows: bool, broken: set<ObjectRef>, error: string)

  /** The deletions stop at the first one that fails. */
  function DeleteObjects(store: set<ObjectRef>, refs: seq<ObjectRef>, broken: set<ObjectRef>): (set<ObjectRef>, bool) {
    if refs == [] then (store, true)
    else if refs[0] in broken then (store, false)
    else DeleteObjects(store - {refs[0]}, refs[1..], broken)
  }

  /** Some referenced object cannot be deleted. */
  predicate Blocked(cfg: Settings, row: Row, broken: set<ObjectRef>) {
    exists ref <- ObjectReferences(cfg, row) :: ref in broken
  }

  lemma {:induction false} DeletionStopsAtBroken(store: set<ObjectRef>, refs: seq<ObjectRef>, broken: set<ObjectRef>)
    ensures DeleteObjects(store, refs, broken).1 <==> forall ref <- refs :: ref !in broken
    ensures DeleteObjects(store, refs, broken).1 ==> DeleteObjects(store, refs, broken).0 == store - set ref <- refs
    ensures store - (set ref <- refs) <= DeleteObjects(store, refs, broken).0 <= store
  {
    if refs != [] && refs[0] !in broken {
      DeletionStopsAtBroken(store - {refs[0]}, refs[1..], broken);
      assert refs == [refs[0]] + refs[1..];
    }
  }

  lemma {:induction false} DeletionSparesBroken(store: set<ObjectRef>, refs: seq<ObjectRef>, broken: set<ObjectRef>)
    ensures broken * store <= DeleteObjects(store, refs, broken).0
  {
    if refs != [] && refs[0] !in broken {
      DeletionSparesBroken(store - {refs[0]}, refs[1..], broken);
    }
  }

  function CleanOne(cfg: Settings, w: World, id: JobId, p: Pass): World {
    if id !in w.rows then w
    else
      var (store, ok) := DeleteObjects(w.store, ObjectReferences(cfg, w.rows[id]), p.broken);
      if !ok then World(w.rows[id := Stamped(CleanupFailed(w.rows[id], p.error), p.now)], store)
      else if p.deleteRows then World(w.rows - {id}, store)
      else World(w.rows[id := Stamped(CleanedUp(w.rows[id], p.now), p.now)], store)
  }

  /** One cleanup in terms of the columns: all of a row's objects go and the row loses its references or goes itself,
      or one object cannot be deleted, which stays, and the row only records the error. */
  lemma CleanOneSpelledOut(cfg: Settings, w: World, id: JobId, p: Pass)
    requires id in w.rows
    ensures var row, after := w.rows[id], CleanOne(cfg, w, id, p);
            var named := (if Truthy(row.raw.objectKey)
                          then {ObjectRef(cfg.rawVideoBucket, row.raw.objectKey.value)} else {})
                         + (if Truthy(row.outputs.processedObjectKey)
                            then {ObjectRef(cfg.processedVideoBucket, row.outputs.processedObjectKey.value)} else {})
                         + (if Truthy(row.outputs.thumbnailObjectKey)
                            then {ObjectRef(cfg.thumbnailBucket, row.outputs.thumbnailObjectKey.value)} else {});
            if named !! p.broken then
              && after.store == w.store - named
              && after.rows == if p.deleteRows then w.rows - {id}
                               else w.rows[id := row.(cleanup := CleanupMark(Some(p.now), None), raw := Raw(None, None),
                                                      outputs := Outputs(None, None, None, None), updatedAt := p.now)]
            else
              && w.store - named + p.broken * w.store <= after.store <= w.store
              && after.rows
                 == w.rows[id := row.(cleanup := CleanupMark(row.cleanup.cleanedUpAt,
                                                             Some(if |p.error| > 8000 then p.error[..8000]
                                                                  else p.error)),
                                      updatedAt := p.now)]
  {
    DeletionSparesBroken(w.store, ObjectReferences(cfg, w.rows[id]), p.broken);
    DeletionStopsAtBroken(w.store, ObjectReferences(cfg, w.rows[id]), p.broken);
  }

  function CleanAll(cfg: Settings, w: World, ids: seq<JobId>, p: Pass): World
    decreases |ids|
  {
    if ids == [] then w else CleanAll(cfg, CleanOne(cfg, w, ids[0], p), ids[1..], p)
  }

  lemma CleanAllUnfolds(cfg: Settings, w: World, ids: seq<JobId>, i: nat, p: Pass)
    requires i < |ids|
    ensures CleanAll(cfg, w, ids[i..], p) == CleanAll(cfg, CleanOne(cfg, w, ids[i], p), ids[i + 1..], p)
  {
    assert ids[i..][0] == ids[i] && ids[i..][1..] == ids[i + 1..];
  }

  class ObjectStorage {
    var objects: set<ObjectRef>
    const broken: set<ObjectRef>

    constructor (broken: set<ObjectRef>)
      ensures objects == {} && this.broken == broken
    {
      objects, this.broken := {}, broken;
    }

    /** Deleting a missing object succeeds; an unreachable one raises. */
    method DeleteObject(ref: ObjectRef) returns (ok: bool)
      modifies this
      ensures ok <==> ref !in broken
      ensures objects == if ok then old(objects) - {ref} else old(objects)
    {
      ok := ref !in broken;
      if ok {
        objects := objects - {ref};
      }
    }
  }

  datatype CleanupResult = CleanupResult(
    inspected: nat, candidates: seq<JobId>, cleaned: seq<JobId>, failed: seq<JobId>)

  class JobCleanupService {
    const enabled: bool

    constructor (enabled: bool)
      ensures this.enabled == enabled
    {
      this.enabled := enabled;
    }

    method CandidateJobs(db: Database, limit: nat) returns (batch: seq<JobId>)
      ensures IsBatch(db.rows, limit, batch)
      ensures forall id <- batch :: id in db.rows
      ensures forall id <- db.rows ::
        var row := db.rows[id];
        if row.cleanup.cleanedUpAt.None? && (row.status.COMPLETED? || row.status.FAILED?) then
          id in batch || (|batch| == limit && forall other <- batch :: db.rows[other].updatedAt <= row.updatedAt)
        else id !in batch
    {
      batch := [];
      var rest := set id | id in db.rows && Eligible(db.rows[id]);
      while |batch| < limit && rest != {}
        invariant |batch| <= limit && Distinct(batch)
        invariant forall id ::
          id in batch || id in rest <==> id in db.rows && Eligible(db.rows[id])
        invariant forall id <- batch :: id !in rest
        invariant forall i, j | 0 <= i < j < |batch| :: db.rows[batch[i]].updatedAt <= db.rows[batch[j]].updatedAt
        invariant forall id <- rest, other <- batch :: db.rows[other].updatedAt <= db.rows[id].updatedAt
        decreases rest
      {
        var oldest := Oldest(db, rest);
        batch := batch + [oldest];
        rest := rest - {oldest};
      }
    }

    method Oldest(db: Database, ids: set<JobId>) returns (oldest: JobId)
      requires ids != {} && forall id <- ids :: id in db.rows
      ensures oldest in ids && forall id <- ids :: db.rows[oldest].updatedAt <= db.rows[id].updatedAt
    {
      oldest :| oldest in ids;
      var rest := ids - {oldest};
      while rest != {}
        invariant rest <= ids && oldest in ids
        invariant forall id <- ids - rest :: db.rows[oldest].updatedAt <= db.rows[id].updatedAt
        decreases rest
      {
        var id :| id in rest;
        if db.rows[id].updatedAt < db.rows[oldest].updatedAt {
          oldest := id;
        }
        rest := rest - {id};
      }
    }

    method DeleteReferences(storage: ObjectStorage, refs: seq<ObjectRef>) returns (ok: bool)
      modifies storage
      ensures (storage.objects, ok) == DeleteObjects(old(storage.objects), refs, storage.broken)
    {
      ghost var start := storage.objects;
      for i := 0 to |refs|
        invariant DeleteObjects(start, refs, storage.broken)
               == DeleteObjects(storage.objects, refs[i..], storage.broken)
      {
        assert refs[i..][0] == refs[i] && refs[i..][1..] == refs[i + 1..];
        var deleted := storage.DeleteObject(refs[i]);
        if !deleted {
          return false;
        }
      }
      assert refs[|refs|..] == [];
      ok := true;
    }

    /** Deletes the objects first, and only then the row or its references. */
    method CleanupOne(cfg: Settings, db: Database, storage: ObjectStorage, job: VideoJob, deleteRows: bool)
      returns (ok: bool)
      requires job.id in db.rows && job.AsRow() == db.rows[job.id]
      modifies db`rows, storage, job
      ensures (storage.objects, ok) ==
        DeleteObjects(old(storage.objects), ObjectReferences(cfg, old(job.AsRow())), storage.broken)
      ensures !ok ==> db.rows == old(db.rows) && job.AsRow() == old(job.AsRow())
      ensures ok && deleteRows ==> db.rows == old(db.rows) - {job.id}
      ensures ok && !deleteRows ==>
        db.rows == old(db.rows)[job.id := Stamped(CleanedUp(old(job.AsRow()), db.now), db.now)]
      ensures ok && !deleteRows ==>
        db.rows[job.id] == old(job.AsRow()).(
          cleanup := CleanupMark(Some(db.now), None), raw := Raw(None, None),
          outputs := Outputs(None, None, None, None), updatedAt := db.now)
    {
      ok := DeleteReferences(storage, ObjectReferences(cfg, job.AsRow()));
      if !ok {
        return;
      }
      if deleteRows {
        db.rows := db.rows - {job.id};
        return;
      }
      job.cleanup := CleanupMark(Some(db.now), None);
      job.raw := NO_RAW;
      job.outputs := NO_OUTPUTS;
      db.Commit(job);
    }

    /** One candidate, with the exception handler around its cleanup. */
    method CleanCandidate(cfg: Settings, db: Database, storage: ObjectStorage, id: JobId, deleteRows: bool,
                          error: string)
      returns (ok: bool)
      requires id in db.rows
      modifies db`rows, storage
      ensures World(db.rows, storage.objects)
           == CleanOne(cfg, World(old(db.rows), old(storage.objects)), id,
                       Pass(db.now, deleteRows, storage.broken, error))
      ensures ok <==> !Blocked(cfg, old(db.rows[id]), storage.broken)
      ensures forall other <- old(db.rows) | other != id :: other in db.rows && db.rows[other] == old(db.rows[other])
    {
      DeletionStopsAtBroken(storage.objects, ObjectReferences(cfg, db.rows[id]), storage.broken);
      var job := db.Get(id);
      ok := CleanupOne(cfg, db, storage, job, deleteRows);
      if !ok {
        job.cleanup := job.cleanup.(errorMessage := Some(Truncated(error)));
        db.Commit(job);
      }
    }

    method CleanCandidates(cfg: Settings, db: Database, storage: ObjectStorage, candidates: seq<JobId>,
                           deleteRows: bool, error: string)
      returns (cleaned: seq<JobId>, failed: seq<JobId>)
      requires Distinct(candidates) && forall id <- candidates :: id in db.rows
      modifies db`rows, storage
      ensures World(db.rows, storage.objects)
           == CleanAll(cfg, World(old(db.rows), old(storage.objects)), candidates,
                       Pass(db.now, deleteRows, storage.broken, error))
      ensures Filed(cfg, old(db.rows), storage.broken, candidates, cleaned, failed)
    {
      cleaned, failed := [], [];
      ghost var p, start := Pass(db.now, deleteRows, storage.broken, error), World(db.rows, storage.objects);
      for i := 0 to |candidates|
        invariant CleanAll(cfg, start, candidates, p)
               == CleanAll(cfg, World(db.rows, storage.objects), candidates[i..], p)
        invariant Filed(cfg, start.rows, storage.broken, candidates[..i], cleaned, failed)
        invariant Untouched(start.rows, db.rows, candidates[i..])
      {
        var id := candidates[i];
        assert candidates[i..][0] == id;
        CleanAllUnfolds(cfg, World(db.rows, storage.objects), candidates, i, p);
        var ok := CleanCandidate(cfg, db, storage, id, deleteRows, error);
        FiledOneMore(cfg, start.rows, storage.broken, candidates, i, cleaned, failed);
        if ok {
          cleaned := cleaned + [id];
        } else {
          failed := failed + [id];
        }
      }
      assert candidates[..|candidates|] == candidates;
    }

    /** One pass without other writers. `limit` and `keep` are the effective values, after the defaults from the
        settings have been filled in; `batch` is the SQL snapshot. A dry run and a disabled cleanup change nothing;
        a real pass does to rows and objects exactly what `CleanAll` does, and files every candidate as cleaned or
        failed. */
    method Cleanup(cfg: Settings, db: Database, storage: ObjectStorage, dryRun: bool, limit: nat, keep: Retention,
                   deleteRows: bool, error: string)
      returns (result: CleanupResult, ghost batch: seq<JobId>)
      modifies db`rows, storage
      ensures !enabled ==> result == CleanupResult(0, [], [], [])
      ensures enabled ==> IsBatch(old(db.rows), limit, batch)
      ensures enabled ==>
        result.inspected == |batch| && result.candidates == Candidates(old(db.rows), batch, keep, db.now)
      ensures forall id :: id in result.candidates <==>
        && enabled && id in batch
        && var row := old(db.rows)[id];
           var completed := if row.timing.completedAt.Some? then row.timing.completedAt.value else row.updatedAt;
           var failed := if row.failure.failedAt.Some? then row.failure.failedAt.value else row.updatedAt;
           && row.cleanup.cleanedUpAt.None?
           && (|| (row.status.COMPLETED? && db.now - completed >= 86400 * keep.completedAfterDays)
               || (row.status.FAILED? && row.failure.retryExhausted
                   && db.now - failed >= 86400 * keep.failedAfterDays))
      ensures !enabled || dryRun ==>
        db.rows == old(db.rows) && storage.objects == old(storage.objects) && result.cleaned == result.failed == []
      ensures enabled && !dryRun ==>
        && World(db.rows, storage.objects)
           == CleanAll(cfg, World(old(db.rows), old(storage.objects)), result.candidates,
                       Pass(db.now, deleteRows, storage.broken, error))
        && Filed(cfg, old(db.rows), storage.broken, result.candidates, result.cleaned, result.failed)
    {
      batch := [];
      if !enabled {
        return CleanupResult(0, [], [], []), batch;
      }
      var jobs := CandidateJobs(db, limit);
      batch := jobs;
      var candidates := Candidates(db.rows, jobs, keep, db.now);
      if dryRun {
        return CleanupResult(|jobs|, candidates, [], []), batch;
      }
      var cleaned, failed := CleanCandidates(cfg, db, storage, candidates, deleteRows, error);
      result := CleanupResult(|jobs|, candidates, cleaned, failed);
    }
  }

  ghost predicate Untouched(before: Table, after: Table, ids: seq<JobId>) {
    forall id <- ids :: id in before && id in after && after[id] == before[id]
  }

  /** Every id of `done` is in exactly one list: `failed` if an object of its row cannot be deleted, else `cleaned`. */
  ghost predicate Filed(cfg: Settings, rows: Table, broken: set<ObjectRef>, done: seq<JobId>, cleaned: seq<JobId>,
                        failed: seq<JobId>)
  {
    && multiset(cleaned) + multiset(failed) == multiset(done)
    && (forall id <- done :: id in rows)
    && (forall id <- cleaned :: id in done && !Blocked(cfg, rows[id], broken))
    && (forall id <- failed :: id in done && Blocked(cfg, rows[id], broken))
  }

  lemma FiledOneMore(cfg: Settings, rows: Table, broken: set<ObjectRef>, ids: seq<JobId>, i: nat, cleaned: seq<JobId>,
                     failed: seq<JobId>)
    requires i < |ids| && Filed(cfg, rows, broken, ids[..i], cleaned, failed) && ids[i] in rows
    ensures !Blocked(cfg, rows[ids[i]], broken) ==> Filed(cfg, rows, broken, ids[..i + 1], cleaned + [ids[i]], failed)
    ensures Blocked(cfg, rows[ids[i]], broken) ==> Filed(cfg, rows, broken, ids[..i + 1], cleaned, failed + [ids[i]])
  {
    assert ids[..i + 1] == ids[..i] + [ids[i]];
  }
}
