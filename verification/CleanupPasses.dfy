/** What any sequence of cleanup passes does to rows and objects, whatever deletions fail. */
module CleanupPasses {
  import opened CleanupRules
  import opened JobCleanup
  import Lifecycle
  import opened LifecycleInvariant
  import opened ObjectKeys
  import opened ReachableStates
  import opened VideoJobs

  /** One pass over the snapshot `batch`. */
  datatype Round = Round(limit: nat, batch: seq<JobId>, keep: Retention, pass: Pass)

  function Chosen(w: World, r: Round): seq<JobId>
    requires forall id <- r.batch :: id in w.rows
  {
    Candidates(w.rows, r.batch, r.keep, r.pass.now)
  }

  function AfterRound(cfg: Settings, w: World, r: Round): World
    requires forall id <- r.batch :: id in w.rows
  {
    CleanAll(cfg, w, Chosen(w, r), r.pass)
  }

  ghost predicate Valid(cfg: Settings, w: World, rounds: seq<Round>)
    decreases |rounds|
  {
    rounds == []
    || (IsBatch(w.rows, rounds[0].limit, rounds[0].batch) && Valid(cfg, AfterRound(cfg, w, rounds[0]), rounds[1..]))
  }

  ghost function After(cfg: Settings, w: World, rounds: seq<Round>): World
    requires Valid(cfg, w, rounds)
    decreases |rounds|
  {
    if rounds == [] then w else After(cfg, AfterRound(cfg, w, rounds[0]), rounds[1..])
  }

  predicate SameReferences(before: Row, after: Row) {
    after.raw == before.raw && after.outputs == before.outputs
  }

  // References are given up only after their objects are gone

  ghost predicate AllGone(refs: seq<ObjectRef>, store: set<ObjectRef>) {
    forall ref <- refs :: ref !in store
  }

  /** The row still holds every reference it had, or every object it referenced has been deleted. */
  ghost predicate Accounted(cfg: Settings, before: World, after: World, id: JobId)
    requires id in before.rows
  {
    || (id in after.rows && SameReferences(before.rows[id], after.rows[id]))
    || AllGone(ObjectReferences(cfg, before.rows[id]), after.store)
  }

  lemma OneStaysAccounted(cfg: Settings, before: World, w: World, id: JobId, p: Pass, other: JobId)
    requires other in before.rows && Accounted(cfg, before, w, other)
    ensures Accounted(cfg, before, CleanOne(cfg, w, id, p), other)
  {
    if id in w.rows {
      DeletionStopsAtBroken(w.store, ObjectReferences(cfg, w.rows[id]), p.broken);
    }
  }

  lemma {:induction false} AllStayAccounted(cfg: Settings, before: World, w: World, ids: seq<JobId>, p: Pass,
                                            other: JobId)
    requires other in before.rows && Accounted(cfg, before, w, other)
    ensures Accounted(cfg, before, CleanAll(cfg, w, ids, p), other)
    decreases |ids|
  {
    if ids != [] {
      OneStaysAccounted(cfg, before, w, ids[0], p, other);
      AllStayAccounted(cfg, before, CleanOne(cfg, w, ids[0], p), ids[1..], p, other);
    }
  }

  lemma {:induction false} RoundsStayAccounted(cfg: Settings, before: World, w: World, rounds: seq<Round>, other: JobId)
    requires other in before.rows && Accounted(cfg, before, w, other) && Valid(cfg, w, rounds)
    ensures Accounted(cfg, before, After(cfg, w, rounds), other)
    decreases |rounds|
  {
    if rounds != [] {
      AllStayAccounted(cfg, before, w, Chosen(w, rounds[0]), rounds[0].pass, other);
      RoundsStayAccounted(cfg, before, AfterRound(cfg, w, rounds[0]), rounds[1..], other);
    }
  }

  /** Over any number of passes with any failures: a row loses a reference, or is deleted, only after all the objects
      it referenced were deleted. */
  lemma ReferencesOutliveObjects(cfg: Settings, w: World, rounds: seq<Round>, id: JobId)
    requires Valid(cfg, w, rounds) && id in w.rows
    ensures Accounted(cfg, w, After(cfg, w, rounds), id)
  {
    RoundsStayAccounted(cfg, w, w, rounds, id);
  }

  // One pass, job by job

  lemma {:induction false} CleanAllFrame(cfg: Settings, w: World, ids: seq<JobId>, p: Pass, id: JobId)
    requires id !in ids
    ensures id in CleanAll(cfg, w, ids, p).rows <==> id in w.rows
    ensures id in w.rows ==> CleanAll(cfg, w, ids, p).rows[id] == w.rows[id]
    ensures CleanAll(cfg, w, ids, p).store <= w.store
    decreases |ids|
  {
    if ids != [] {
      StoreShrinks(cfg, w, ids[0], p);
      CleanAllFrame(cfg, CleanOne(cfg, w, ids[0], p), ids[1..], p, id);
    }
  }

  lemma StoreShrinks(cfg: Settings, w: World, id: JobId, p: Pass)
    ensures CleanOne(cfg, w, id, p).store <= w.store
  {
    if id in w.rows {
      DeletionStopsAtBroken(w.store, ObjectReferences(cfg, w.rows[id]), p.broken);
    }
  }

  ghost predicate Finished(cfg: Settings, row: Row, after: World, id: JobId, p: Pass) {
    && AllGone(ObjectReferences(cfg, row), after.store)
    && if p.deleteRows then id !in after.rows
       else id in after.rows && after.rows[id] == Stamped(CleanedUp(row, p.now), p.now)
  }

  ghost predicate Postponed(row: Row, after: World, id: JobId, p: Pass) {
    id in after.rows && after.rows[id] == Stamped(CleanupFailed(row, p.error), p.now)
  }

  lemma {:induction false} CleanAllDecides(cfg: Settings, w: World, ids: seq<JobId>, p: Pass, id: JobId)
    requires Distinct(ids) && id in ids && id in w.rows
    ensures Blocked(cfg, w.rows[id], p.broken) ==> Postponed(w.rows[id], CleanAll(cfg, w, ids, p), id, p)
    ensures !Blocked(cfg, w.rows[id], p.broken) ==> Finished(cfg, w.rows[id], CleanAll(cfg, w, ids, p), id, p)
    decreases |ids|
  {
    var next := CleanOne(cfg, w, ids[0], p);
    if id == ids[0] {
      DeletionStopsAtBroken(w.store, ObjectReferences(cfg, w.rows[id]), p.broken);
      CleanAllFrame(cfg, next, ids[1..], p, id);
    } else {
      CleanAllDecides(cfg, next, ids[1..], p, id);
    }
  }

  /** A pass finishes a candidate if and only if none of its objects is broken: then its objects are gone and its row
      is deleted or stripped. Otherwise the row keeps every reference, remains a candidate for every later pass with
      the same retention, and moves behind all rows not touched since. The failure times are in place in every
      reachable state (`ReachableStates.RowsAreCoherent`). */
  lemma PassDecides(cfg: Settings, w: World, r: Round, id: JobId, later: int)
    requires IsBatch(w.rows, r.limit, r.batch) && id in Chosen(w, r) && later >= r.pass.now
    requires w.rows[id].status.COMPLETED? ==> w.rows[id].timing.completedAt.Some?
    requires w.rows[id].status.FAILED? ==> w.rows[id].failure.failedAt.Some?
    ensures var after := AfterRound(cfg, w, r);
            if Blocked(cfg, w.rows[id], r.pass.broken) then
              && id in after.rows && SameReferences(w.rows[id], after.rows[id])
              && IsCleanupCandidate(after.rows[id], later, r.keep.completedAfterDays, r.keep.failedAfterDays)
              && after.rows[id].updatedAt == r.pass.now
            else
              && AllGone(ObjectReferences(cfg, w.rows[id]), after.store)
              && (if r.pass.deleteRows then id !in after.rows
                  else && id in after.rows && after.rows[id].cleanup.cleanedUpAt.Some?
                       && ObjectReferences(cfg, after.rows[id]) == [])
  {
    CleanAllDecides(cfg, w, Chosen(w, r), r.pass, id);
  }

  // Other jobs

  ghost predicate Owned(cfg: Settings, rows: Table) {
    forall id <- rows :: SlashFree(id) && forall ref <- ObjectReferences(cfg, rows[id]) :: OwnKey(id, ref.key)
  }

  /** In every reachable state the rows only name keys below their own prefix. */
  lemma ReachableTablesAreOwned(cfg: Settings, begin: int, s: Lifecycle.State)
    requires Reaches(Lifecycle.Init(cfg, begin), s)
    ensures Owned(cfg, s.rows)
  {
    ReachedInv(cfg, begin, s);
    forall id <- s.rows
      ensures SlashFree(id) && forall ref <- ObjectReferences(cfg, s.rows[id]) :: OwnKey(id, ref.key)
    {
      assert RowOk(id, s.rows[id]);
      ReferencesAreOwn(cfg, id, s.rows[id]);
    }
  }

  lemma {:induction false} RemovedObjectsWereReferenced(cfg: Settings, w: World, ids: seq<JobId>, p: Pass,
                                                        ref: ObjectRef) returns (owner: JobId)
    requires Distinct(ids) && ref in w.store && ref !in CleanAll(cfg, w, ids, p).store
    ensures owner in ids && owner in w.rows && ref in ObjectReferences(cfg, w.rows[owner])
    decreases |ids|
  {
    var next := CleanOne(cfg, w, ids[0], p);
    if ref in next.store {
      owner := RemovedObjectsWereReferenced(cfg, next, ids[1..], p, ref);
    } else {
      owner := ids[0];
      DeletionStopsAtBroken(w.store, ObjectReferences(cfg, w.rows[owner]), p.broken);
    }
  }

  /** Cleaning one job never deletes another job's object: what is below the prefix of a job that is not a candidate
      stays in the store, whether its row mentions it or not. */
  lemma OtherJobsKeepTheirObjects(cfg: Settings, w: World, r: Round, id: JobId, ref: ObjectRef)
    requires IsBatch(w.rows, r.limit, r.batch) && Owned(cfg, w.rows)
    requires id !in Chosen(w, r) && SlashFree(id) && OwnKey(id, ref.key) && ref in w.store
    ensures ref in AfterRound(cfg, w, r).store
    ensures id in w.rows ==> id in AfterRound(cfg, w, r).rows && AfterRound(cfg, w, r).rows[id] == w.rows[id]
  {
    CleanAllFrame(cfg, w, Chosen(w, r), r.pass, id);
    if ref !in AfterRound(cfg, w, r).store {
      var owner := RemovedObjectsWereReferenced(cfg, w, Chosen(w, r), r.pass, ref);
      OwnersAreDisjoint(id, owner, ref.key);
    }
  }
}
