/** How far cleanup gets: what one pass removes from the backlog, and how the backlog can stop moving for good. */
module CleanupProgress {
  import opened CleanupPasses
  import opened CleanupRules
  import opened JobCleanup
  import opened VideoJobs

  /** The finished rows that still wait for a cleanup. */
  ghost function Backlog(rows: Table): set<JobId> {
    set id | id in rows && Eligible(rows[id])
  }

  ghost function Elements(ids: seq<JobId>): set<JobId> {
    set id <- ids
  }

  lemma {:induction false} DistinctElements(ids: seq<JobId>)
    requires Distinct(ids)
    ensures |Elements(ids)| == |ids|
  {
    if ids != [] {
      DistinctElements(ids[1..]);
      assert ids[0] !in Elements(ids[1..]) && Elements(ids) == {ids[0]} + Elements(ids[1..]);
    }
  }

  lemma SubsetSize(small: set<JobId>, large: set<JobId>)
    requires small <= large
    ensures |small| <= |large| && (|small| == |large| ==> small == large)
  {
    assert large == small + (large - small);
  }

  /** A snapshot takes the whole backlog or exactly `limit` rows of it. */
  lemma BatchSize(rows: Table, limit: nat, batch: seq<JobId>)
    requires IsBatch(rows, limit, batch)
    ensures Elements(batch) <= Backlog(rows) && |batch| == (if |Backlog(rows)| < limit then |Backlog(rows)| else limit)
  {
    DistinctElements(batch);
    SubsetSize(Elements(batch), Backlog(rows));
    if |batch| < limit {
      assert Elements(batch) == Backlog(rows);
    }
  }

  ghost predicate Done(cfg: Settings, w: World, r: Round, id: JobId)
    requires forall job <- r.batch :: job in w.rows
  {
    id in Chosen(w, r) && !Blocked(cfg, w.rows[id], r.pass.broken)
  }

  lemma LeavesBacklog(cfg: Settings, w: World, r: Round, id: JobId)
    requires IsBatch(w.rows, r.limit, r.batch)
    ensures id in Backlog(AfterRound(cfg, w, r).rows) <==> id in Backlog(w.rows) && !Done(cfg, w, r, id)
  {
    if id in Chosen(w, r) {
      CleanAllDecides(cfg, w, Chosen(w, r), r.pass, id);
    } else {
      CleanAllFrame(cfg, w, Chosen(w, r), r.pass, id);
    }
  }

  /** A pass removes from the backlog exactly the candidates whose objects could be deleted. */
  lemma PassShrinksBacklog(cfg: Settings, w: World, r: Round)
    requires IsBatch(w.rows, r.limit, r.batch)
    ensures Backlog(AfterRound(cfg, w, r).rows) == set id | id in Backlog(w.rows) && !Done(cfg, w, r, id)
  {
    var before, after := Backlog(w.rows), Backlog(AfterRound(cfg, w, r).rows);
    forall id: JobId ensures id in after <==> id in before && !Done(cfg, w, r, id) {
      LeavesBacklog(cfg, w, r, id);
    }
  }

  /** So when every selected row is past its retention and nothing fails, it removes `limit` rows or all of them. */
  lemma FullPassSize(cfg: Settings, w: World, r: Round)
    requires IsBatch(w.rows, r.limit, r.batch) && forall id <- r.batch :: Done(cfg, w, r, id)
    ensures |Backlog(AfterRound(cfg, w, r).rows)|
         == if |Backlog(w.rows)| < r.limit then 0 else |Backlog(w.rows)| - r.limit
  {
    PassShrinksBacklog(cfg, w, r);
    BatchSize(w.rows, r.limit, r.batch);
    DistinctElements(r.batch);
    assert Backlog(AfterRound(cfg, w, r).rows) == Backlog(w.rows) - Elements(r.batch);
  }

  // Starvation

  /** A FAILED row that may still be retried is selected by every pass and kept by every pass. */
  predicate Blocker(row: Row) {
    row.status.FAILED? && !row.failure.retryExhausted && row.cleanup.cleanedUpAt.None?
  }

  ghost predicate OldestAreBlockers(rows: Table, blockers: set<JobId>) {
    && (forall id <- blockers :: id in rows && Blocker(rows[id]))
    && (forall id <- blockers, other <- rows | Eligible(rows[other]) && other !in blockers ::
          rows[id].updatedAt < rows[other].updatedAt)
  }

  lemma BatchIsBlocked(rows: Table, limit: nat, batch: seq<JobId>, blockers: set<JobId>)
    requires IsBatch(rows, limit, batch) && OldestAreBlockers(rows, blockers) && limit <= |blockers|
    ensures Elements(batch) <= blockers
  {
    DistinctElements(batch);
    forall x <- batch ensures x in blockers {
      if x !in blockers {
        assert forall y <- blockers :: y in batch;
        SubsetSize(blockers, Elements(batch));
      }
    }
  }

  /** The limit is applied before the retention rules, so `limit` old rows that are not exhausted, such as uploads
      whose enqueue failed, stop cleanup for good: no later pass with that limit changes a row or deletes an object,
      however many rows are past their retention and however much time goes by. */
  lemma {:induction false} BlockersStarveCleanup(cfg: Settings, w: World, rounds: seq<Round>, blockers: set<JobId>)
    requires Valid(cfg, w, rounds) && OldestAreBlockers(w.rows, blockers)
    requires forall r <- rounds :: r.limit <= |blockers|
    ensures After(cfg, w, rounds) == w
    decreases |rounds|
  {
    if rounds != [] {
      var r := rounds[0];
      assert Chosen(w, r) == [] || Chosen(w, r)[0] in Chosen(w, r);
      BatchIsBlocked(w.rows, r.limit, r.batch, blockers);
      assert forall id <- r.batch :: id in Elements(r.batch);
      assert forall id :: id !in Chosen(w, r);
      BlockersStarveCleanup(cfg, w, rounds[1..], blockers);
    }
  }

  // Progress

  predicate Expired(row: Row, now: int, keep: Retention) {
    IsCleanupCandidate(row, now, keep.completedAfterDays, keep.failedAfterDays)
  }

  /** Exactly when a pass makes no progress on a backlog in which every row is a blocker or is expired and deletable:
      when its whole snapshot consists of blockers. */
  lemma PassStallsIff(cfg: Settings, w: World, r: Round)
    requires IsBatch(w.rows, r.limit, r.batch)
    requires forall id <- Backlog(w.rows) ::
      || Blocker(w.rows[id])
      || (Expired(w.rows[id], r.pass.now, r.keep) && !Blocked(cfg, w.rows[id], r.pass.broken))
    ensures Backlog(AfterRound(cfg, w, r).rows) == Backlog(w.rows) <==> forall id <- r.batch :: Blocker(w.rows[id])
  {
    PassShrinksBacklog(cfg, w, r);
    BatchSize(w.rows, r.limit, r.batch);
    forall id <- r.batch ensures Done(cfg, w, r, id) <==> !Blocker(w.rows[id]) {
      assert id in Elements(r.batch) && id in Backlog(w.rows);
    }
    if exists id <- r.batch :: !Blocker(w.rows[id]) {
      var id :| id in r.batch && !Blocker(w.rows[id]);
      assert id in Backlog(w.rows) && id !in Backlog(AfterRound(cfg, w, r).rows);
    } else {
      assert forall id <- Backlog(w.rows) :: !Done(cfg, w, r, id);
    }
  }

  /** Expired rows of the backlog whose objects this pass can delete. */
  ghost predicate Deletable(cfg: Settings, w: World, expired: set<JobId>, r: Round) {
    && expired <= Backlog(w.rows)
    && forall id <- expired :: Expired(w.rows[id], r.pass.now, r.keep) && !Blocked(cfg, w.rows[id], r.pass.broken)
  }

  lemma Remaining(backlog: set<JobId>, batch: set<JobId>, expired: set<JobId>, limit: nat, others: nat)
    requires batch <= backlog && expired <= backlog && |backlog - expired| <= others < limit
    requires |batch| == if |backlog| < limit then |backlog| else limit
    ensures |expired - batch| <= if |expired| <= limit - others then 0 else |expired| - (limit - others)
  {
    SubsetSize(batch, backlog);
    assert backlog == expired + (backlog - expired);
    assert batch == batch * expired + batch * (backlog - expired);
    SubsetSize(batch * (backlog - expired), backlog - expired);
    assert expired == (expired - batch) + batch * expired;
    SubsetSize(batch * expired, expired);
  }

  lemma ExpiredIsDone(cfg: Settings, w: World, r: Round, expired: set<JobId>, id: JobId)
    requires IsBatch(w.rows, r.limit, r.batch) && Deletable(cfg, w, expired, r) && id in expired
    ensures id in w.rows && (id in Backlog(AfterRound(cfg, w, r).rows) <==> id !in r.batch)
    ensures id !in r.batch ==> id in AfterRound(cfg, w, r).rows && AfterRound(cfg, w, r).rows[id] == w.rows[id]
  {
    assert id in Backlog(w.rows);
    LeavesBacklog(cfg, w, r, id);
    if id !in r.batch {
      CleanAllFrame(cfg, w, Chosen(w, r), r.pass, id);
    }
  }

  /** The expired rows that are left are those the snapshot did not reach, and they are untouched. */
  lemma LeftOver(cfg: Settings, w: World, r: Round, expired: set<JobId>)
    requires IsBatch(w.rows, r.limit, r.batch) && Deletable(cfg, w, expired, r)
    ensures expired * Backlog(AfterRound(cfg, w, r).rows) == expired - Elements(r.batch)
    ensures forall id <- expired - Elements(r.batch) ::
      id in w.rows && id in AfterRound(cfg, w, r).rows && AfterRound(cfg, w, r).rows[id] == w.rows[id]
  {
    forall id <- expired
      ensures id in w.rows && (id in Backlog(AfterRound(cfg, w, r).rows) <==> id !in Elements(r.batch))
      ensures id !in Elements(r.batch) ==>
        id in AfterRound(cfg, w, r).rows && AfterRound(cfg, w, r).rows[id] == w.rows[id]
    {
      ExpiredIsDone(cfg, w, r, expired, id);
    }
  }

  /** One pass over a backlog with at most `others` rows beside the expired ones. */
  lemma PassCleansExpired(cfg: Settings, w: World, r: Round, expired: set<JobId>, others: nat)
    returns (left: set<JobId>)
    requires IsBatch(w.rows, r.limit, r.batch) && Deletable(cfg, w, expired, r)
    requires |Backlog(w.rows) - expired| <= others < r.limit
    ensures var after := AfterRound(cfg, w, r);
            && left == expired * Backlog(after.rows) && |Backlog(after.rows) - left| <= others
            && (forall id <- left :: id in w.rows && id in after.rows && after.rows[id] == w.rows[id])
            && |left| <= if |expired| <= r.limit - others then 0 else |expired| - (r.limit - others)
  {
    left := expired - Elements(r.batch);
    LeftOver(cfg, w, r, expired);
    OthersStay(cfg, w, r, expired, left, others);
    BatchSize(w.rows, r.limit, r.batch);
    DistinctElements(r.batch);
    Remaining(Backlog(w.rows), Elements(r.batch), expired, r.limit, others);
  }

  lemma OthersStay(cfg: Settings, w: World, r: Round, expired: set<JobId>, left: set<JobId>, others: nat)
    requires IsBatch(w.rows, r.limit, r.batch) && |Backlog(w.rows) - expired| <= others
    requires expired * Backlog(AfterRound(cfg, w, r).rows) == left
    ensures |Backlog(AfterRound(cfg, w, r).rows) - left| <= others
  {
    PassShrinksBacklog(cfg, w, r);
    SubsetSize(Backlog(AfterRound(cfg, w, r).rows) - left, Backlog(w.rows) - expired);
  }

  lemma {:induction false} BacklogShrinks(cfg: Settings, w: World, rounds: seq<Round>)
    requires Valid(cfg, w, rounds)
    ensures Backlog(After(cfg, w, rounds).rows) <= Backlog(w.rows)
    decreases |rounds|
  {
    if rounds != [] {
      PassShrinksBacklog(cfg, w, rounds[0]);
      BacklogShrinks(cfg, AfterRound(cfg, w, rounds[0]), rounds[1..]);
    }
  }

  /** Passes with one limit and one retention, none of which fails on an expired row. */
  ghost predicate Steady(cfg: Settings, rows: Table, rounds: seq<Round>, limit: nat, keep: Retention, now: int,
                         expired: set<JobId>)
  {
    forall r <- rounds ::
      && r.limit == limit && r.keep == keep && r.pass.now >= now
      && forall id <- expired :: id in rows && !Blocked(cfg, rows[id], r.pass.broken)
  }

  lemma SteadyRest(cfg: Settings, rows: Table, next: Table, rounds: seq<Round>, limit: nat, keep: Retention, now: int,
                   expired: set<JobId>, left: set<JobId>)
    requires rounds != [] && Steady(cfg, rows, rounds, limit, keep, now, expired) && left <= expired
    requires forall id <- left :: id in next && id in rows && next[id] == rows[id]
    ensures Steady(cfg, next, rounds[1..], limit, keep, now, left)
  {
    assert forall r <- rounds[1..] :: r in rounds;
  }

  /** What so many passes clean that each clean `size` rows. */
  function Capacity(passes: nat, size: nat): nat {
    if passes == 0 then 0 else size + Capacity(passes - 1, size)
  }

  lemma {:induction false} CapacityIsProduct(passes: nat, size: nat)
    ensures Capacity(passes, size) == passes * size
  {
    if passes > 0 {
      CapacityIsProduct(passes - 1, size);
    }
  }

  /** What the rows expired at `now` and the rest of the backlog must be for so many passes to suffice. */
  ghost predicate OnCourse(cfg: Settings, w: World, rounds: seq<Round>, limit: nat, keep: Retention, now: int,
                           expired: set<JobId>, others: nat)
  {
    && Steady(cfg, w.rows, rounds, limit, keep, now, expired)
    && expired <= Backlog(w.rows) && (forall id <- expired :: Expired(w.rows[id], now, keep))
    && |Backlog(w.rows) - expired| <= others < limit
    && |expired| <= Capacity(|rounds|, limit - others)
  }

  lemma StaysOnCourse(cfg: Settings, w: World, rounds: seq<Round>, limit: nat, keep: Retention, now: int,
                      expired: set<JobId>, others: nat)
    returns (left: set<JobId>)
    requires rounds != [] && Valid(cfg, w, rounds) && OnCourse(cfg, w, rounds, limit, keep, now, expired, others)
    ensures var next := AfterRound(cfg, w, rounds[0]);
            && left == expired * Backlog(next.rows)
            && OnCourse(cfg, next, rounds[1..], limit, keep, now, left, others)
  {
    var r, next := rounds[0], AfterRound(cfg, w, rounds[0]);
    assert r in rounds;
    assert |rounds[1..]| == |rounds| - 1;
    left := PassCleansExpired(cfg, w, r, expired, others);
    SteadyRest(cfg, w.rows, next.rows, rounds, limit, keep, now, expired, left);
    assert Capacity(|rounds|, limit - others) == limit - others + Capacity(|rounds| - 1, limit - others);
  }

  /** Convergence: with fewer than `limit` other rows in the backlog, blockers or not yet expired, each pass cleans at
      least `limit - others` expired rows or all of them. So after |expired| / (limit - others) passes, rounded up
      (see `CapacityIsProduct`), every row that was expired at the start is deleted or stripped. */
  lemma {:induction false} ExpiredRowsAreCleaned(cfg: Settings, w: World, rounds: seq<Round>, limit: nat,
                                                 keep: Retention, now: int, expired: set<JobId>, others: nat)
    requires Valid(cfg, w, rounds) && OnCourse(cfg, w, rounds, limit, keep, now, expired, others)
    ensures expired !! Backlog(After(cfg, w, rounds).rows)
    decreases |rounds|
  {
    if rounds != [] {
      var next := AfterRound(cfg, w, rounds[0]);
      var left := StaysOnCourse(cfg, w, rounds, limit, keep, now, expired, others);
      ExpiredRowsAreCleaned(cfg, next, rounds[1..], limit, keep, now, left, others);
      BacklogShrinks(cfg, next, rounds[1..]);
    }
  }
}
