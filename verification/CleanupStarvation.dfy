/** A reachable system in which cleanup has stopped for good, for every limit and every retention. */
module CleanupStarvation {
  import Passes = CleanupPasses
  import opened CleanupProgress
  import opened CleanupRules
  import opened Common
  import opened JobCleanup
  import opened Lifecycle
  import opened ObjectKeys
  import opened ReachableStates
  import opened VideoJobs
  import opened VideoUpload

  /** An id for every number. */
  function Name(k: nat): (id: JobId)
    ensures |id| == k && SlashFree(id)
  {
    seq(k, _ => 'a')
  }

  lemma Inserted(start: State, s: State, id: JobId) returns (next: State)
    requires Reaches(start, s) && s.rows.Keys <= s.used && id !in s.used && SlashFree(id)
    ensures Reaches(start, next)
    ensures next.rows == s.rows[id := RawSaved(NewRow(s.cfg, id, None, "f", LocalStorage, s.now), "p")]
    ensures next.used == s.used + {id} && next.now == s.now && next.messages == s.messages && next.cfg == s.cfg
    ensures next.calls == s.calls + [UploadCall(None, Saved(id))]
  {
    var c := |s.calls|;
    next := Step(start, s, UploadArrives(None));
    next := Step(start, next, Upload(c, LookUp(None)));
    next := Step(start, next, Upload(c, Insert(id, "f", LocalStorage)));
    next := Step(start, next, Upload(c, SaveRaw("p")));
  }

  /** An upload whose enqueue fails, followed by a second of silence. */
  lemma AddBlocker(start: State, s: State, id: JobId) returns (next: State)
    requires Reaches(start, s) && s.rows.Keys <= s.used && id !in s.used && SlashFree(id)
    ensures Reaches(start, next) && next.used == s.used + {id} && next.now == s.now + 1
    ensures next.rows.Keys == s.rows.Keys + {id} && forall other <- s.rows :: next.rows[other] == s.rows[other]
    ensures Blocker(next.rows[id]) && next.rows[id].updatedAt == s.now
  {
    next := Inserted(start, s, id);
    next := Step(start, next, Upload(|s.calls|, PushUploadFails("")));
    next := Step(start, next, Tick(1));
  }

  lemma AddQueued(start: State, s: State, id: JobId) returns (next: State)
    requires Reaches(start, s) && s.rows.Keys <= s.used && id !in s.used && SlashFree(id)
    ensures Reaches(start, next) && next.now == s.now
    ensures next.rows.Keys == s.rows.Keys + {id} && forall other <- s.rows :: next.rows[other] == s.rows[other]
    ensures next.rows[id].status.QUEUED? && next.rows[id].backend.LocalStorage? && Truthy(next.rows[id].raw.path)
    ensures next.rows[id].cleanup.cleanedUpAt.None?
    ensures |next.messages| == |s.messages| + 1 && next.messages[|s.messages|].job == id
    ensures next.messages[|s.messages|].phase.Waiting? && next.messages[|s.messages|].left > 0
  {
    next := Inserted(start, s, id);
    next := Step(start, next, Upload(|s.calls|, PushUpload));
    next := Step(start, next, Upload(|s.calls|, CommitQueued));
  }

  /** A job that is uploaded, processed and then left alone for `elapsed` seconds. */
  lemma AddCompleted(start: State, s: State, id: JobId, elapsed: nat) returns (next: State)
    requires Reaches(start, s) && s.rows.Keys <= s.used && id !in s.used && SlashFree(id)
    ensures Reaches(start, next) && next.now == s.now + elapsed
    ensures next.rows.Keys == s.rows.Keys + {id} && forall other <- s.rows :: next.rows[other] == s.rows[other]
    ensures var row := next.rows[id];
            && row.status.COMPLETED? && row.timing.completedAt == Some(s.now) && row.cleanup.cleanedUpAt.None?
            && row.updatedAt == s.now
  {
    var m := |s.messages|;
    next := AddQueued(start, s, id);
    next := Step(start, next, Worker(m, Fetch));
    next := Step(start, next, Worker(m, ClaimRow));
    next := Step(start, next, Worker(m, Complete));
    next := Step(start, next, Tick(elapsed));
  }

  ghost predicate AllBlockers(s: State, n: nat) {
    && s.rows.Keys == s.used && s.rows.Keys == Names(n)
    && forall id <- s.rows :: Blocker(s.rows[id]) && s.rows[id].updatedAt < s.now
  }

  ghost function Names(n: nat): set<JobId> {
    set k | 0 <= k < n :: Name(k)
  }

  lemma {:induction false} ManyNames(n: nat)
    ensures |Names(n)| == n
  {
    if n > 0 {
      ManyNames(n - 1);
      assert Names(n) == Names(n - 1) + {Name(n - 1)};
      assert Name(n - 1) !in Names(n - 1);
    }
  }

  lemma {:induction false} Blockers(cfg: Settings, begin: int, n: nat) returns (s: State)
    ensures Reaches(Init(cfg, begin), s) && AllBlockers(s, n)
  {
    if n == 0 {
      ReachesItself(Init(cfg, begin));
      s := Init(cfg, begin);
    } else {
      var rest := Blockers(cfg, begin, n - 1);
      assert Names(n) == Names(n - 1) + {Name(n - 1)} && Name(n - 1) !in Names(n - 1);
      s := AddBlocker(Init(cfg, begin), rest, Name(n - 1));
    }
  }

  /** For every limit, every retention and every configuration some run leads to a table with an expired job that no
      number of passes with that limit ever cleans: `limit` uploads whose enqueue failed are older. */
  lemma CleanupCanStarve(cfg: Settings, begin: int, limit: nat, keep: Retention)
    returns (s: State, expired: JobId)
    ensures Reaches(Init(cfg, begin), s) && expired in s.rows
    ensures IsCleanupCandidate(s.rows[expired], s.now, keep.completedAfterDays, keep.failedAfterDays)
    ensures forall rounds: seq<Passes.Round> |
      Passes.Valid(cfg, World(s.rows, s.store), rounds) && (forall r <- rounds :: r.limit <= limit) ::
      Passes.After(cfg, World(s.rows, s.store), rounds) == World(s.rows, s.store)
  {
    var rest := Blockers(cfg, begin, limit);
    var elapsed := if keep.completedAfterDays > 0 then keep.completedAfterDays * DAY else 0;
    ManyNames(limit);
    expired := Name(limit);
    assert expired !in Names(limit);
    s := AddCompleted(Init(cfg, begin), rest, expired, elapsed);
    var w := World(s.rows, s.store);
    assert OldestAreBlockers(s.rows, Names(limit));
    forall rounds: seq<Passes.Round> | Passes.Valid(cfg, w, rounds) && (forall r <- rounds :: r.limit <= limit)
      ensures Passes.After(cfg, w, rounds) == w
    {
      BlockersStarveCleanup(cfg, w, rounds, Names(limit));
    }
  }
}
