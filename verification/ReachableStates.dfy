/** What the invariant tells the readers of a row, in every state the system can reach. */
module ReachableStates {
  import opened Common
  import opened JobRecovery
  import opened Lifecycle
  import opened LifecycleInvariant
  import opened ObjectKeys
  import opened RedisQueue
  import opened VideoJobs
  import opened VideoWorker

  /** `s` is reached from `start` by some run. */
  ghost predicate Reaches(start: State, s: State) {
    exists actions :: Valid(start, actions) && Exec(start, actions) == s
  }

  lemma ReachesItself(s: State)
    ensures Reaches(s, s)
  {
    assert Valid(s, []) && Exec(s, []) == s;
  }

  lemma {:induction false} ExecAppends(s: State, actions: seq<Action>, a: Action)
    requires Valid(s, actions) && Enabled(Exec(s, actions), a)
    ensures Valid(s, actions + [a]) && Exec(s, actions + [a]) == Next(Exec(s, actions), a)
    decreases |actions|
  {
    if actions == [] {
      assert [] + [a] == [a] && [a][1..] == [];
    } else {
      ExecAppends(Next(s, actions[0]), actions[1..], a);
      assert (actions + [a])[1..] == actions[1..] + [a];
    }
  }

  lemma ExecOne(s: State, a: Action)
    requires Enabled(s, a)
    ensures Valid(s, [a]) && Exec(s, [a]) == Next(s, a)
  {
    ExecAppends(s, [], a);
    assert [] + [a] == [a];
  }

  lemma ExecTwo(s: State, a: Action, b: Action)
    requires Enabled(s, a) && Enabled(Next(s, a), b)
    ensures Valid(s, [a, b]) && Exec(s, [a, b]) == Next(Next(s, a), b)
  {
    ExecOne(s, a);
    ExecAppends(s, [a], b);
    assert [a] + [b] == [a, b];
  }

  lemma ReachesNext(start: State, s: State, a: Action)
    requires Reaches(start, s) && Enabled(s, a)
    ensures Reaches(start, Next(s, a))
  {
    var actions :| Valid(start, actions) && Exec(start, actions) == s;
    ExecAppends(start, actions, a);
  }

  lemma Step(start: State, s: State, a: Action) returns (next: State)
    requires Reaches(start, s) && Enabled(s, a)
    ensures next == Next(s, a) && Reaches(start, next)
  {
    ReachesNext(start, s, a);
    next := Next(s, a);
  }

  lemma {:induction false} DeletedStaysDeleted(s: State, actions: seq<Action>, id: JobId)
    requires Valid(s, actions) && Inv(s) && id in s.used && id !in s.rows
    ensures id !in Exec(s, actions).rows
    decreases |actions|
  {
    if actions != [] {
      NextFrames(s, actions[0]);
      NextKeepsInv(s, actions[0]);
      DeletedStaysDeleted(Next(s, actions[0]), actions[1..], id);
    }
  }

  lemma ReachedInv(cfg: Settings, begin: int, s: State)
    requires Reaches(Init(cfg, begin), s)
    ensures Inv(s)
  {
    var actions :| Valid(Init(cfg, begin), actions) && Exec(Init(cfg, begin), actions) == s;
    ReachableInv(cfg, begin, actions);
  }

  /** The status of a row can be trusted: each status implies the columns that its readers rely on. */
  lemma RowsAreCoherent(cfg: Settings, begin: int, s: State, id: JobId)
    requires Reaches(Init(cfg, begin), s) && id in s.rows
    ensures var row := s.rows[id];
            match row.status
            case UPLOADED => row.attemptCount == 0 && row.failure == NO_FAILURE
            case QUEUED => true
            case PROCESSING => row.attemptCount >= 1 && row.timing.startedAt.Some?
            case COMPLETED => row.failure == NO_FAILURE && row.timing.completedAt.Some?
            case FAILED =>
              && (row.attemptCount >= row.maxAttempts ==> row.failure.retryExhausted)
              && (row.failure.retryExhausted ==> row.failure.failedAt.Some?)
  {
    ReachedInv(cfg, begin, s);
    assert RowOk(id, s.rows[id]);
  }

  /** A QUEUED row names an RQ message, and that message was enqueued for this very job by an upload, a recovery or a
      manual retry; every message in the queue belongs to a job that was once inserted. */
  lemma NoPhantomQueueing(cfg: Settings, begin: int, s: State, id: JobId)
    requires Reaches(Init(cfg, begin), s) && id in s.rows && s.rows[id].status.QUEUED?
    ensures s.rows[id].queueJobId.Some?
    ensures var m := s.rows[id].queueJobId.value;
            && m < |s.messages| && s.messages[m].job == id
            && s.messages[m].origin < |s.calls| && !s.calls[s.messages[m].origin].CleanupCall?
            && s.messages[m].budget == Deliveries(s.rows[id].maxAttempts)
    ensures forall m | 0 <= m < |s.messages| :: s.messages[m].job in s.used
  {
    ReachedInv(cfg, begin, s);
    assert forall m | 0 <= m < |s.messages| :: MessageOk(s, s.messages[m]);
    assert Names(s.messages, s.rows[id].queueJobId.value, id);
  }

  // What a finished job leaves behind

  /** The output columns of a finished job that was not cleaned are those of its own run, letter for letter. */
  predicate OutputsOk(cfg: Settings, id: JobId, row: Row) {
    var out := row.outputs;
    row.status.COMPLETED? && row.cleanup.cleanedUpAt.None? ==>
      if row.backend.LocalStorage? then
        && out.processedPath == Some(cfg.processedDir + "/" + id + ".mp4")
        && out.thumbnailPath == Some(cfg.thumbnailsDir + "/" + id + ".jpg")
      else
        var pk := "videos/" + id + "/processed/" + id + ".mp4";
        var tk := "videos/" + id + "/thumbnails/" + id + ".jpg";
        out == Outputs(Some("s3://" + cfg.processedVideoBucket + "/" + pk),
                       Some("s3://" + cfg.thumbnailBucket + "/" + tk), Some(pk), Some(tk))
  }

  lemma RunKeepsOutputs(s: State, m: nat, step: WorkerStep, id: JobId)
    requires WorkerEnabled(s, m, step) && id in s.rows && OutputsOk(s.cfg, id, s.rows[id])
    ensures id in WorkerApply(s, m, step).rows && OutputsOk(s.cfg, id, WorkerApply(s, m, step).rows[id])
  {
    KeysSpelledOut(id, s.rows[id].originalFilename);
  }

  lemma CallKeepsOutputs(s: State, a: Action, id: JobId)
    requires Enabled(s, a) && !a.Worker? && id in Next(s, a).rows
    requires id in s.rows ==> OutputsOk(s.cfg, id, s.rows[id])
    ensures OutputsOk(s.cfg, id, Next(s, a).rows[id])
  {
    match a
    case Upload(c, step) =>
    case Requeue(c, step) =>
    case Cleanup(c, step) =>
    case _ =>
  }

  lemma {:induction false} RunsKeepOutputs(s: State, actions: seq<Action>)
    requires Valid(s, actions) && forall id <- s.rows :: OutputsOk(s.cfg, id, s.rows[id])
    ensures Exec(s, actions).cfg == s.cfg
    ensures forall id <- Exec(s, actions).rows :: OutputsOk(s.cfg, id, Exec(s, actions).rows[id])
    decreases |actions|
  {
    if actions != [] {
      var a := actions[0];
      var next := Next(s, a);
      assert next.cfg == s.cfg;
      forall id <- next.rows ensures OutputsOk(s.cfg, id, next.rows[id]) {
        if a.Worker? {
          RunKeepsOutputs(s, a.m, a.worker, id);
        } else {
          CallKeepsOutputs(s, a, id);
        }
      }
      RunsKeepOutputs(next, actions[1..]);
    }
  }

  /** In every reachable state a COMPLETED row that was not cleaned names exactly the files or objects of its own id. */
  lemma FinishedJobsNameTheirOutputs(cfg: Settings, begin: int, s: State, id: JobId)
    requires Reaches(Init(cfg, begin), s) && id in s.rows
    requires s.rows[id].status.COMPLETED? && s.rows[id].cleanup.cleanedUpAt.None?
    ensures var out := s.rows[id].outputs;
            if s.rows[id].backend.LocalStorage? then
              && out.processedPath == Some(cfg.processedDir + "/" + id + ".mp4")
              && out.thumbnailPath == Some(cfg.thumbnailsDir + "/" + id + ".jpg")
            else
              var pk := "videos/" + id + "/processed/" + id + ".mp4";
              var tk := "videos/" + id + "/thumbnails/" + id + ".jpg";
              out == Outputs(Some("s3://" + cfg.processedVideoBucket + "/" + pk),
                             Some("s3://" + cfg.thumbnailBucket + "/" + tk), Some(pk), Some(tk))
  {
    var actions :| Valid(Init(cfg, begin), actions) && Exec(Init(cfg, begin), actions) == s;
    RunsKeepOutputs(Init(cfg, begin), actions);
  }

  // What a dead worker leaves behind

  /** A row claimed at some instant and left alone since, because its worker died, is stuck at every time later than
      that instant by more than the timeout and at no earlier one, whatever the others did meanwhile. */
  lemma DeadRunIsStuckIff(s: State, m: nat, actions: seq<Action>, timeouts: StuckTimeouts)
    requires WorkerEnabled(s, m, ClaimRow) && timeouts.processing >= 0
    requires s.messages[m].job in s.rows
    requires var row := s.rows[s.messages[m].job];
             !row.status.COMPLETED?
             && !(row.status.FAILED? && (row.failure.retryExhausted || row.attemptCount >= row.maxAttempts))
    requires Valid(Next(s, Worker(m, ClaimRow)), actions)
    requires var id, later := s.messages[m].job, Exec(Next(s, Worker(m, ClaimRow)), actions);
             id in later.rows && later.rows[id] == Next(s, Worker(m, ClaimRow)).rows[id]
    ensures var later := Exec(Next(s, Worker(m, ClaimRow)), actions);
            IsStuck(later.rows[s.messages[m].job], later.now, timeouts) <==> later.now > s.now + timeouts.processing
    ensures var later := Exec(Next(s, Worker(m, ClaimRow)), actions);
            forall down :: Decision(later.rows[s.messages[m].job], down)
                        == if s.rows[s.messages[m].job].attemptCount + 1 >= s.rows[s.messages[m].job].maxAttempts
                           then Failed else if down then EnqueueFailed else Requeued
  {
  }
}
