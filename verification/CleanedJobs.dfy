/** A job whose references a cleanup has cleared is past saving. */
module CleanedJobs {
  import opened CleanupRules
  import opened Common
  import opened Lifecycle
  import opened LifecycleInvariant
  import opened QuiescentStability
  import opened VideoJobs

  /** Nothing is left to process: no reference in the row, and no run that still holds one. */
  ghost predicate Barren(s: State, id: JobId) {
    && id in s.used
    && (id in s.rows ==> NoReferences(s.rows[id]) && !s.rows[id].status.COMPLETED?)
    && (forall c | 0 <= c < |s.calls| :: !Holds(s.calls[c], id))
    && (forall m | 0 <= m < |s.messages| && s.messages[m].job == id && s.messages[m].phase.Running? ::
          s.messages[m].phase.stage.Started? && !Truthy(s.messages[m].phase.raw))
  }

  lemma WorkerKeepsBarren(s: State, m: nat, step: WorkerStep, id: JobId)
    requires WorkerEnabled(s, m, step) && Barren(s, id)
    ensures Barren(WorkerApply(s, m, step), id)
  {
  }

  lemma UploadKeepsBarren(s: State, c: nat, step: UploadStep, id: JobId)
    requires UploadEnabled(s, c, step) && Barren(s, id)
    ensures Barren(UploadApply(s, c, step), id)
  {
    assert !Holds(s.calls[c], id);
  }

  lemma RequeueKeepsBarren(s: State, c: nat, step: RequeueStep, id: JobId)
    requires RequeueEnabled(s, c, step) && Barren(s, id)
    ensures Barren(RequeueApply(s, c, step), id)
  {
  }

  lemma CleanupKeepsBarren(s: State, c: nat, step: CleanupStep, id: JobId)
    requires CleanupEnabled(s, c, step) && Barren(s, id)
    ensures Barren(CleanupApply(s, c, step), id)
  {
  }

  lemma ReadKeepsBarren(s: State, a: Action, id: JobId)
    requires Enabled(s, a) && !a.Upload? && !a.Requeue? && !a.Cleanup? && !a.Worker? && Barren(s, id)
    ensures Barren(Next(s, a), id)
  {
  }

  lemma BarrenStep(s: State, a: Action, id: JobId)
    requires Enabled(s, a) && Barren(s, id)
    ensures Barren(Next(s, a), id)
  {
    match a
    case Upload(c, step) => UploadKeepsBarren(s, c, step, id);
    case Requeue(c, step) => RequeueKeepsBarren(s, c, step, id);
    case Cleanup(c, step) => CleanupKeepsBarren(s, c, step, id);
    case Worker(m, step) => WorkerKeepsBarren(s, m, step, id);
    case _ => ReadKeepsBarren(s, a, id);
  }

  lemma {:induction false} BarrenRun(s: State, actions: seq<Action>, id: JobId)
    requires Valid(s, actions) && Barren(s, id)
    ensures Barren(Exec(s, actions), id)
    decreases |actions|
  {
    if actions != [] {
      BarrenStep(s, actions[0], id);
      BarrenRun(Next(s, actions[0]), actions[1..], id);
    }
  }

  /** A FAILED row without references and without a live run never becomes COMPLETED and never gets a reference
      back: not by stale messages, recoveries or manual retries, which therefore can only end in failure. */
  lemma CleanedFailedJobStaysFailed(s: State, actions: seq<Action>, id: JobId)
    requires Inv(s) && Valid(s, actions)
    requires id in s.rows && s.rows[id].status.FAILED? && NoReferences(s.rows[id]) && NoLiveRun(s, id)
    ensures var later := Exec(s, actions);
            id in later.rows ==> NoReferences(later.rows[id]) && !later.rows[id].status.COMPLETED?
  {
    forall c | 0 <= c < |s.calls| ensures !Holds(s.calls[c], id) {
      assert CallOk(s, c);
    }
    BarrenRun(s, actions, id);
  }

  /** So once a cleanup of a FAILED job without a live run is committed, the job is over: every continuation leaves its
      row deleted, or without references and not COMPLETED. */
  lemma CleanupEndsTheJob(s: State, c: nat, actions: seq<Action>)
    requires Inv(s) && Enabled(s, Cleanup(c, CommitCleanup)) && Valid(Next(s, Cleanup(c, CommitCleanup)), actions)
    requires s.rows[s.calls[c].target].status.FAILED? && NoLiveRun(s, s.calls[c].target)
    ensures var later, id := Exec(Next(s, Cleanup(c, CommitCleanup)), actions), s.calls[c].target;
            id in later.rows ==> NoReferences(later.rows[id]) && !later.rows[id].status.COMPLETED?
  {
    var next, id := Next(s, Cleanup(c, CommitCleanup)), s.calls[c].target;
    forall d | 0 <= d < |s.calls| ensures !Holds(s.calls[d], id) {
      assert CallOk(s, d);
    }
    BarrenRun(next, actions, id);
  }
}
