/** `attempt_count <= max_attempts`: exactly which claim breaks it. */
module AttemptLimit {
  import opened Lifecycle
  import opened LifecycleInvariant
  import opened VideoJobs

  ghost predicate WithinLimit(s: State, id: JobId) {
    id in s.rows ==> s.rows[id].attemptCount <= s.rows[id].maxAttempts
  }

  /** A claim of a row at its limit that the worker lets through: it checks the limit of FAILED rows only. */
  ghost predicate ClaimsAtLimit(s: State, a: Action, id: JobId) {
    && a.Worker? && a.worker.ClaimRow? && a.m < |s.messages| && s.messages[a.m].job == id && id in s.rows
    && !s.rows[id].status.COMPLETED? && !s.rows[id].status.FAILED?
    && s.rows[id].attemptCount >= s.rows[id].maxAttempts
  }

  lemma WorkerAtTheLimit(s: State, m: nat, step: WorkerStep, id: JobId)
    requires WorkerEnabled(s, m, step) && id in s.rows && WithinLimit(s, id)
    ensures id in WorkerApply(s, m, step).rows
    ensures WithinLimit(WorkerApply(s, m, step), id) <==> !ClaimsAtLimit(s, Worker(m, step), id)
  {
  }

  lemma OthersKeepTheLimit(s: State, a: Action, id: JobId)
    requires Enabled(s, a) && !a.Worker? && WithinLimit(s, id)
    requires id in s.rows ==> s.rows[id].maxAttempts >= 1
    ensures WithinLimit(Next(s, a), id)
  {
  }

  /** One action takes a row from within its limit to above it if and only if it is a claim at the limit. */
  lemma StepOverTheLimit(s: State, a: Action, id: JobId)
    requires Enabled(s, a) && WithinLimit(s, id) && (id in s.rows ==> s.rows[id].maxAttempts >= 1)
    ensures WithinLimit(Next(s, a), id) <==> !ClaimsAtLimit(s, a, id)
  {
    if a.Worker? {
      if id in s.rows {
        WorkerAtTheLimit(s, a.m, a.worker, id);
      }
    } else {
      OthersKeepTheLimit(s, a, id);
    }
  }

  /** The row is within its limit in every state of the run. */
  ghost predicate AlwaysWithin(s: State, actions: seq<Action>, id: JobId)
    requires Valid(s, actions)
    decreases |actions|
  {
    WithinLimit(s, id) && (actions == [] || AlwaysWithin(Next(s, actions[0]), actions[1..], id))
  }

  ghost predicate NeverClaimsAtLimit(s: State, actions: seq<Action>, id: JobId)
    requires Valid(s, actions)
    decreases |actions|
  {
    actions == []
    || (!ClaimsAtLimit(s, actions[0], id) && NeverClaimsAtLimit(Next(s, actions[0]), actions[1..], id))
  }

  lemma {:induction false} RunStaysWithin(s: State, actions: seq<Action>, id: JobId)
    requires Valid(s, actions) && Inv(s) && WithinLimit(s, id)
    ensures AlwaysWithin(s, actions, id) <==> NeverClaimsAtLimit(s, actions, id)
    decreases |actions|
  {
    if actions != [] {
      assert id in s.rows ==> RowOk(id, s.rows[id]);
      StepOverTheLimit(s, actions[0], id);
      NextKeepsInv(s, actions[0]);
      if WithinLimit(Next(s, actions[0]), id) {
        RunStaysWithin(Next(s, actions[0]), actions[1..], id);
      }
    }
  }

  /** Over every run: `attempt_count` stays within `max_attempts` throughout if and only if no worker ever claims a row
      that is at its limit and neither COMPLETED nor FAILED. */
  lemma AttemptsStayWithinTheLimit(cfg: Settings, begin: int, actions: seq<Action>, id: JobId)
    requires Valid(Init(cfg, begin), actions)
    ensures AlwaysWithin(Init(cfg, begin), actions, id) <==> NeverClaimsAtLimit(Init(cfg, begin), actions, id)
  {
    ReachableInv(cfg, begin, []);
    RunStaysWithin(Init(cfg, begin), actions, id);
  }
}
