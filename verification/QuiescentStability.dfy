/** Terminal rows stay terminal if and only if nothing is in flight for them: then stale messages, recoveries, retries
    of other jobs and cleanups cannot move a COMPLETED or exhausted FAILED row; otherwise one or two actions can. */
module QuiescentStability {
  import opened CleanupRules
  import opened Common
  import opened ErrorMessages
  import opened Lifecycle
  import opened LifecycleInvariant
  import opened ReachableStates
  import opened VideoJobs

  ghost predicate NoLiveRun(s: State, id: JobId) {
    forall m | 0 <= m < |s.messages| && s.messages[m].job == id :: !s.messages[m].phase.Running?
  }

  /** The call has read or inserted the row and has yet to commit. */
  ghost predicate InFlight(call: Call, id: JobId) {
    match call
    case UploadCall(_, Inserted(x)) => x == id
    case UploadCall(_, Saved(x)) => x == id
    case UploadCall(_, Pushed(x, _)) => x == id
    case RequeueCall(x, _, _, stage) => x == id && (stage.Decided? || stage.Enqueued?)
    case _ => false
  }

  ghost predicate Quiescent(s: State, id: JobId) {
    NoLiveRun(s, id) && forall c | 0 <= c < |s.calls| :: !InFlight(s.calls[c], id)
  }

  predicate Terminal(row: Row) {
    row.status.COMPLETED? || (row.status.FAILED? && row.failure.retryExhausted)
  }

  /** Equal in every column, except that a cleanup may have noted an error, or cleared every reference and marked the
      row as cleaned. */
  predicate SameButCleanup(before: Row, after: Row) {
    && after == before.(cleanup := after.cleanup, raw := after.raw, outputs := after.outputs,
                        updatedAt := after.updatedAt)
    && ((after.raw == before.raw && after.outputs == before.outputs
         && after.cleanup.cleanedUpAt == before.cleanup.cleanedUpAt)
        || (NoReferences(after) && after.cleanup.cleanedUpAt.Some?))
  }

  ghost predicate Settled(s: State, id: JobId) {
    id in s.used && (id in s.rows ==> Terminal(s.rows[id]) && Quiescent(s, id))
  }

  /** The one action that reopens an exhausted FAILED row. */
  predicate Reopens(s: State, a: Action, id: JobId) {
    a == RetryReads(id) && id in s.rows && s.rows[id].status.FAILED?
  }

  ghost predicate StaysSettled(s: State, s': State, id: JobId) {
    Settled(s', id) && (id in s'.rows ==> id in s.rows && SameButCleanup(s.rows[id], s'.rows[id]))
  }

  lemma WorkerSettles(s: State, m: nat, step: WorkerStep, id: JobId)
    requires WorkerEnabled(s, m, step) && Settled(s, id)
    ensures StaysSettled(s, WorkerApply(s, m, step), id)
  {
  }

  lemma CallsSettle(s: State, s': State, id: JobId, moved: nat)
    requires Settled(s, id) && id in s.rows && id in s'.rows && id in s'.used && |s.calls| <= |s'.calls|
    requires s'.messages == s.messages
      || exists message :: s'.messages == s.messages + [message] && message.phase.Waiting?
    requires forall c | 0 <= c < |s'.calls| && c != moved :: c < |s.calls| && s'.calls[c] == s.calls[c]
    requires moved < |s'.calls| ==> !InFlight(s'.calls[moved], id)
    requires SameButCleanup(s.rows[id], s'.rows[id])
    ensures StaysSettled(s, s', id)
  {
  }

  lemma UploadSettles(s: State, c: nat, step: UploadStep, id: JobId)
    requires UploadEnabled(s, c, step) && Settled(s, id)
    ensures StaysSettled(s, UploadApply(s, c, step), id)
  {
    if id in s.rows {
      assert !InFlight(s.calls[c], id);
      CallsSettle(s, UploadApply(s, c, step), id, c);
    }
  }

  lemma RequeueSettles(s: State, c: nat, step: RequeueStep, id: JobId)
    requires RequeueEnabled(s, c, step) && Settled(s, id)
    ensures StaysSettled(s, RequeueApply(s, c, step), id)
  {
    if id in s.rows {
      assert !InFlight(s.calls[c], id);
      CallsSettle(s, RequeueApply(s, c, step), id, c);
    }
  }

  lemma CleanupSettles(s: State, c: nat, step: CleanupStep, id: JobId)
    requires CleanupEnabled(s, c, step) && Settled(s, id)
    ensures StaysSettled(s, CleanupApply(s, c, step), id)
  {
    if id in CleanupApply(s, c, step).rows {
      CallsSettle(s, CleanupApply(s, c, step), id, c);
    }
  }

  lemma SettledStep(s: State, a: Action, id: JobId)
    requires Enabled(s, a) && Settled(s, id) && !Reopens(s, a, id)
    ensures StaysSettled(s, Next(s, a), id)
  {
    match a
    case Upload(c, step) => UploadSettles(s, c, step, id);
    case Requeue(c, step) => RequeueSettles(s, c, step, id);
    case Cleanup(c, step) => CleanupSettles(s, c, step, id);
    case Worker(m, step) => WorkerSettles(s, m, step, id);
    case _ =>
      if id in s.rows {
        CallsSettle(s, Next(s, a), id, |s.calls|);
      }
  }

  predicate NeverRetried(actions: seq<Action>, id: JobId) {
    RetryReads(id) !in actions
  }

  /** A quiescent COMPLETED row stays COMPLETED, with all its other columns, until a cleanup deletes it; a quiescent
      exhausted FAILED row does so unless it is retried by hand. Every prefix of a run is itself a run, so this holds
      in every later state. */
  lemma {:induction false} TerminalRowsAreStable(s: State, actions: seq<Action>, id: JobId)
    requires Valid(s, actions) && s.rows.Keys <= s.used
    requires id in s.rows && Terminal(s.rows[id]) && Quiescent(s, id)
    requires s.rows[id].status.COMPLETED? || NeverRetried(actions, id)
    ensures var later := Exec(s, actions);
            id in later.rows ==> SameButCleanup(s.rows[id], later.rows[id]) && Quiescent(later, id)
  {
    SettledRun(s, actions, id);
  }

  lemma {:induction false} SettledRun(s: State, actions: seq<Action>, id: JobId)
    requires Valid(s, actions) && Settled(s, id)
    requires id in s.rows && s.rows[id].status.FAILED? ==> NeverRetried(actions, id)
    ensures var later := Exec(s, actions);
            Settled(later, id) && (id in later.rows ==> id in s.rows && SameButCleanup(s.rows[id], later.rows[id]))
    decreases |actions|
  {
    if actions != [] {
      SettledStep(s, actions[0], id);
      SettledRun(Next(s, actions[0]), actions[1..], id);
    }
  }

  // The converse

  /** An error type the row does not show yet. */
  function OtherErrorType(row: Row): string {
    if row.failure.lastErrorType == Some("A") then "B" else "A"
  }

  lemma LiveRunMoves(s: State, id: JobId, m: nat) returns (actions: seq<Action>)
    requires id in s.rows && m < |s.messages| && s.messages[m].job == id && s.messages[m].phase.Running?
    ensures |actions| <= 2 && Valid(s, actions) && NeverRetried(actions, id) && id in Exec(s, actions).rows
    ensures !SameButCleanup(s.rows[id], Exec(s, actions).rows[id]) && Exec(s, actions).rows[id].status.FAILED?
  {
    var fail := Worker(m, Fail(OtherError(""), OtherErrorType(s.rows[id])));
    ExecOne(s, fail);
    actions := [fail];
  }

  lemma PendingCallMoves(s: State, id: JobId, c: nat) returns (actions: seq<Action>)
    requires id in s.rows && Terminal(s.rows[id]) && c < |s.calls| && InFlight(s.calls[c], id) && CallOk(s, c)
    ensures |actions| <= 2 && Valid(s, actions) && NeverRetried(actions, id) && id in Exec(s, actions).rows
    ensures !SameButCleanup(s.rows[id], Exec(s, actions).rows[id]) && Exec(s, actions).rows[id].status.QUEUED?
  {
    match s.calls[c]
    case UploadCall(_, _) =>
      ExecOne(s, Upload(c, CommitQueued));
      actions := [Upload(c, CommitQueued)];
    case RequeueCall(_, _, _, Enqueued(_)) =>
      ExecOne(s, Requeue(c, Apply));
      actions := [Requeue(c, Apply)];
    case RequeueCall(_, _, _, Decided) =>
      ExecTwo(s, Requeue(c, Push), Requeue(c, Apply));
      actions := [Requeue(c, Push), Requeue(c, Apply)];
  }

  lemma UnsettledRowMoves(s: State, id: JobId) returns (actions: seq<Action>)
    requires Inv(s) && id in s.rows && Terminal(s.rows[id]) && !Quiescent(s, id)
    ensures |actions| <= 2 && Valid(s, actions) && NeverRetried(actions, id) && id in Exec(s, actions).rows
    ensures !SameButCleanup(s.rows[id], Exec(s, actions).rows[id]) && !Exec(s, actions).rows[id].status.COMPLETED?
  {
    if m :| 0 <= m < |s.messages| && s.messages[m].job == id && s.messages[m].phase.Running? {
      actions := LiveRunMoves(s, id, m);
    } else {
      var c :| 0 <= c < |s.calls| && InFlight(s.calls[c], id);
      assert CallOk(s, c);
      actions := PendingCallMoves(s, id, c);
    }
  }

  /** In every later state in which the row still exists, it is COMPLETED. */
  ghost predicate StaysCompleted(s: State, id: JobId) {
    forall actions | Valid(s, actions) ::
      id in Exec(s, actions).rows ==> Exec(s, actions).rows[id].status.COMPLETED?
  }

  /** In every later state in which the row still exists, it is as it was but for cleanup. */
  ghost predicate StaysAsIs(s: State, id: JobId)
    requires id in s.rows
  {
    forall actions | Valid(s, actions) && (s.rows[id].status.COMPLETED? || NeverRetried(actions, id)) ::
      id in Exec(s, actions).rows ==> SameButCleanup(s.rows[id], Exec(s, actions).rows[id])
  }

  /** Exactly when COMPLETED is final: when the job has no live run and no call that has yet to commit. */
  lemma CompletedIsFinalIffQuiescent(s: State, id: JobId)
    requires Inv(s) && id in s.rows && s.rows[id].status.COMPLETED?
    ensures StaysCompleted(s, id) <==> Quiescent(s, id)
  {
    if Quiescent(s, id) {
      forall actions | Valid(s, actions)
        ensures id in Exec(s, actions).rows ==> Exec(s, actions).rows[id].status.COMPLETED?
      {
        TerminalRowsAreStable(s, actions, id);
      }
    } else {
      var actions := UnsettledRowMoves(s, id);
      assert Valid(s, actions);
    }
  }

  /** Exactly when a COMPLETED row, or an exhausted FAILED row that is not retried by hand, keeps what it says. */
  lemma TerminalRowIsFinalIffQuiescent(s: State, id: JobId)
    requires Inv(s) && id in s.rows && Terminal(s.rows[id])
    ensures StaysAsIs(s, id) <==> Quiescent(s, id)
  {
    if Quiescent(s, id) {
      forall actions | Valid(s, actions) && (s.rows[id].status.COMPLETED? || NeverRetried(actions, id))
        ensures id in Exec(s, actions).rows ==> SameButCleanup(s.rows[id], Exec(s, actions).rows[id])
      {
        TerminalRowsAreStable(s, actions, id);
      }
    } else {
      var actions := UnsettledRowMoves(s, id);
      assert Valid(s, actions) && NeverRetried(actions, id);
    }
  }
}
