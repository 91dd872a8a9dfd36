/** Between two manual retries, the recovery of a PROCESSING job cannot go on for ever. */
module BoundedRecovery {
  import opened JobRecovery
  import opened Lifecycle
  import opened LifecycleInvariant
  import opened VideoJobs

  predicate RecoversJob(call: Call, id: JobId) {
    call.RequeueCall? && call.job == id && call.source.RecoveryRead?
  }

  predicate UnderWay(call: Call) {
    call.RequeueCall? && (call.stage.Decided? || call.stage.Enqueued?)
  }

  /** A recovery that moved the job from PROCESSING back to QUEUED. */
  predicate Requeues(call: Call, id: JobId) {
    RecoversJob(call, id) && call.stage.Applied? && call.source.wasProcessing
  }

  /** Recovery passes do not overlap on the job, and no manual retry of it commits. */
  ghost predicate OneEpoch(s: State, a: Action, id: JobId) {
    && (a == RecoveryReads(id) ==>
          forall c | 0 <= c < |s.calls| && RecoversJob(s.calls[c], id) :: !UnderWay(s.calls[c]))
    && (a.Requeue? && a.requeue.Apply? && a.c < |s.calls| && s.calls[a.c].RequeueCall? && s.calls[a.c].job == id ==>
          !s.calls[a.c].source.RetryRead?)
  }

  ghost predicate OneEpochRun(s: State, actions: seq<Action>, id: JobId)
    requires Valid(s, actions)
    decreases |actions|
  {
    actions == [] || (OneEpoch(s, actions[0], id) && OneEpochRun(Next(s, actions[0]), actions[1..], id))
  }

  /** The row has made at least as many attempts as the call saw, and more once it is PROCESSING again. */
  ghost predicate Behind(call: Call, row: Row) {
    call.RequeueCall? && call.source.RecoveryRead? ==>
      && call.source.attemptsRead <= row.attemptCount
      && (call.stage.Applied? && row.status.PROCESSING? ==> call.source.attemptsRead < row.attemptCount)
  }

  ghost predicate WithinLimit(call: Call, limit: int) {
    call.RequeueCall? && call.source.RecoveryRead? ==>
      call.source.attemptsRead < limit && (call.source.wasProcessing ==> call.source.attemptsRead >= 1)
  }

  /** Of the recoveries of the job begun since call number `base`. */
  ghost predicate Ascending(s: State, base: nat, id: JobId, limit: int) {
    && base <= |s.calls| && id in s.used && (id in s.rows ==> s.rows[id].maxAttempts == limit)
    && (forall c | base <= c < |s.calls| && RecoversJob(s.calls[c], id) ::
          WithinLimit(s.calls[c], limit) && (id in s.rows ==> Behind(s.calls[c], s.rows[id])))
    && (forall c, d | base <= c < d < |s.calls| && RecoversJob(s.calls[c], id) && RecoversJob(s.calls[d], id) ::
          Follows(s.calls[c], s.calls[d]))
  }

  /** The earlier recovery was over when the later one read the row. */
  ghost predicate Follows(earlier: Call, later: Call) {
    && !UnderWay(earlier)
    && (earlier.RequeueCall? && earlier.stage.Applied? && later.RequeueCall? && earlier.source.RecoveryRead?
        && later.source.RecoveryRead? && later.source.wasProcessing ==>
          earlier.source.attemptsRead < later.source.attemptsRead)
  }

  /** How one action changes the row's attempts within an epoch. */
  ghost predicate AttemptsOnlyGrow(before: Row, after: Row) {
    && after.attemptCount >= before.attemptCount && after.maxAttempts == before.maxAttempts
    && (after.status.PROCESSING? ==> before.status.PROCESSING? || after.attemptCount > before.attemptCount)
  }

  ghost predicate Grows(s: State, s': State, id: JobId) {
    id in s'.rows ==> id in s.rows && AttemptsOnlyGrow(s.rows[id], s'.rows[id])
  }

  lemma WorkerGrows(s: State, m: nat, step: WorkerStep, id: JobId)
    requires WorkerEnabled(s, m, step)
    ensures Grows(s, WorkerApply(s, m, step), id)
  {
  }

  lemma UploadGrows(s: State, c: nat, step: UploadStep, id: JobId)
    requires UploadEnabled(s, c, step) && id in s.used
    ensures Grows(s, UploadApply(s, c, step), id)
  {
  }

  lemma RequeueGrows(s: State, c: nat, step: RequeueStep, id: JobId)
    requires RequeueEnabled(s, c, step) && OneEpoch(s, Requeue(c, step), id)
    ensures Grows(s, RequeueApply(s, c, step), id)
  {
  }

  lemma OthersGrow(s: State, a: Action, id: JobId)
    requires Enabled(s, a) && !a.Worker? && !a.Upload? && !a.Requeue?
    ensures Grows(s, Next(s, a), id)
  {
  }

  lemma AttemptsGrow(s: State, a: Action, id: JobId)
    requires Enabled(s, a) && OneEpoch(s, a, id) && id in s.used
    ensures Grows(s, Next(s, a), id)
  {
    match a
    case Worker(m, step) => WorkerGrows(s, m, step, id);
    case Upload(c, step) => UploadGrows(s, c, step, id);
    case Requeue(c, step) => RequeueGrows(s, c, step, id);
    case _ => OthersGrow(s, a, id);
  }

  /** An action that begins no recovery of the job. */
  lemma AscendingStays(s: State, s': State, base: nat, id: JobId, limit: int)
    requires Ascending(s, base, id, limit) && Frame(s, s')
    requires id in s'.rows ==> id in s.rows && AttemptsOnlyGrow(s.rows[id], s'.rows[id])
    requires forall c | |s.calls| <= c < |s'.calls| :: !RecoversJob(s'.calls[c], id)
    requires forall c | 0 <= c < |s.calls| && RecoversJob(s.calls[c], id) && s'.calls[c] != s.calls[c] ::
      UnderWay(s.calls[c]) && (s'.calls[c].stage.Applied? && id in s'.rows ==> s'.rows[id].status.QUEUED?)
    ensures Ascending(s', base, id, limit)
  {
    forall c | base <= c < |s'.calls| && RecoversJob(s'.calls[c], id)
      ensures c < |s.calls| && RecoversJob(s.calls[c], id) && s'.calls[c].source == s.calls[c].source
      ensures WithinLimit(s'.calls[c], limit) && (id in s'.rows ==> Behind(s'.calls[c], s'.rows[id]))
    {
      assert c < |s.calls|;
      assert SameCall(s.calls[c], s'.calls[c]);
    }
    forall c, d | base <= c < d < |s'.calls| && RecoversJob(s'.calls[c], id) && RecoversJob(s'.calls[d], id)
      ensures Follows(s'.calls[c], s'.calls[d])
    {
      assert Follows(s.calls[c], s.calls[d]);
    }
  }

  lemma ReadKeepsAscending(s: State, base: nat, id: JobId, limit: int)
    requires Ascending(s, base, id, limit) && RecoveryReadsEnabled(s, id) && OneEpoch(s, RecoveryReads(id), id)
    requires Coherent(s.rows[id]) && !ShouldFailStuckJob(s.rows[id])
    ensures Ascending(RecoveryReadsApply(s, id), base, id, limit)
  {
  }

  lemma OtherActionsKeepCalls(s: State, a: Action, id: JobId)
    requires Enabled(s, a) && (a == RecoveryReads(id) ==> id in s.rows && ShouldFailStuckJob(s.rows[id]))
    ensures forall c | |s.calls| <= c < |Next(s, a).calls| :: !RecoversJob(Next(s, a).calls[c], id)
    ensures forall c | 0 <= c < |s.calls| && RecoversJob(s.calls[c], id) && Next(s, a).calls[c] != s.calls[c] ::
      && UnderWay(s.calls[c]) && Next(s, a).calls[c].RequeueCall?
      && (Next(s, a).calls[c].stage.Applied? && id in Next(s, a).rows ==> Next(s, a).rows[id].status.QUEUED?)
  {
  }

  lemma NextKeepsAscending(s: State, a: Action, base: nat, id: JobId, limit: int)
    requires Enabled(s, a) && OneEpoch(s, a, id) && Ascending(s, base, id, limit) && s.rows.Keys <= s.used
    requires id in s.rows ==> Coherent(s.rows[id])
    ensures Ascending(Next(s, a), base, id, limit)
  {
    if a == RecoveryReads(id) && !ShouldFailStuckJob(s.rows[id]) {
      ReadKeepsAscending(s, base, id, limit);
    } else {
      NextFrames(s, a);
      AttemptsGrow(s, a, id);
      OtherActionsKeepCalls(s, a, id);
      AscendingStays(s, Next(s, a), base, id, limit);
    }
  }

  lemma {:induction false} ExecKeepsAscending(s: State, actions: seq<Action>, base: nat, id: JobId, limit: int)
    requires Valid(s, actions) && OneEpochRun(s, actions, id) && Ascending(s, base, id, limit) && Inv(s)
    ensures Ascending(Exec(s, actions), base, id, limit)
    decreases |actions|
  {
    if actions != [] {
      assert id in s.rows ==> RowOk(id, s.rows[id]);
      NextKeepsAscending(s, actions[0], base, id, limit);
      NextKeepsInv(s, actions[0]);
      ExecKeepsAscending(Next(s, actions[0]), actions[1..], base, id, limit);
    }
  }

  // Counting

  /** The attempt counters read by the PROCESSING-to-QUEUED recoveries among `calls`, in order. */
  function Reads(calls: seq<Call>, id: JobId): seq<nat> {
    if calls == [] then []
    else
      var last := calls[|calls| - 1];
      Reads(calls[..|calls| - 1], id) + if Requeues(last, id) then [last.source.attemptsRead] else []
  }

  predicate Increasing(seen: seq<nat>) {
    forall i, j | 0 <= i < j < |seen| :: seen[i] < seen[j]
  }

  lemma {:induction false} IncreasingIsShort(seen: seq<nat>, limit: int)
    requires Increasing(seen) && forall r <- seen :: 1 <= r < limit
    ensures seen != [] ==> seen[|seen| - 1] >= |seen|
    ensures limit >= 1 ==> |seen| <= limit - 1
  {
    if seen != [] {
      var rest := seen[..|seen| - 1];
      assert forall r <- rest :: r in seen;
      IncreasingIsShort(rest, limit);
      assert seen[|seen| - 1] in seen;
    }
  }

  lemma {:induction false} ReadsAreBelow(calls: seq<Call>, id: JobId, bound: nat)
    requires forall c | 0 <= c < |calls| && Requeues(calls[c], id) :: 1 <= calls[c].source.attemptsRead < bound
    ensures forall r <- Reads(calls, id) :: 1 <= r < bound
  {
    if calls != [] {
      ReadsAreBelow(calls[..|calls| - 1], id, bound);
    }
  }

  lemma {:induction false} ReadsIncrease(calls: seq<Call>, id: JobId, limit: int)
    requires forall c | 0 <= c < |calls| && RecoversJob(calls[c], id) :: WithinLimit(calls[c], limit)
    requires forall c, d | 0 <= c < d < |calls| && RecoversJob(calls[c], id) && RecoversJob(calls[d], id) ::
      Follows(calls[c], calls[d])
    ensures Increasing(Reads(calls, id))
  {
    if calls != [] {
      var n := |calls| - 1;
      ReadsIncrease(calls[..n], id, limit);
      if Requeues(calls[n], id) {
        forall c | 0 <= c < n && Requeues(calls[..n][c], id)
          ensures 1 <= calls[..n][c].source.attemptsRead < calls[n].source.attemptsRead
        {
          assert Follows(calls[c], calls[n]) && WithinLimit(calls[c], limit);
        }
        ReadsAreBelow(calls[..n], id, calls[n].source.attemptsRead);
        var earlier := Reads(calls[..n], id);
        assert forall i | 0 <= i < |earlier| :: earlier[i] in earlier;
      }
    }
  }

  /** In any run without a committed manual retry of the job and without overlapping recoveries of it, the attempt
      counters read by its PROCESSING-to-QUEUED recoveries strictly increase, so there are fewer than `max_attempts`
      of them, whatever duplicate messages do meanwhile. */
  lemma RecoveriesAreBounded(s: State, actions: seq<Action>, id: JobId)
    requires Inv(s) && Valid(s, actions) && id in s.rows && OneEpochRun(s, actions, id)
    ensures |s.calls| <= |Exec(s, actions).calls|
    ensures var seen := Reads(Exec(s, actions).calls[|s.calls|..], id);
            Increasing(seen) && |seen| <= s.rows[id].maxAttempts - 1
  {
    assert RowOk(id, s.rows[id]);
    ExecKeepsAscending(s, actions, |s.calls|, id, s.rows[id].maxAttempts);
    AscendingIsBounded(Exec(s, actions), |s.calls|, id, s.rows[id].maxAttempts);
  }

  lemma AscendingIsBounded(later: State, base: nat, id: JobId, limit: int)
    requires Ascending(later, base, id, limit) && limit >= 1
    ensures var seen := Reads(later.calls[base..], id); Increasing(seen) && |seen| <= limit - 1
  {
    var calls := later.calls[base..];
    forall c, d | 0 <= c < d < |calls| && RecoversJob(calls[c], id) && RecoversJob(calls[d], id)
      ensures Follows(calls[c], calls[d])
    {
      assert calls[c] == later.calls[base + c] && calls[d] == later.calls[base + d];
    }
    ReadsIncrease(calls, id, limit);
    ReadsAreBelow(calls, id, limit);
    IncreasingIsShort(Reads(calls, id), limit);
  }
}
