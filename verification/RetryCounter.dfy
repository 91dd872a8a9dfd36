/** `manual_retry_count` counts the manual retries of a job, unless two of them overlap: each writes the value it read
    before its enqueue, plus one. */
module RetryCounter {
  import opened Common
  import opened Lifecycle
  import opened LifecycleInvariant
  import opened ReachableStates
  import opened VideoJobs

  predicate RetryOf(call: Call, id: JobId) {
    call.RequeueCall? && call.job == id && call.source.RetryRead?
  }

  predicate Pending(call: Call, id: JobId) {
    RetryOf(call, id) && (call.stage.Decided? || call.stage.Enqueued?)
  }

  /** The manual retries of the job that were committed. */
  function CommittedRetries(calls: seq<Call>, id: JobId): nat {
    if calls == [] then 0
    else
      var last := calls[|calls| - 1];
      CommittedRetries(calls[..|calls| - 1], id) + if RetryOf(last, id) && last.stage.Applied? then 1 else 0
  }

  /** A manual retry writes the row at its commit alone: neither its enqueue nor a failure of it touches the table. */
  lemma RetryWritesAtItsCommit(s: State, c: nat, step: RequeueStep)
    requires RequeueEnabled(s, c, step) && s.calls[c].source.RetryRead?
    ensures !step.Apply? ==> RequeueApply(s, c, step).rows == s.rows
    ensures step.Apply? ==>
      var id, before := s.calls[c].job, s.rows[s.calls[c].job];
      RequeueApply(s, c, step).rows
      == s.rows[id := before.(
           status := QUEUED, attemptCount := 0, queueJobId := Some(s.calls[c].stage.message), updatedAt := s.now,
           failure := FailureMetadata(None, None, None, false), timing := Timing(None, None, None),
           outputs := Outputs(None, None, None, None),
           retries := Retries(s.calls[c].source.countRead + 1, Some(s.now)))]
  {
  }

  lemma {:induction false} AppliedUpdated(calls: seq<Call>, c: nat, call: Call, id: JobId)
    requires c < |calls|
    ensures CommittedRetries(calls[c := call], id)
         == CommittedRetries(calls, id) - (if RetryOf(calls[c], id) && calls[c].stage.Applied? then 1 else 0)
            + (if RetryOf(call, id) && call.stage.Applied? then 1 else 0)
  {
    var n := |calls| - 1;
    if c == n {
      assert calls[c := call][..n] == calls[..n];
    } else {
      AppliedUpdated(calls[..n], c, call, id);
      assert calls[c := call][..n] == calls[..n][c := call];
    }
  }

  lemma AppliedAppended(calls: seq<Call>, call: Call, id: JobId)
    requires !(RetryOf(call, id) && call.stage.Applied?)
    ensures CommittedRetries(calls + [call], id) == CommittedRetries(calls, id)
  {
    assert (calls + [call])[..|calls|] == calls;
  }

  /** The action commits a manual retry of the job. */
  ghost predicate Applies(s: State, a: Action, id: JobId) {
    a.Requeue? && a.requeue.Apply? && Enabled(s, a) && RetryOf(s.calls[a.c], id)
  }

  /** A commit writes the counter it read plus one; it is fresh if the row still shows what was read. */
  ghost predicate Fresh(s: State, a: Action, id: JobId) {
    Applies(s, a, id) ==> s.calls[a.c].source.countRead == s.rows[id].retries.manualCount
  }

  ghost predicate FreshRun(s: State, actions: seq<Action>, id: JobId)
    requires Valid(s, actions)
    decreases |actions|
  {
    actions == [] || (Fresh(s, actions[0], id) && FreshRun(Next(s, actions[0]), actions[1..], id))
  }

  ghost predicate Exact(s: State, id: JobId) {
    id in s.rows ==> s.rows[id].retries.manualCount == CommittedRetries(s.calls, id)
  }

  /** The counter never runs ahead, and once it is behind no pending retry can bring it level again. */
  ghost predicate NeverAhead(s: State, id: JobId) {
    var n := CommittedRetries(s.calls, id);
    && (id in s.rows ==> s.rows[id].retries.manualCount <= n)
    && (forall c | 0 <= c < |s.calls| && Pending(s.calls[c], id) ::
          s.calls[c].source.countRead <= n && (s.calls[c].source.countRead == n ==> Exact(s, id)))
    && (id !in s.used ==> n == 0)
  }

  lemma RequeueMoves(s: State, c: nat, step: RequeueStep, id: JobId)
    requires RequeueEnabled(s, c, step)
    ensures var s' := RequeueApply(s, c, step);
            && CommittedRetries(s'.calls, id)
               == CommittedRetries(s.calls, id) + (if Applies(s, Requeue(c, step), id) then 1 else 0)
            && (id in s'.rows <==> id in s.rows)
            && (id in s.rows && Applies(s, Requeue(c, step), id) ==>
                  s'.rows[id].retries.manualCount == s.calls[c].source.countRead + 1)
            && (id in s.rows && !Applies(s, Requeue(c, step), id) ==> s'.rows[id].retries == s.rows[id].retries)
  {
    AppliedUpdated(s.calls, c, RequeueApply(s, c, step).calls[c], id);
  }

  lemma RequeueNeverAhead(s: State, c: nat, step: RequeueStep, id: JobId)
    requires RequeueEnabled(s, c, step) && NeverAhead(s, id) && s.rows.Keys <= s.used
    ensures NeverAhead(RequeueApply(s, c, step), id)
    ensures id in s.rows ==>
      (Exact(RequeueApply(s, c, step), id) <==> Exact(s, id) && Fresh(s, Requeue(c, step), id))
  {
    RequeueMoves(s, c, step, id);
    assert Applies(s, Requeue(c, step), id) ==> Pending(s.calls[c], id);
  }

  lemma UploadMoves(s: State, c: nat, step: UploadStep, id: JobId)
    requires UploadEnabled(s, c, step) && s.rows.Keys <= s.used
    ensures CommittedRetries(UploadApply(s, c, step).calls, id) == CommittedRetries(s.calls, id)
    ensures id in UploadApply(s, c, step).rows ==>
      if id in s.rows then UploadApply(s, c, step).rows[id].retries == s.rows[id].retries
      else id !in s.used && UploadApply(s, c, step).rows[id].retries.manualCount == 0
  {
    AppliedUpdated(s.calls, c, UploadApply(s, c, step).calls[c], id);
  }

  lemma CleanupMoves(s: State, c: nat, step: CleanupStep, id: JobId)
    requires CleanupEnabled(s, c, step)
    ensures CommittedRetries(CleanupApply(s, c, step).calls, id) == CommittedRetries(s.calls, id)
    ensures id in CleanupApply(s, c, step).rows ==>
      id in s.rows && CleanupApply(s, c, step).rows[id].retries == s.rows[id].retries
  {
    AppliedUpdated(s.calls, c, CleanupApply(s, c, step).calls[c], id);
  }

  lemma ReadMoves(s: State, a: Action, id: JobId)
    requires Enabled(s, a) && !a.Upload? && !a.Requeue? && !a.Cleanup?
    ensures CommittedRetries(Next(s, a).calls, id) == CommittedRetries(s.calls, id)
    ensures id in Next(s, a).rows <==> id in s.rows
    ensures id in s.rows ==> Next(s, a).rows[id].retries == s.rows[id].retries
  {
    if Next(s, a).calls != s.calls {
      AppliedAppended(s.calls, Next(s, a).calls[|s.calls|], id);
    }
  }

  lemma UploadNeverAhead(s: State, c: nat, step: UploadStep, id: JobId)
    requires UploadEnabled(s, c, step) && NeverAhead(s, id) && s.rows.Keys <= s.used
    ensures NeverAhead(UploadApply(s, c, step), id)
    ensures id in UploadApply(s, c, step).rows ==> (Exact(UploadApply(s, c, step), id) <==> Exact(s, id))
  {
    UploadMoves(s, c, step, id);
  }

  lemma CleanupNeverAhead(s: State, c: nat, step: CleanupStep, id: JobId)
    requires CleanupEnabled(s, c, step) && NeverAhead(s, id)
    ensures NeverAhead(CleanupApply(s, c, step), id)
    ensures id in CleanupApply(s, c, step).rows ==> (Exact(CleanupApply(s, c, step), id) <==> Exact(s, id))
  {
    CleanupMoves(s, c, step, id);
  }

  lemma ReadNeverAhead(s: State, a: Action, id: JobId)
    requires Enabled(s, a) && !a.Upload? && !a.Requeue? && !a.Cleanup? && NeverAhead(s, id)
    requires s.rows.Keys <= s.used
    ensures NeverAhead(Next(s, a), id) && (Exact(Next(s, a), id) <==> Exact(s, id))
  {
    ReadMoves(s, a, id);
  }

  lemma NextNeverAhead(s: State, a: Action, id: JobId)
    requires Enabled(s, a) && NeverAhead(s, id) && s.rows.Keys <= s.used
    ensures NeverAhead(Next(s, a), id)
    ensures id in Next(s, a).rows ==> (Exact(Next(s, a), id) <==> Exact(s, id) && Fresh(s, a, id))
  {
    match a
    case Upload(c, step) => UploadNeverAhead(s, c, step, id);
    case Requeue(c, step) =>
      RequeueNeverAhead(s, c, step, id);
      RequeueMoves(s, c, step, id);
    case Cleanup(c, step) => CleanupNeverAhead(s, c, step, id);
    case _ => ReadNeverAhead(s, a, id);
  }

  lemma {:induction false} CounterRun(s: State, actions: seq<Action>, id: JobId)
    requires Valid(s, actions) && Inv(s) && NeverAhead(s, id) && id in Exec(s, actions).rows
    ensures NeverAhead(Exec(s, actions), id)
    ensures Exact(Exec(s, actions), id) <==> Exact(s, id) && FreshRun(s, actions, id)
    decreases |actions|
  {
    if actions != [] {
      var next := Next(s, actions[0]);
      NextNeverAhead(s, actions[0], id);
      NextKeepsInv(s, actions[0]);
      if id !in next.rows && id in next.used {
        DeletedStaysDeleted(next, actions[1..], id);
      }
      assert id !in next.rows ==> Exact(s, id) && Fresh(s, actions[0], id) by {
        NextFrames(s, actions[0]);
      }
      CounterRun(next, actions[1..], id);
    }
  }

  /** In every reachable state the counter is at most the number of committed retries, and it equals that number if and
      only if every commit so far was fresh. */
  lemma CounterIsExactIffFresh(cfg: Settings, begin: int, actions: seq<Action>, id: JobId)
    requires Valid(Init(cfg, begin), actions) && id in Exec(Init(cfg, begin), actions).rows
    ensures var s := Exec(Init(cfg, begin), actions);
            && s.rows[id].retries.manualCount <= CommittedRetries(s.calls, id)
            && (s.rows[id].retries.manualCount == CommittedRetries(s.calls, id)
                <==> FreshRun(Init(cfg, begin), actions, id))
  {
    ReachableInv(cfg, begin, []);
    CounterRun(Init(cfg, begin), actions, id);
  }

  lemma {:induction false} SourceStays(s: State, actions: seq<Action>, c: nat)
    requires Valid(s, actions) && Inv(s) && c < |s.calls|
    ensures c < |Exec(s, actions).calls| && SameCall(s.calls[c], Exec(s, actions).calls[c])
    decreases |actions|
  {
    if actions != [] {
      NextFrames(s, actions[0]);
      NextKeepsInv(s, actions[0]);
      SourceStays(Next(s, actions[0]), actions[1..], c);
    }
  }

  /** While the counter is exact, a commit is fresh, and so raises it by exactly one, if and only if no other retry of
      the job was committed since this one read it. */
  lemma FreshIffNoneOverlapped(s: State, between: seq<Action>, id: JobId)
    requires Inv(s) && Enabled(s, RetryReads(id)) && Valid(Next(s, RetryReads(id)), between) && Exact(s, id)
    requires var s' := Exec(Next(s, RetryReads(id)), between);
             Enabled(s', Requeue(|s.calls|, Apply)) && Exact(s', id)
    ensures var s' := Exec(Next(s, RetryReads(id)), between);
            var s'' := Next(s', Requeue(|s.calls|, Apply));
            && id in s'.rows && id in s''.rows
            && (s''.rows[id].retries.manualCount == s'.rows[id].retries.manualCount + 1
                <==> CommittedRetries(s'.calls, id) == CommittedRetries(s.calls, id))
  {
    var read := Next(s, RetryReads(id));
    NextKeepsInv(s, RetryReads(id));
    SourceStays(read, between, |s.calls|);
    var s' := Exec(read, between);
    RequeueMoves(s', |s.calls|, Apply, id);
  }
}
