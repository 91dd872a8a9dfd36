/** Recovery by reconcilers that work inside their lease, joined with the lifecycle of the jobs: as long as no pass
    overruns its lease, the recoveries of a job never overlap. */
module LeasedRecovery {
  import opened BoundedRecovery
  import opened LifecycleInvariant
  import opened VideoJobs
  import Lease = ReconcilerLease
  import Life = Lifecycle

  /** `owner` says which reconciler run began a recovery call. */
  datatype Joint = Joint(life: Life.State, lease: Lease.State, owner: map<nat, nat>)

  datatype Step =
    | Act(action: Life.Action)
    | Lock(command: Lease.Action)
    | Recover(r: nat, id: JobId)

  predicate RecoveryUnderWay(call: Life.Call) {
    UnderWay(call) && call.source.RecoveryRead?
  }

  /** The run has begun a recovery that it has neither committed nor given up. */
  ghost predicate Busy(j: Joint, r: nat) {
    exists c :: 0 <= c < |j.life.calls| && RecoveryUnderWay(j.life.calls[c]) && c in j.owner && j.owner[c] == r
  }

  /** Every recovery is begun by a run inside its pass, one after the other; a pass ends, by itself or by a crash, only
      with the recovery it was working on. */
  ghost predicate Enabled(j: Joint, step: Step) {
    match step
    case Act(a) => Life.Enabled(j.life, a) && !a.RecoveryReads?
    case Lock(b) => Lease.Enabled(j.lease, b) && (b.PassEnds? || b.Crash? ==> !Busy(j, b.r))
    case Recover(r, id) => Lease.Inside(j.lease, r) && !Busy(j, r) && Life.Enabled(j.life, Life.RecoveryReads(id))
  }

  ghost function Next(j: Joint, step: Step): Joint
    requires Enabled(j, step)
  {
    match step
    case Act(a) => j.(life := Life.Next(j.life, a))
    case Lock(b) => j.(lease := Lease.Next(j.lease, b))
    case Recover(r, id) =>
      j.(life := Life.Next(j.life, Life.RecoveryReads(id)), owner := j.owner[|j.life.calls| := r])
  }

  ghost predicate Valid(j: Joint, steps: seq<Step>)
    decreases |steps|
  {
    steps == [] || (Enabled(j, steps[0]) && Valid(Next(j, steps[0]), steps[1..]))
  }

  /** What the jobs see of a joint run. */
  function Actions(steps: seq<Step>): seq<Life.Action> {
    if steps == [] then []
    else
      (match steps[0]
       case Act(a) => [a]
       case Lock(_) => []
       case Recover(_, id) => [Life.RecoveryReads(id)]) + Actions(steps[1..])
  }

  /** No run is inside the pass after its lease has run out when a recovery begins. */
  ghost predicate NoOverrun(j: Joint, steps: seq<Step>)
    requires Valid(j, steps)
    decreases |steps|
  {
    steps == []
    || ((steps[0].Recover? ==> forall r :: !Lease.Overran(j.lease, r)) && NoOverrun(Next(j, steps[0]), steps[1..]))
  }

  /** No manual retry of the job is committed. */
  ghost predicate NoRetry(j: Joint, steps: seq<Step>, id: JobId)
    requires Valid(j, steps)
    decreases |steps|
  {
    steps == []
    || ((steps[0].Act? ==> !Retries(j.life, steps[0].action, id)) && NoRetry(Next(j, steps[0]), steps[1..], id))
  }

  ghost predicate Retries(s: Life.State, a: Life.Action, id: JobId) {
    && a.Requeue? && a.requeue.Apply? && a.c < |s.calls| && s.calls[a.c].RequeueCall? && s.calls[a.c].job == id
    && s.calls[a.c].source.RetryRead?
  }

  /** Every recovery under way belongs to a run inside its pass. */
  ghost predicate Owned(j: Joint) {
    forall c | 0 <= c < |j.life.calls| && RecoveryUnderWay(j.life.calls[c]) ::
      c in j.owner && Lease.Inside(j.lease, j.owner[c])
  }

  /** A recovery under way after an action was under way before it. */
  ghost predicate NoneBegins(s: Life.State, s': Life.State) {
    forall c | 0 <= c < |s'.calls| && RecoveryUnderWay(s'.calls[c]) :: c < |s.calls| && RecoveryUnderWay(s.calls[c])
  }

  lemma UploadBeginsNone(s: Life.State, c: nat, step: Life.UploadStep)
    requires Life.UploadEnabled(s, c, step)
    ensures NoneBegins(s, Life.UploadApply(s, c, step))
  {
  }

  lemma RequeueBeginsNone(s: Life.State, c: nat, step: Life.RequeueStep)
    requires Life.RequeueEnabled(s, c, step)
    ensures NoneBegins(s, Life.RequeueApply(s, c, step))
  {
  }

  lemma CleanupBeginsNone(s: Life.State, c: nat, step: Life.CleanupStep)
    requires Life.CleanupEnabled(s, c, step)
    ensures NoneBegins(s, Life.CleanupApply(s, c, step))
  {
  }

  lemma OthersBeginNone(s: Life.State, a: Life.Action)
    requires Life.Enabled(s, a) && !a.RecoveryReads? && !a.Upload? && !a.Requeue? && !a.Cleanup?
    ensures NoneBegins(s, Life.Next(s, a))
  {
  }

  lemma OldRecovery(s: Life.State, a: Life.Action)
    requires Life.Enabled(s, a) && !a.RecoveryReads?
    ensures NoneBegins(s, Life.Next(s, a))
  {
    match a
    case Upload(c, step) => UploadBeginsNone(s, c, step);
    case Requeue(c, step) => RequeueBeginsNone(s, c, step);
    case Cleanup(c, step) => CleanupBeginsNone(s, c, step);
    case _ => OthersBeginNone(s, a);
  }

  lemma ReadBeginsOne(s: Life.State, id: JobId, c: nat)
    requires Life.Enabled(s, Life.RecoveryReads(id)) && c < |Life.Next(s, Life.RecoveryReads(id)).calls|
    requires RecoveryUnderWay(Life.Next(s, Life.RecoveryReads(id)).calls[c])
    ensures c == |s.calls| || (c < |s.calls| && RecoveryUnderWay(s.calls[c]))
  {
  }

  lemma InsideStays(s: Lease.State, b: Lease.Action, r: nat)
    requires Lease.Enabled(s, b) && Lease.Inside(s, r) && !((b.PassEnds? || b.Crash?) && b.r == r)
    ensures Lease.Inside(Lease.Next(s, b), r)
  {
  }

  lemma NextKeepsOwned(j: Joint, step: Step)
    requires Enabled(j, step) && Owned(j)
    ensures Owned(Next(j, step))
  {
    var j' := Next(j, step);
    forall c | 0 <= c < |j'.life.calls| && RecoveryUnderWay(j'.life.calls[c])
      ensures c in j'.owner && Lease.Inside(j'.lease, j'.owner[c])
    {
      match step
      case Act(a) => OldRecovery(j.life, a);
      case Lock(b) => InsideStays(j.lease, b, j.owner[c]);
      case Recover(_, id) => ReadBeginsOne(j.life, id, c);
    }
  }

  /** Without an overrun, a recovery begins only when none is under way. */
  lemma RecoveryBeginsAlone(j: Joint, r: nat, id: JobId, c: nat)
    requires Enabled(j, Recover(r, id)) && Owned(j) && Lease.Inv(j.lease) && c < |j.life.calls|
    requires forall q :: !Lease.Overran(j.lease, q)
    ensures !RecoveryUnderWay(j.life.calls[c])
  {
    if RecoveryUnderWay(j.life.calls[c]) && j.owner[c] != r {
      Lease.TwoInsideMeansOverrun(j.lease, j.owner[c], r);
    }
  }

  lemma {:induction false} RecoveriesDoNotOverlap(j: Joint, steps: seq<Step>, id: JobId)
    requires Valid(j, steps) && Owned(j) && Lease.Inv(j.lease) && NoOverrun(j, steps) && NoRetry(j, steps, id)
    ensures Life.Valid(j.life, Actions(steps)) && OneEpochRun(j.life, Actions(steps), id)
    decreases |steps|
  {
    if steps != [] {
      var step, rest := steps[0], Actions(steps[1..]);
      NextKeepsOwned(j, step);
      if step.Lock? {
        Lease.NextKeepsInv(j.lease, step.command);
        RecoveriesDoNotOverlap(Next(j, step), steps[1..], id);
        assert Actions(steps) == rest;
      } else {
        RecoveriesDoNotOverlap(Next(j, step), steps[1..], id);
        var a := if step.Act? then step.action else Life.RecoveryReads(step.id);
        assert Actions(steps) == [a] + rest && ([a] + rest)[1..] == rest;
        if step.Recover? {
          forall c | 0 <= c < |j.life.calls| ensures !RecoveryUnderWay(j.life.calls[c]) {
            RecoveryBeginsAlone(j, step.r, step.id, c);
          }
        }
      }
    }
  }

  /** Reconcilers that never overrun their lease requeue a PROCESSING job fewer than `max_attempts` times between manual
      retries, at strictly increasing attempt counts, however many of them there are. */
  lemma LeasedRecoveriesAreBounded(j: Joint, steps: seq<Step>, id: JobId)
    requires Inv(j.life) && Lease.Inv(j.lease) && Owned(j) && id in j.life.rows
    requires Valid(j, steps) && NoOverrun(j, steps) && NoRetry(j, steps, id)
    ensures Life.Valid(j.life, Actions(steps))
    ensures var later := Life.Exec(j.life, Actions(steps));
            && |j.life.calls| <= |later.calls|
            && var seen := Reads(later.calls[|j.life.calls|..], id);
               Increasing(seen) && |seen| <= j.life.rows[id].maxAttempts - 1
  {
    RecoveriesDoNotOverlap(j, steps, id);
    RecoveriesAreBounded(j.life, Actions(steps), id);
  }
}
