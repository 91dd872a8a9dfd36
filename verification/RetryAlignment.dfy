/** RQ's retry budget and the row's attempt counter stay aligned. */
module RetryAlignment {
  import opened Common
  import opened DeliveryConservation
  import opened Lifecycle
  import opened LifecycleInvariant
  import opened QuiescentStability
  import opened ReachableStates
  import opened RedisQueue
  import opened VideoJobs

  // attempt_count counts claims

  /** Until its first manual retry, a row's attempt counter is the number of claims of its messages. */
  ghost predicate AttemptsAreClaims(s: State) {
    forall id <- s.rows :: s.rows[id].retries.manualCount == 0 ==>
      s.rows[id].attemptCount == Sum(Claims, s.messages, Some(id))
  }

  /** How an action moves the two counters of one row. */
  ghost predicate CountersMove(s: State, a: Action, id: JobId, row: Row) {
    id in s.rows && row.retries.manualCount == 0 && !Inserts(a, id) ==>
      && s.rows[id].retries.manualCount == 0
      && row.attemptCount == s.rows[id].attemptCount + if ClaimsJob(s, a, id) then 1 else 0
  }

  predicate Inserts(a: Action, id: JobId) {
    a.Upload? && a.upload.Insert? && a.upload.id == id
  }

  lemma WorkerMovesCounters(s: State, m: nat, step: WorkerStep, id: JobId)
    requires WorkerEnabled(s, m, step) && id in WorkerApply(s, m, step).rows
    ensures CountersMove(s, Worker(m, step), id, WorkerApply(s, m, step).rows[id])
  {
  }

  lemma OthersMoveCounters(s: State, a: Action, id: JobId)
    requires Enabled(s, a) && !a.Worker? && id in Next(s, a).rows
    ensures CountersMove(s, a, id, Next(s, a).rows[id])
  {
  }

  lemma AttemptsMove(s: State, a: Action, id: JobId)
    requires Enabled(s, a) && id in Next(s, a).rows
    ensures CountersMove(s, a, id, Next(s, a).rows[id])
  {
    if a.Worker? {
      WorkerMovesCounters(s, a.m, a.worker, id);
    } else {
      OthersMoveCounters(s, a, id);
    }
  }

  lemma NextKeepsAttempts(s: State, a: Action)
    requires Enabled(s, a) && AttemptsAreClaims(s) && s.rows.Keys <= s.used
    requires forall m | 0 <= m < |s.messages| :: s.messages[m].job in s.used
    ensures AttemptsAreClaims(Next(s, a))
  {
    var s' := Next(s, a);
    NextFrames(s, a);
    forall id <- s'.rows | s'.rows[id].retries.manualCount == 0
      ensures s'.rows[id].attemptCount == Sum(Claims, s'.messages, Some(id))
    {
      ClaimIsCounted(s, a, id);
      if id in s.rows {
        AttemptsMove(s, a, id);
      } else {
        SumOfNone(Claims, s.messages, id);
        InsertedFresh(s, a, id);
      }
    }
  }

  lemma InsertedFresh(s: State, a: Action, id: JobId)
    requires Enabled(s, a) && id !in s.rows && id in Next(s, a).rows
    ensures Next(s, a).rows[id].attemptCount == 0 && !ClaimsJob(s, a, id)
  {
  }

  lemma {:induction false} AttemptsCountClaims(s: State, actions: seq<Action>)
    requires Valid(s, actions) && Inv(s) && AttemptsAreClaims(s)
    ensures AttemptsAreClaims(Exec(s, actions))
    decreases |actions|
  {
    if actions != [] {
      assert forall m | 0 <= m < |s.messages| :: MessageOk(s, s.messages[m]);
      NextKeepsInv(s, actions[0]);
      NextKeepsAttempts(s, actions[0]);
      AttemptsCountClaims(Next(s, actions[0]), actions[1..]);
    }
  }

  /** In every reachable state, over all messages and duplicates. */
  lemma AttemptCountIsClaimCount(cfg: Settings, start: int, actions: seq<Action>, id: JobId)
    requires Valid(Init(cfg, start), actions) && id in Exec(Init(cfg, start), actions).rows
    requires Exec(Init(cfg, start), actions).rows[id].retries.manualCount == 0
    ensures Exec(Init(cfg, start), actions).rows[id].attemptCount == ClaimCount(Init(cfg, start), actions, id)
  {
    ReachableInv(cfg, start, []);
    AttemptsCountClaims(Init(cfg, start), actions);
    ClaimsAreCounted(Init(cfg, start), actions, id);
  }

  // One message

  /** The call has pushed a message for the job and has yet to commit QUEUED. */
  ghost predicate CommitPending(call: Call, id: JobId) {
    call.UploadCall? && call.at.Pushed? && call.at.id == id
  }

  /** The job is requeued by nobody, and its message is delivered only after the QUEUED commit. */
  ghost predicate Undisturbed(s: State, a: Action, id: JobId) {
    && a != RecoveryReads(id) && a != RetryReads(id)
    && (a.Worker? && a.worker.Fetch? && a.m < |s.messages| && s.messages[a.m].job == id ==>
          forall c | 0 <= c < |s.calls| :: !CommitPending(s.calls[c], id))
  }

  ghost predicate UndisturbedRun(s: State, actions: seq<Action>, id: JobId)
    requires Valid(s, actions)
    decreases |actions|
  {
    actions == [] || (Undisturbed(s, actions[0], id) && UndisturbedRun(Next(s, actions[0]), actions[1..], id))
  }

  /** The stretch of a job's life that begins with its upload or with a manual retry: message number `first` is the
      first that can belong to it, and the row shows `retries` manual retries throughout. */
  datatype Epoch = Epoch(first: nat, retries: nat)

  /** The row's status as seen from the only message of the epoch. */
  predicate StatusFits(row: Row, message: Message, retries: nat) {
    && row.retries.manualCount == retries && row.attemptCount == message.claims
    && match message.phase
       case Running(_, _, _, Committed) => row.status.COMPLETED?
       case Running(_, _, _, _) => row.status.PROCESSING?
       case _ =>
         if message.claims == 0 then row.status.UPLOADED? || row.status.QUEUED?
         else row.status.COMPLETED? || row.status.FAILED? || row.status.PROCESSING?
  }

  /** Nothing of an earlier epoch is left, and nobody has requeued the job since. */
  ghost predicate Solo(s: State, id: JobId, e: Epoch) {
    && e.first <= |s.messages|
    && (e.retries > 0 ==> PastUpload(s, id))
    && (forall c | 0 <= c < |s.calls| && s.calls[c].RequeueCall? && s.calls[c].job == id ::
          !s.calls[c].stage.Decided? && !s.calls[c].stage.Enqueued?)
    && (forall m | 0 <= m < e.first && s.messages[m].job == id :: s.messages[m].phase.Done?)
    && (forall m, k | e.first <= m < k < |s.messages| && s.messages[m].job == id :: s.messages[k].job != id)
    && (forall m | e.first <= m < |s.messages| && s.messages[m].job == id && id in s.rows ::
          StatusFits(s.rows[id], s.messages[m], e.retries))
    && (forall m, c | e.first <= m < |s.messages| && s.messages[m].job == id && 0 <= c < |s.calls| ::
          CommitPending(s.calls[c], id) ==> s.messages[m].phase.Waiting? && s.messages[m].claims == 0)
  }

  /** The worker's own message and row keep fitting. */
  lemma WorkerKeepsFit(s: State, m: nat, step: WorkerStep, retries: nat)
    requires WorkerEnabled(s, m, step) && s.messages[m].job in s.rows && Balanced(s.messages[m])
    requires Coherent(s.rows[s.messages[m].job]) && StatusFits(s.rows[s.messages[m].job], s.messages[m], retries)
    ensures var s' := WorkerApply(s, m, step);
            s.messages[m].job in s'.rows && StatusFits(s'.rows[s.messages[m].job], s'.messages[m], retries)
  {
  }

  lemma OwnWorkerKeepsSolo(s: State, m: nat, step: WorkerStep, id: JobId, e: Epoch)
    requires WorkerEnabled(s, m, step) && Solo(s, id, e) && Undisturbed(s, Worker(m, step), id)
    requires s.messages[m].job == id && Balanced(s.messages[m]) && (id in s.rows ==> Coherent(s.rows[id]))
    ensures Solo(WorkerApply(s, m, step), id, e)
  {
    var s' := WorkerApply(s, m, step);
    assert s'.calls == s.calls && s'.messages == s.messages[m := s'.messages[m]] && s'.messages[m].job == id;
    assert m >= e.first;
    if id in s.rows {
      WorkerKeepsFit(s, m, step, e.retries);
    }
    assert id in s'.rows ==> id in s.rows;
  }

  lemma OtherWorkerKeepsSolo(s: State, m: nat, step: WorkerStep, id: JobId, e: Epoch)
    requires WorkerEnabled(s, m, step) && Solo(s, id, e) && s.messages[m].job != id
    ensures Solo(WorkerApply(s, m, step), id, e)
  {
    var s' := WorkerApply(s, m, step);
    assert s'.calls == s.calls && s'.messages == s.messages[m := s'.messages[m]] && s'.messages[m].job != id;
    assert id in s'.rows ==> id in s.rows && s'.rows[id] == s.rows[id];
  }

  lemma WorkerKeepsSolo(s: State, m: nat, step: WorkerStep, id: JobId, e: Epoch)
    requires WorkerEnabled(s, m, step) && Solo(s, id, e) && Undisturbed(s, Worker(m, step), id)
    requires Balanced(s.messages[m]) && (id in s.rows ==> Coherent(s.rows[id]))
    ensures Solo(WorkerApply(s, m, step), id, e)
  {
    if s.messages[m].job == id {
      OwnWorkerKeepsSolo(s, m, step, id, e);
    } else {
      OtherWorkerKeepsSolo(s, m, step, id, e);
    }
  }

  lemma PushKeepsSolo(s: State, c: nat, id: JobId, e: Epoch)
    requires UploadEnabled(s, c, PushUpload) && Solo(s, id, e) && CallOk(s, c)
    requires id in s.rows ==> Coherent(s.rows[id])
    ensures Solo(UploadApply(s, c, PushUpload), id, e)
  {
  }

  lemma CommitKeepsSolo(s: State, c: nat, id: JobId, e: Epoch)
    requires UploadEnabled(s, c, CommitQueued) && Solo(s, id, e)
    ensures Solo(UploadApply(s, c, CommitQueued), id, e)
  {
    assert s.calls[c].at.id == id ==> CommitPending(s.calls[c], id);
  }

  lemma SoloIsKept(s: State, s': State, c: nat, id: JobId, e: Epoch)
    requires Solo(s, id, e) && c < |s.calls| && s.calls[c].UploadCall? && s'.messages == s.messages
    requires |s'.calls| == |s.calls| && s'.calls == s.calls[c := s'.calls[c]]
    requires s'.calls[c].UploadCall? && !CommitPending(s'.calls[c], id)
    requires s.used <= s'.used && (id in s.used && id in s'.rows ==> id in s.rows)
    requires forall m | 0 <= m < |s.messages| :: s.messages[m].job in s.used
    requires id in s.rows && id in s'.rows ==>
      || s'.rows[id] == s.rows[id]
      || (s.rows[id].status.UPLOADED? && forall m | 0 <= m < |s.messages| :: s.messages[m].job != id)
    ensures Solo(s', id, e)
  {
  }

  lemma RestOfUploadKeepsSolo(s: State, c: nat, step: UploadStep, id: JobId, e: Epoch)
    requires UploadEnabled(s, c, step) && Solo(s, id, e) && CallOk(s, c) && !step.PushUpload? && !step.CommitQueued?
    requires s.rows.Keys <= s.used
    requires forall m | 0 <= m < |s.messages| :: s.messages[m].job in s.used
    ensures Solo(UploadApply(s, c, step), id, e)
  {
    SoloIsKept(s, UploadApply(s, c, step), c, id, e);
  }

  lemma UploadKeepsSolo(s: State, c: nat, step: UploadStep, id: JobId, e: Epoch)
    requires UploadEnabled(s, c, step) && Solo(s, id, e) && CallOk(s, c) && s.rows.Keys <= s.used
    requires id in s.rows ==> Coherent(s.rows[id])
    requires forall m | 0 <= m < |s.messages| :: s.messages[m].job in s.used
    ensures Solo(UploadApply(s, c, step), id, e)
  {
    match step
    case PushUpload => PushKeepsSolo(s, c, id, e);
    case CommitQueued => CommitKeepsSolo(s, c, id, e);
    case _ => RestOfUploadKeepsSolo(s, c, step, id, e);
  }

  lemma RequeueKeepsSolo(s: State, c: nat, step: RequeueStep, id: JobId, e: Epoch)
    requires RequeueEnabled(s, c, step) && Solo(s, id, e)
    ensures Solo(RequeueApply(s, c, step), id, e)
  {
    assert s.calls[c].job != id;
  }

  lemma CleanupKeepsSolo(s: State, c: nat, step: CleanupStep, id: JobId, e: Epoch)
    requires CleanupEnabled(s, c, step) && Solo(s, id, e)
    ensures Solo(CleanupApply(s, c, step), id, e)
  {
  }

  lemma ReadKeepsSolo(s: State, a: Action, id: JobId, e: Epoch)
    requires Enabled(s, a) && !a.Upload? && !a.Requeue? && !a.Cleanup? && !a.Worker?
    requires Solo(s, id, e) && Undisturbed(s, a, id)
    ensures Solo(Next(s, a), id, e)
  {
  }

  lemma NextKeepsSolo(s: State, a: Action, id: JobId, e: Epoch)
    requires Enabled(s, a) && Solo(s, id, e) && Undisturbed(s, a, id)
    requires id in s.rows ==> Coherent(s.rows[id])
    requires MessagesOk(s) && s.rows.Keys <= s.used && (a.Upload? ==> CallOk(s, a.c))
    ensures Solo(Next(s, a), id, e)
  {
    assert forall m | 0 <= m < |s.messages| :: MessageOk(s, s.messages[m]);
    match a
    case Upload(c, step) => UploadKeepsSolo(s, c, step, id, e);
    case Requeue(c, step) => RequeueKeepsSolo(s, c, step, id, e);
    case Cleanup(c, step) => CleanupKeepsSolo(s, c, step, id, e);
    case Worker(m, step) => WorkerKeepsSolo(s, m, step, id, e);
    case _ => ReadKeepsSolo(s, a, id, e);
  }

  lemma {:induction false} ExecKeepsSolo(s: State, actions: seq<Action>, id: JobId, e: Epoch)
    requires Valid(s, actions) && Inv(s) && Solo(s, id, e) && UndisturbedRun(s, actions, id)
    ensures Solo(Exec(s, actions), id, e)
    decreases |actions|
  {
    if actions != [] {
      var a := actions[0];
      assert id in s.rows ==> RowOk(id, s.rows[id]);
      assert a.Upload? ==> CallOk(s, a.c);
      NextKeepsSolo(s, a, id, e);
      NextKeepsInv(s, a);
      ExecKeepsSolo(Next(s, a), actions[1..], id, e);
    }
  }

  /** What alignment means for a row and the only message of its epoch:
      - the attempts made, the deliveries due and the deliveries lost add up to `max_attempts`; so attempts and
        remaining deliveries are aligned exactly as long as no delivery was lost or is being picked up;
      - once the message is used up without loss, the row is COMPLETED, or at the limit and exhausted FAILED, or
        PROCESSING at the limit. */
  ghost predicate Aligned(row: Row, message: Message) {
    && row.attemptCount + Value(Outstanding, message) + message.lost == row.maxAttempts
    && (row.attemptCount + message.left == row.maxAttempts <==> !message.phase.Fetched? && message.lost == 0)
    && (message.phase.Done? && message.lost == 0 && !row.status.COMPLETED? ==>
          && row.attemptCount == row.maxAttempts
          && ((row.status.FAILED? && row.failure.retryExhausted) || row.status.PROCESSING?))
  }

  lemma FitIsAligned(row: Row, message: Message, retries: nat)
    requires StatusFits(row, message, retries) && Coherent(row) && Balanced(message)
    requires message.budget == Deliveries(row.maxAttempts)
    ensures Aligned(row, message)
  {
  }

  /** A PROCESSING row whose message is used up without loss is failed for good by the next recovery of it, which
      enqueues nothing and leaves nothing to be committed. */
  ghost predicate NextRecoveryFails(s: State, id: JobId, message: Message) {
    id in s.rows && s.rows[id].status.PROCESSING? && message.phase.Done? && message.lost == 0 ==>
      && RecoveryReadsEnabled(s, id)
      && var next := RecoveryReadsApply(s, id);
         && next.rows[id].status.FAILED? && next.rows[id].failure.retryExhausted
         && next.messages == s.messages && next.calls == s.calls
  }

  /** Over any undisturbed stretch of an epoch, whatever fails or crashes, the row and the only message of the epoch are
      aligned. */
  lemma EpochIsAligned(s: State, actions: seq<Action>, id: JobId, e: Epoch, m: nat)
    requires Inv(s) && Solo(s, id, e) && Valid(s, actions) && UndisturbedRun(s, actions, id)
    requires m >= e.first && Names(Exec(s, actions).messages, m, id) && id in Exec(s, actions).rows
    ensures var later := Exec(s, actions);
            && Aligned(later.rows[id], later.messages[m]) && NextRecoveryFails(later, id, later.messages[m])
            && later.rows[id].retries.manualCount == e.retries
            && forall k | e.first <= k < |later.messages| && later.messages[k].job == id :: k == m
  {
    var later := Exec(s, actions);
    ExecKeepsInv(s, actions);
    ExecKeepsSolo(s, actions, id, e);
    assert MessageOk(later, later.messages[m]);
    assert RowOk(id, later.rows[id]);
    FitIsAligned(later.rows[id], later.messages[m], e.retries);
  }

  /** The first epoch: a job nobody requeues has at most one message, and is aligned with it. */
  lemma RetriesAreAligned(cfg: Settings, start: int, actions: seq<Action>, id: JobId, m: nat)
    requires Valid(Init(cfg, start), actions) && UndisturbedRun(Init(cfg, start), actions, id)
    requires Names(Exec(Init(cfg, start), actions).messages, m, id) && id in Exec(Init(cfg, start), actions).rows
    ensures var s := Exec(Init(cfg, start), actions);
            && Aligned(s.rows[id], s.messages[m]) && NextRecoveryFails(s, id, s.messages[m])
            && forall k | 0 <= k < |s.messages| && s.messages[k].job == id :: k == m
  {
    ReachableInv(cfg, start, []);
    EpochIsAligned(Init(cfg, start), actions, id, Epoch(0, 0), m);
  }

  // Manual retries

  /** The job has failed and nothing of it is on its way. */
  ghost predicate AtRest(s: State, id: JobId) {
    && id in s.rows && s.rows[id].status.FAILED?
    && (forall m | 0 <= m < |s.messages| && s.messages[m].job == id :: s.messages[m].phase.Done?)
    && (forall c | 0 <= c < |s.calls| :: !InFlight(s.calls[c], id))
  }

  /** Between the read and the commit of the retry nobody takes its message up and nobody reads another retry. */
  ghost predicate Alone(s: State, a: Action, id: JobId) {
    && a != RetryReads(id)
    && (a.Worker? && a.worker.Fetch? && a.m < |s.messages| ==> s.messages[a.m].job != id)
  }

  ghost predicate AloneRun(s: State, actions: seq<Action>, id: JobId)
    requires Valid(s, actions)
    decreases |actions|
  {
    actions == [] || (Alone(s, actions[0], id) && AloneRun(Next(s, actions[0]), actions[1..], id))
  }

  ghost predicate CallPending(s: State, c: nat) {
    c < |s.calls| && s.calls[c].RequeueCall? && (s.calls[c].stage.Decided? || s.calls[c].stage.Enqueued?)
  }

  /** Call `c` is a manual retry that has yet to commit, and all there is of the job beside its FAILED row is the
      message it has pushed, if it has. */
  ghost predicate Retrying(s: State, id: JobId, c: nat, first: nat, count: nat) {
    && CallPending(s, c) && s.calls[c].job == id && s.calls[c].source == RetryRead(count)
    && (forall d | 0 <= d < |s.calls| && d != c :: !InFlight(s.calls[d], id))
    && first <= |s.messages| && PastUpload(s, id)
    && (id in s.rows ==> s.rows[id].status.FAILED? && s.rows[id].retries.manualCount == count)
    && (forall m | 0 <= m < first && s.messages[m].job == id :: s.messages[m].phase.Done?)
    && (forall m | first <= m < |s.messages| && s.messages[m].job == id ::
          s.calls[c].stage == Enqueued(m) && s.messages[m].phase.Waiting? && s.messages[m].claims == 0)
    && (s.calls[c].stage.Enqueued? ==>
          first <= s.calls[c].stage.message && Names(s.messages, s.calls[c].stage.message, id))
  }

  lemma WorkerKeepsRetrying(s: State, m: nat, step: WorkerStep, id: JobId, c: nat, first: nat, count: nat)
    requires WorkerEnabled(s, m, step) && Retrying(s, id, c, first, count) && Alone(s, Worker(m, step), id)
    ensures Retrying(WorkerApply(s, m, step), id, c, first, count)
  {
    assert s.messages[m].job != id;
  }

  lemma UploadKeepsRetrying(s: State, u: nat, step: UploadStep, id: JobId, c: nat, first: nat, count: nat)
    requires UploadEnabled(s, u, step) && Retrying(s, id, c, first, count)
    ensures Retrying(UploadApply(s, u, step), id, c, first, count)
  {
    assert !InFlight(s.calls[u], id);
  }

  lemma OwnStepKeepsRetrying(s: State, step: RequeueStep, id: JobId, c: nat, first: nat, count: nat)
    requires RequeueEnabled(s, c, step) && Retrying(s, id, c, first, count)
    requires CallPending(RequeueApply(s, c, step), c)
    ensures Retrying(RequeueApply(s, c, step), id, c, first, count)
  {
  }

  lemma OtherStepKeepsRetrying(s: State, d: nat, step: RequeueStep, id: JobId, c: nat, first: nat, count: nat)
    requires RequeueEnabled(s, d, step) && d != c && Retrying(s, id, c, first, count)
    ensures Retrying(RequeueApply(s, d, step), id, c, first, count)
  {
    assert !InFlight(s.calls[d], id);
  }

  lemma CleanupKeepsRetrying(s: State, d: nat, step: CleanupStep, id: JobId, c: nat, first: nat, count: nat)
    requires CleanupEnabled(s, d, step) && Retrying(s, id, c, first, count)
    ensures Retrying(CleanupApply(s, d, step), id, c, first, count)
  {
  }

  lemma ReadKeepsRetrying(s: State, a: Action, id: JobId, c: nat, first: nat, count: nat)
    requires Enabled(s, a) && !a.Upload? && !a.Requeue? && !a.Cleanup? && !a.Worker?
    requires Retrying(s, id, c, first, count) && Alone(s, a, id)
    ensures Retrying(Next(s, a), id, c, first, count)
  {
  }

  lemma NextKeepsRetrying(s: State, a: Action, id: JobId, c: nat, first: nat, count: nat)
    requires Enabled(s, a) && Retrying(s, id, c, first, count) && Alone(s, a, id) && CallPending(Next(s, a), c)
    ensures Retrying(Next(s, a), id, c, first, count)
  {
    match a
    case Upload(u, step) => UploadKeepsRetrying(s, u, step, id, c, first, count);
    case Requeue(d, step) =>
      if d == c {
        OwnStepKeepsRetrying(s, step, id, c, first, count);
      } else {
        OtherStepKeepsRetrying(s, d, step, id, c, first, count);
      }
    case Cleanup(d, step) => CleanupKeepsRetrying(s, d, step, id, c, first, count);
    case Worker(m, step) => WorkerKeepsRetrying(s, m, step, id, c, first, count);
    case _ => ReadKeepsRetrying(s, a, id, c, first, count);
  }

  /** A requeue that is over stays over. */
  lemma CallWasPending(s: State, a: Action, c: nat)
    requires Enabled(s, a) && c < |s.calls| && CallPending(Next(s, a), c)
    ensures CallPending(s, c)
  {
  }

  lemma {:induction false} PendingAllAlong(s: State, actions: seq<Action>, c: nat)
    requires Valid(s, actions) && c < |s.calls| && CallPending(Exec(s, actions), c)
    ensures CallPending(s, c)
    decreases |actions|
  {
    if actions != [] {
      CallsNeverGo(s, actions[0]);
      PendingAllAlong(Next(s, actions[0]), actions[1..], c);
      CallWasPending(s, actions[0], c);
    }
  }

  lemma CallsNeverGo(s: State, a: Action)
    requires Enabled(s, a)
    ensures |s.calls| <= |Next(s, a).calls|
  {
  }

  lemma {:induction false} RunKeepsRetrying(s: State, actions: seq<Action>, id: JobId, c: nat, first: nat, count: nat)
    requires Valid(s, actions) && Retrying(s, id, c, first, count) && AloneRun(s, actions, id)
    requires CallPending(Exec(s, actions), c)
    ensures Retrying(Exec(s, actions), id, c, first, count)
    decreases |actions|
  {
    if actions != [] {
      CallsNeverGo(s, actions[0]);
      PendingAllAlong(Next(s, actions[0]), actions[1..], c);
      NextKeepsRetrying(s, actions[0], id, c, first, count);
      RunKeepsRetrying(Next(s, actions[0]), actions[1..], id, c, first, count);
    }
  }

  lemma ReadStartsRetrying(s: State, id: JobId)
    requires Inv(s) && AtRest(s, id)
    ensures Retrying(Next(s, RetryReads(id)), id, |s.calls|, |s.messages|, s.rows[id].retries.manualCount)
  {
  }

  lemma CommitOpensAnEpoch(s: State, id: JobId, c: nat, first: nat, count: nat)
    requires Retrying(s, id, c, first, count) && Enabled(s, Requeue(c, Apply))
    ensures var s' := Next(s, Requeue(c, Apply));
            Solo(s', id, Epoch(first, count + 1)) && Names(s'.messages, s.calls[c].stage.message, id)
  {
  }

  lemma {:induction false} MessageIsKept(s: State, actions: seq<Action>, m: nat)
    requires Valid(s, actions) && Inv(s) && m < |s.messages|
    ensures m < |Exec(s, actions).messages| && SameMessage(s.messages[m], Exec(s, actions).messages[m])
    decreases |actions|
  {
    if actions != [] {
      NextFrames(s, actions[0]);
      NextKeepsInv(s, actions[0]);
      MessageIsKept(Next(s, actions[0]), actions[1..], m);
    }
  }

  /** A manual retry of a job at rest starts a new epoch, whatever happens elsewhere between its read, its enqueue and
      its commit: whatever the failed epochs left in the counters and in the queue, the job then has its full
      `max_attempts` again, and is aligned with the message of the retry. */
  lemma RetryEpochIsAligned(s: State, id: JobId, between: seq<Action>, actions: seq<Action>)
    requires Inv(s) && AtRest(s, id) && Valid(Next(s, RetryReads(id)), between)
    requires AloneRun(Next(s, RetryReads(id)), between, id)
    requires var committing := Exec(Next(s, RetryReads(id)), between);
             && Enabled(committing, Requeue(|s.calls|, Apply))
             && Valid(Next(committing, Requeue(|s.calls|, Apply)), actions)
             && UndisturbedRun(Next(committing, Requeue(|s.calls|, Apply)), actions, id)
             && id in Exec(Next(committing, Requeue(|s.calls|, Apply)), actions).rows
    ensures var committing := Exec(Next(s, RetryReads(id)), between);
            var later := Exec(Next(committing, Requeue(|s.calls|, Apply)), actions);
            var m := committing.calls[|s.calls|].stage.message;
            && Names(later.messages, m, id) && m >= |s.messages|
            && Aligned(later.rows[id], later.messages[m]) && NextRecoveryFails(later, id, later.messages[m])
  {
    var c, first, count := |s.calls|, |s.messages|, s.rows[id].retries.manualCount;
    var read := Next(s, RetryReads(id));
    var committing := Exec(read, between);
    var retried := Next(committing, Requeue(c, Apply));
    ReadStartsRetrying(s, id);
    RunKeepsRetrying(read, between, id, c, first, count);
    CommitOpensAnEpoch(committing, id, c, first, count);
    NextKeepsInv(s, RetryReads(id));
    ExecKeepsInv(read, between);
    NextKeepsInv(committing, Requeue(c, Apply));
    var m := committing.calls[c].stage.message;
    MessageIsKept(retried, actions, m);
    EpochIsAligned(retried, actions, id, Epoch(first, count + 1), m);
  }
}
