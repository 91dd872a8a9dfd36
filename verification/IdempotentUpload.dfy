/** Uploads with one idempotency key, interleaved in any way (backend/app/api/v1/videos.py and video_service.py). */
module IdempotentUpload {
  import opened Common
  import opened ErrorMessages
  import opened Lifecycle
  import opened LifecycleInvariant
  import opened QuiescentStability
  import opened ReachableStates
  import opened VideoJobs
  import opened VideoUpload

  ghost predicate PushedByUpload(s: State, m: nat) {
    m < |s.messages| && s.messages[m].origin < |s.calls| && s.calls[s.messages[m].origin].UploadCall?
  }

  /** Only the first message of a job can come from an upload, and that upload carried the row's key. */
  ghost predicate UploadsPushFirst(s: State) {
    && (forall m, k | 0 <= m < k < |s.messages| && s.messages[m].job == s.messages[k].job :: !PushedByUpload(s, k))
    && (forall m | 0 <= m < |s.messages| && PushedByUpload(s, m) ::
          KeyKept(s, s.messages[m].job, s.calls[s.messages[m].origin].key))
  }

  lemma StayFirst(s: State, s': State)
    requires UploadsPushFirst(s) && Frame(s, s') && |s'.messages| == |s.messages|
    requires forall m | 0 <= m < |s.messages| :: s.messages[m].origin < |s.calls|
    ensures UploadsPushFirst(s')
  {
    assert forall m | 0 <= m < |s.messages| :: SameMessage(s.messages[m], s'.messages[m]);
    forall m | 0 <= m < |s'.messages|
      ensures PushedByUpload(s', m) <==> PushedByUpload(s, m)
      ensures PushedByUpload(s', m) ==> s'.calls[s'.messages[m].origin].key == s.calls[s.messages[m].origin].key
    {
      assert SameCall(s.calls[s.messages[m].origin], s'.calls[s.messages[m].origin]);
    }
  }

  lemma PushStaysFirst(s: State, s': State, c: nat, id: JobId)
    requires UploadsPushFirst(s) && Frame(s, s') && c < |s.calls| && |s'.messages| == |s.messages| + 1
    requires forall m | 0 <= m < |s.messages| :: s.messages[m].origin < |s.calls|
    requires Pushing(s'.messages, |s.messages|, id, c)
    requires s.calls[c].UploadCall? ==> Pristine(s, id) && KeyKept(s', id, s.calls[c].key)
    ensures UploadsPushFirst(s')
  {
    assert SameCall(s.calls[c], s'.calls[c]);
    assert forall m | 0 <= m < |s.messages| :: SameMessage(s.messages[m], s'.messages[m]);
    forall m | 0 <= m < |s.messages|
      ensures PushedByUpload(s', m) <==> PushedByUpload(s, m)
      ensures PushedByUpload(s', m) ==> s'.calls[s'.messages[m].origin].key == s.calls[s.messages[m].origin].key
    {
      assert SameCall(s.calls[s.messages[m].origin], s'.calls[s.messages[m].origin]);
    }
  }

  lemma UploadKeepsPushFirst(s: State, c: nat, step: UploadStep)
    requires UploadEnabled(s, c, step) && UploadsPushFirst(s) && s.rows.Keys <= s.used && CallOk(s, c)
    requires forall m | 0 <= m < |s.messages| :: s.messages[m].origin < |s.calls|
    ensures UploadsPushFirst(UploadApply(s, c, step))
  {
    UploadFrames(s, c, step);
    if step.PushUpload? {
      PushStaysFirst(s, UploadApply(s, c, step), c, s.calls[c].at.id);
    } else {
      StayFirst(s, UploadApply(s, c, step));
    }
  }

  lemma RequeueKeepsPushFirst(s: State, c: nat, step: RequeueStep)
    requires RequeueEnabled(s, c, step) && UploadsPushFirst(s)
    requires forall m | 0 <= m < |s.messages| :: s.messages[m].origin < |s.calls|
    ensures UploadsPushFirst(RequeueApply(s, c, step))
  {
    RequeueFrames(s, c, step);
    if step.Push? {
      PushStaysFirst(s, RequeueApply(s, c, step), c, s.calls[c].job);
    } else {
      StayFirst(s, RequeueApply(s, c, step));
    }
  }

  lemma NextKeepsPushFirst(s: State, a: Action)
    requires Enabled(s, a) && UploadsPushFirst(s) && s.rows.Keys <= s.used
    requires forall m | 0 <= m < |s.messages| :: s.messages[m].origin < |s.calls|
    requires a.Upload? ==> CallOk(s, a.c)
    ensures UploadsPushFirst(Next(s, a))
  {
    match a
    case Upload(c, step) => UploadKeepsPushFirst(s, c, step);
    case Requeue(c, step) => RequeueKeepsPushFirst(s, c, step);
    case _ => OthersKeepPushFirst(s, a);
  }

  lemma OthersKeepPushFirst(s: State, a: Action)
    requires Enabled(s, a) && !a.Upload? && !a.Requeue? && UploadsPushFirst(s) && s.rows.Keys <= s.used
    requires forall m | 0 <= m < |s.messages| :: s.messages[m].origin < |s.calls|
    ensures UploadsPushFirst(Next(s, a))
  {
    NextFrames(s, a);
    StayFirst(s, Next(s, a));
  }

  lemma {:induction false} ExecKeepsPushFirst(s: State, actions: seq<Action>)
    requires Valid(s, actions) && Inv(s) && UploadsPushFirst(s)
    ensures UploadsPushFirst(Exec(s, actions))
    decreases |actions|
  {
    if actions != [] {
      var a := actions[0];
      assert a.Upload? ==> CallOk(s, a.c);
      assert forall m | 0 <= m < |s.messages| :: MessageOk(s, s.messages[m]);
      NextKeepsPushFirst(s, a);
      NextKeepsInv(s, a);
      ExecKeepsPushFirst(Next(s, a), actions[1..]);
    }
  }

  ghost predicate OneRow(s: State, key: string) {
    forall i <- s.rows, j <- s.rows ::
      s.rows[i].idempotencyKey == Some(key) && s.rows[j].idempotencyKey == Some(key) ==> i == j
  }

  ghost predicate Answers(call: Call, key: string, id: JobId) {
    call == UploadCall(Some(key), Answered(id))
  }

  ghost predicate OneAnswer(s: State, key: string) {
    forall c, d, i <- s.rows, j <- s.rows | 0 <= c < |s.calls| && 0 <= d < |s.calls| ::
      Answers(s.calls[c], key, i) && Answers(s.calls[d], key, j) ==> i == j
  }

  ghost predicate Enqueues(s: State, m: nat, key: string) {
    PushedByUpload(s, m) && s.calls[s.messages[m].origin].key == Some(key) && s.messages[m].job in s.rows
  }

  ghost predicate OneEnqueue(s: State, key: string) {
    forall m: nat, k: nat :: Enqueues(s, m, key) && Enqueues(s, k, key) ==> m == k
  }

  /** For any number of interleaved uploads with one key: at most one row carries it; successful responses name the
      same job; and at most one of the uploads enqueued. The last two presuppose only that the rows in question were
      not deleted, because a deleted row frees its key. */
  lemma UploadsAreIdempotent(cfg: Settings, start: int, actions: seq<Action>, key: string)
    requires Valid(Init(cfg, start), actions)
    ensures var s := Exec(Init(cfg, start), actions); OneRow(s, key) && OneAnswer(s, key) && OneEnqueue(s, key)
  {
    ReachableInv(cfg, start, []);
    ReachableInv(cfg, start, actions);
    ExecKeepsPushFirst(Init(cfg, start), actions);
    KeyHasOneJob(Exec(Init(cfg, start), actions), key);
  }

  lemma KeyHasOneJob(s: State, key: string)
    requires KeysUnique(s.rows) && CallsOk(s) && UploadsPushFirst(s)
    ensures OneRow(s, key) && OneAnswer(s, key) && OneEnqueue(s, key)
  {
    forall c, i | 0 <= c < |s.calls| && i in s.rows && Answers(s.calls[c], key, i)
      ensures s.rows[i].idempotencyKey == Some(key)
    {
      assert CallOk(s, c);
    }
    forall m: nat, k: nat | Enqueues(s, m, key) && Enqueues(s, k, key)
      ensures m == k
    {
      assert s.messages[m].job == s.messages[k].job;
    }
  }

  // An upload that dies on its way

  /** Nobody is left to move the row: no upload has yet to commit, and no delivery is due or under way. */
  ghost predicate Stranded(s: State, id: JobId) {
    && id in s.rows && s.rows[id].status.UPLOADED?
    && (forall m | 0 <= m < |s.messages| && s.messages[m].job == id :: s.messages[m].phase.Done?)
    && (forall c | 0 <= c < |s.calls| :: !InFlight(s.calls[c], id))
  }

  ghost predicate StaysStranded(s: State, s': State, id: JobId) {
    Stranded(s', id) && id in s.rows && s'.rows[id] == s.rows[id]
  }

  lemma WorkerStrands(s: State, m: nat, step: WorkerStep, id: JobId)
    requires WorkerEnabled(s, m, step) && Stranded(s, id)
    ensures StaysStranded(s, WorkerApply(s, m, step), id)
  {
    WorkerFrames(s, m, step);
    assert s.messages[m].job != id;
  }

  lemma UploadStrands(s: State, c: nat, step: UploadStep, id: JobId)
    requires UploadEnabled(s, c, step) && Stranded(s, id) && id in s.used
    ensures StaysStranded(s, UploadApply(s, c, step), id)
  {
    assert !InFlight(s.calls[c], id);
  }

  lemma RequeueStrands(s: State, c: nat, step: RequeueStep, id: JobId)
    requires RequeueEnabled(s, c, step) && Stranded(s, id)
    ensures StaysStranded(s, RequeueApply(s, c, step), id)
  {
    assert !InFlight(s.calls[c], id);
  }

  lemma CleanupStrands(s: State, c: nat, step: CleanupStep, id: JobId)
    requires CleanupEnabled(s, c, step) && CallOk(s, c) && Stranded(s, id)
    ensures StaysStranded(s, CleanupApply(s, c, step), id)
  {
  }

  lemma ReadStrands(s: State, a: Action, id: JobId)
    requires Enabled(s, a) && !a.Upload? && !a.Requeue? && !a.Cleanup? && !a.Worker? && Stranded(s, id)
    ensures StaysStranded(s, Next(s, a), id)
  {
  }

  lemma StrandedStep(s: State, a: Action, id: JobId)
    requires Enabled(s, a) && CallsOk(s) && Stranded(s, id) && id in s.used
    ensures StaysStranded(s, Next(s, a), id)
  {
    match a
    case Upload(c, step) => UploadStrands(s, c, step, id);
    case Requeue(c, step) => RequeueStrands(s, c, step, id);
    case Cleanup(c, step) =>
      assert CallOk(s, c);
      CleanupStrands(s, c, step, id);
    case Worker(m, step) => WorkerStrands(s, m, step, id);
    case _ => ReadStrands(s, a, id);
  }

  /** No actor ever moves or enqueues a stranded row again: it is neither stuck, nor failed, nor a cleanup candidate,
      and every later upload with its key is answered with it. */
  lemma {:induction false} StrandedForever(s: State, actions: seq<Action>, id: JobId)
    requires Valid(s, actions) && Inv(s) && Stranded(s, id)
    ensures var later := Exec(s, actions);
            && Stranded(later, id) && later.rows[id] == s.rows[id]
            && (s.rows[id].idempotencyKey.Some? ==> KeyTaken(later.rows, s.rows[id].idempotencyKey))
    decreases |actions|
  {
    if actions != [] {
      assert id in s.used;
      StrandedStep(s, actions[0], id);
      NextKeepsInv(s, actions[0]);
      StrandedForever(Next(s, actions[0]), actions[1..], id);
    }
  }

  lemma DeliveryMoves(s: State, id: JobId, m: nat) returns (actions: seq<Action>)
    requires id in s.rows && s.rows[id].status.UPLOADED? && m < |s.messages| && s.messages[m].job == id
    requires Balanced(s.messages[m]) && !s.messages[m].phase.Done?
    ensures |actions| <= 2 && Valid(s, actions) && id in Exec(s, actions).rows
    ensures !Exec(s, actions).rows[id].status.UPLOADED?
  {
    match s.messages[m].phase
    case Waiting =>
      ExecTwo(s, Worker(m, Fetch), Worker(m, ClaimRow));
      actions := [Worker(m, Fetch), Worker(m, ClaimRow)];
    case Fetched =>
      ExecOne(s, Worker(m, ClaimRow));
      actions := [Worker(m, ClaimRow)];
    case Running(_, _, _, _) =>
      ExecOne(s, Worker(m, Fail(OtherError(""), "")));
      actions := [Worker(m, Fail(OtherError(""), ""))];
  }

  lemma UploadMoves(s: State, id: JobId, c: nat) returns (actions: seq<Action>)
    requires id in s.rows && s.rows[id].status.UPLOADED? && c < |s.calls| && InFlight(s.calls[c], id) && CallOk(s, c)
    ensures |actions| <= 2 && Valid(s, actions) && id in Exec(s, actions).rows
    ensures !Exec(s, actions).rows[id].status.UPLOADED?
  {
    match s.calls[c]
    case UploadCall(_, Inserted(_)) =>
      ExecTwo(s, Upload(c, SaveRaw("")), Upload(c, PushUploadFails("")));
      actions := [Upload(c, SaveRaw("")), Upload(c, PushUploadFails(""))];
    case UploadCall(_, Saved(_)) =>
      ExecOne(s, Upload(c, PushUploadFails("")));
      actions := [Upload(c, PushUploadFails(""))];
    case UploadCall(_, Pushed(_, _)) =>
      ExecOne(s, Upload(c, CommitQueued));
      actions := [Upload(c, CommitQueued)];
  }

  ghost predicate StaysUploaded(s: State, id: JobId) {
    forall actions | Valid(s, actions) ::
      id in Exec(s, actions).rows && Exec(s, actions).rows[id].status.UPLOADED?
  }

  /** Exactly which rows are stuck in UPLOADED for good: those that no upload holds or has yet to commit and that have
      no delivery left. Any other UPLOADED row can leave that status in at most two actions. */
  lemma UploadedForGoodIffStranded(s: State, id: JobId)
    requires Inv(s) && id in s.rows && s.rows[id].status.UPLOADED?
    ensures StaysUploaded(s, id) <==> Stranded(s, id)
  {
    if Stranded(s, id) {
      forall actions | Valid(s, actions)
        ensures id in Exec(s, actions).rows && Exec(s, actions).rows[id].status.UPLOADED?
      {
        StrandedForever(s, actions, id);
      }
    } else if m :| 0 <= m < |s.messages| && s.messages[m].job == id && !s.messages[m].phase.Done? {
      assert MessageOk(s, s.messages[m]);
      var actions := DeliveryMoves(s, id, m);
      assert Valid(s, actions);
    } else {
      var c :| 0 <= c < |s.calls| && InFlight(s.calls[c], id);
      assert CallOk(s, c);
      var actions := UploadMoves(s, id, c);
      assert Valid(s, actions);
    }
  }

  /** However a request learns that its key is taken, it is answered with the holder and writes and pushes nothing. Only
      the request that lost a race is refused, exactly when the holder is FAILED for want of the queue. */
  lemma TakenKeyIsAnswered(s: State, c: nat, step: UploadStep, id: JobId)
    requires UploadEnabled(s, c, step) && step in {LookUp(Some(id)), ReadRaced(Some(id))}
    ensures id in s.rows && s.rows[id].idempotencyKey == s.calls[c].key
    ensures var row, next := s.rows[id], UploadApply(s, c, step);
            && next == s.(calls := next.calls) && |next.calls| == |s.calls|
            && (forall d | 0 <= d < |s.calls| && d != c :: next.calls[d] == s.calls[d])
            && next.calls[c].UploadCall? && next.calls[c].key == s.calls[c].key
            && next.calls[c].at == if && step.ReadRaced? && row.status.FAILED? && row.failure.errorMessage.Some?
                                      && "enqueue_failed" <= row.failure.errorMessage.value
                                   then Refused else Answered(id)
  {
  }
}
