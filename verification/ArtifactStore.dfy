/** The assets gate of backend/app/api/v1/videos.py, and what it serves. */
module ArtifactStore {
  import opened Common
  import opened CleanupRules
  import opened Lifecycle
  import opened LifecycleInvariant
  import opened ObjectKeys
  import opened RedisQueue
  import opened VideoJobs

  datatype AssetsResponse =
    | JobNotFound
    | UnsupportedBackend
    | NotReady
    | Assets(raw: Option<ObjectRef>, processed: Option<ObjectRef>, thumbnail: Option<ObjectRef>)

  function Url(bucket: string, key: Option<string>): Option<ObjectRef> {
    if Truthy(key) then Some(ObjectRef(bucket, key.value)) else None
  }

  /** `get_video_assets`, with a presigned URL standing for the object it points to. */
  function GetVideoAssets(cfg: Settings, rows: Table, id: JobId): AssetsResponse {
    if id !in rows then JobNotFound
    else if !rows[id].backend.ObjectStorage? then UnsupportedBackend
    else if !rows[id].status.COMPLETED? then NotReady
    else Assets(Url(cfg.rawVideoBucket, rows[id].raw.objectKey),
                Url(cfg.processedVideoBucket, rows[id].outputs.processedObjectKey),
                Url(cfg.thumbnailBucket, rows[id].outputs.thumbnailObjectKey))
  }

  function RawRef(cfg: Settings, id: JobId, filename: string): ObjectRef {
    ObjectRef(cfg.rawVideoBucket, RawObjectKey(id, filename))
  }

  function VideoRef(cfg: Settings, id: JobId): ObjectRef {
    ObjectRef(cfg.processedVideoBucket, ProcessedObjectKey(id))
  }

  function ThumbnailRef(cfg: Settings, id: JobId): ObjectRef {
    ObjectRef(cfg.thumbnailBucket, ThumbnailObjectKey(id))
  }

  lemma KeysAreTruthy(id: JobId, filename: string)
    ensures Truthy(Some(RawObjectKey(id, filename)))
    ensures Truthy(Some(ProcessedObjectKey(id))) && Truthy(Some(ThumbnailObjectKey(id)))
  {
  }

  /** In every reachable state an uncleaned COMPLETED object-storage job is served with exactly its three
      deterministic objects, and a job in any other status is not served. */
  lemma GateServesFinishedJobs(cfg: Settings, start: int, actions: seq<Action>, id: JobId)
    requires Valid(Init(cfg, start), actions)
    ensures var s := Exec(Init(cfg, start), actions);
            && s.cfg == cfg
            && (id in s.rows && s.rows[id].cleanup.cleanedUpAt.None? && GetVideoAssets(cfg, s.rows, id).Assets? ==>
                  var prefix, filename := "videos/" + id, SafeFilename(s.rows[id].originalFilename);
                  GetVideoAssets(cfg, s.rows, id)
                  == Assets(Some(ObjectRef(cfg.rawVideoBucket, prefix + "/raw/" + filename)),
                            Some(ObjectRef(cfg.processedVideoBucket, prefix + "/processed/" + id + ".mp4")),
                            Some(ObjectRef(cfg.thumbnailBucket, prefix + "/thumbnails/" + id + ".jpg"))))
            && (match GetVideoAssets(cfg, s.rows, id)
                case JobNotFound => id !in s.rows
                case UnsupportedBackend => id in s.rows && s.rows[id].backend.LocalStorage?
                case NotReady =>
                  id in s.rows && s.rows[id].backend.ObjectStorage? && !s.rows[id].status.COMPLETED?
                case Assets(_, _, _) =>
                  id in s.rows && s.rows[id].backend.ObjectStorage? && s.rows[id].status.COMPLETED?)
  {
    var s := Exec(Init(cfg, start), actions);
    ReachableInv(cfg, start, actions);
    ConfigStays(Init(cfg, start), actions);
    if id in s.rows {
      assert RowOk(id, s.rows[id]);
      KeysAreTruthy(id, s.rows[id].originalFilename);
      KeysSpelledOut(id, s.rows[id].originalFilename);
    }
  }

  lemma {:induction false} ConfigStays(s: State, actions: seq<Action>)
    requires Valid(s, actions)
    ensures Exec(s, actions).cfg == s.cfg
    decreases |actions|
  {
    if actions != [] {
      assert Next(s, actions[0]).cfg == s.cfg;
      ConfigStays(Next(s, actions[0]), actions[1..]);
    }
  }

  // The objects behind the URLs

  /** No cleanup has opened the job's references so far. */
  ghost predicate CleanupFree(s: State, id: JobId) {
    forall c | 0 <= c < |s.calls| && s.calls[c].CleanupCall? && s.calls[c].target == id :: s.calls[c].progress.Picked?
  }

  ghost predicate RunStored(s: State, id: JobId, row: Row, phase: Phase)
    requires phase.Running?
  {
    && phase.backend.ObjectStorage? && phase.raw == row.raw.objectKey
    && (!phase.stage.Started? ==> RawRef(s.cfg, id, row.originalFilename) in s.store)
    && (!phase.stage.Started? && !phase.stage.Downloaded? ==> VideoRef(s.cfg, id) in s.store)
    && (phase.stage.ThumbnailStored? || phase.stage.Committed? ==> ThumbnailRef(s.cfg, id) in s.store)
  }

  ghost predicate JobStored(s: State, id: JobId)
    requires id in s.rows
  {
    && (s.rows[id].status.COMPLETED? ==>
          && RawRef(s.cfg, id, s.rows[id].originalFilename) in s.store
          && VideoRef(s.cfg, id) in s.store && ThumbnailRef(s.cfg, id) in s.store)
    && (forall m | 0 <= m < |s.messages| && s.messages[m].job == id && s.messages[m].phase.Running? ::
          RunStored(s, id, s.rows[id], s.messages[m].phase))
  }

  ghost predicate StoreOk(s: State) {
    forall id <- s.rows :: s.rows[id].backend.ObjectStorage? && CleanupFree(s, id) ==>
      s.rows[id].cleanup.cleanedUpAt.None? && JobStored(s, id)
  }

  lemma WorkerKeepsOwnRun(s: State, m: nat, step: WorkerStep)
    requires WorkerEnabled(s, m, step) && s.messages[m].job in s.rows
    requires s.rows[s.messages[m].job].backend.ObjectStorage?
    requires JobStored(s, s.messages[m].job) && KeysOk(s.messages[m].job, s.rows[s.messages[m].job])
    ensures var s', id := WorkerApply(s, m, step), s.messages[m].job;
            && id in s'.rows && s'.rows[id].cleanup == s.rows[id].cleanup && s'.rows[id].raw == s.rows[id].raw
            && (s'.rows[id].status.COMPLETED? ==>
                  && RawRef(s.cfg, id, s.rows[id].originalFilename) in s'.store
                  && VideoRef(s.cfg, id) in s'.store && ThumbnailRef(s.cfg, id) in s'.store)
            && (s'.messages[m].phase.Running? ==> RunStored(s', id, s'.rows[id], s'.messages[m].phase))
  {
  }

  /** Other messages and other rows see the store grow, and nothing else. */
  lemma StoredStays(s: State, s': State, id: JobId, moved: nat)
    requires id in s.rows && id in s'.rows && JobStored(s, id) && s'.cfg == s.cfg
    requires s'.rows[id].raw == s.rows[id].raw && SameRow(s.rows[id], s'.rows[id])
    requires |s.messages| <= |s'.messages|
    requires forall m | 0 <= m < |s'.messages| && m != moved ::
      if m < |s.messages| then s'.messages[m] == s.messages[m] else !s'.messages[m].phase.Running?
    requires RawRef(s.cfg, id, s.rows[id].originalFilename) in s.store ==>
      RawRef(s.cfg, id, s.rows[id].originalFilename) in s'.store
    requires VideoRef(s.cfg, id) in s.store ==> VideoRef(s.cfg, id) in s'.store
    requires ThumbnailRef(s.cfg, id) in s.store ==> ThumbnailRef(s.cfg, id) in s'.store
    requires s'.rows[id].status.COMPLETED? ==>
      s.rows[id].status.COMPLETED? || (moved < |s'.messages| && s'.messages[moved].job == id)
    requires moved < |s'.messages| && s'.messages[moved].job == id ==>
      && (s'.rows[id].status.COMPLETED? ==>
            && RawRef(s.cfg, id, s.rows[id].originalFilename) in s'.store
            && VideoRef(s.cfg, id) in s'.store && ThumbnailRef(s.cfg, id) in s'.store)
      && (s'.messages[moved].phase.Running? ==> RunStored(s', id, s'.rows[id], s'.messages[moved].phase))
    ensures JobStored(s', id)
  {
    forall m | 0 <= m < |s'.messages| && s'.messages[m].job == id && s'.messages[m].phase.Running?
      ensures RunStored(s', id, s'.rows[id], s'.messages[m].phase)
    {
      if m != moved {
        assert RunStored(s, id, s.rows[id], s.messages[m].phase);
      }
    }
  }

  lemma WorkerKeepsJobStored(s: State, m: nat, step: WorkerStep, id: JobId)
    requires WorkerEnabled(s, m, step) && id in s.rows && s.rows[id].backend.ObjectStorage?
    requires JobStored(s, id) && KeysOk(id, s.rows[id])
    ensures JobStored(WorkerApply(s, m, step), id)
    ensures WorkerApply(s, m, step).rows[id].cleanup == s.rows[id].cleanup
  {
    var s' := WorkerApply(s, m, step);
    assert s'.messages[m].job == s.messages[m].job;
    assert s.store <= s'.store;
    if s.messages[m].job == id {
      WorkerKeepsOwnRun(s, m, step);
    }
    StoredStays(s, s', id, m);
  }

  /** A cleanup of another job deletes none of this job's objects, whatever the buckets are. */
  lemma OtherCleanupSpares(cfg: Settings, target: JobId, ref: ObjectRef, id: JobId, filename: string)
    requires SlashFree(target) && SlashFree(id) && target != id && OwnKey(target, ref.key)
    ensures ref != RawRef(cfg, id, filename) && ref != VideoRef(cfg, id) && ref != ThumbnailRef(cfg, id)
  {
    KeysAreOwn(id, filename);
    if OwnKey(id, ref.key) {
      OwnersAreDisjoint(target, id, ref.key);
    }
  }

  lemma CleanupKeepsJobStored(s: State, c: nat, step: CleanupStep, id: JobId)
    requires CleanupEnabled(s, c, step) && CallOk(s, c) && s.calls[c].target != id
    requires id in s.rows && JobStored(s, id) && id in s.used && forall x <- s.used :: SlashFree(x)
    ensures id in CleanupApply(s, c, step).rows && JobStored(CleanupApply(s, c, step), id)
    ensures CleanupApply(s, c, step).rows[id] == s.rows[id]
  {
    if step.DeleteNext? {
      var ref := s.calls[c].progress.pending[0];
      assert ref in s.calls[c].progress.pending;
      OtherCleanupSpares(s.cfg, s.calls[c].target, ref, id, s.rows[id].originalFilename);
    }
    StoredStays(s, CleanupApply(s, c, step), id, |s.messages|);
  }

  lemma UploadKeepsJobStored(s: State, c: nat, step: UploadStep, id: JobId)
    requires UploadEnabled(s, c, step) && id in s.used
    requires id in s.rows && JobStored(s, id) && s.rows[id].backend.ObjectStorage?
    ensures id in UploadApply(s, c, step).rows && JobStored(UploadApply(s, c, step), id)
    ensures UploadApply(s, c, step).rows[id].cleanup == s.rows[id].cleanup
  {
    assert s.store <= UploadApply(s, c, step).store;
    StoredStays(s, UploadApply(s, c, step), id, |UploadApply(s, c, step).messages|);
  }

  lemma RequeueKeepsJobStored(s: State, c: nat, step: RequeueStep, id: JobId)
    requires RequeueEnabled(s, c, step) && id in s.rows && JobStored(s, id)
    ensures id in RequeueApply(s, c, step).rows && JobStored(RequeueApply(s, c, step), id)
    ensures RequeueApply(s, c, step).rows[id].cleanup == s.rows[id].cleanup
  {
    StoredStays(s, RequeueApply(s, c, step), id, |RequeueApply(s, c, step).messages|);
  }

  lemma NextKeepsJobStored(s: State, a: Action, id: JobId)
    requires Enabled(s, a) && id in s.rows && s.rows[id].backend.ObjectStorage? && JobStored(s, id)
    requires KeysOk(id, s.rows[id]) && id in s.used && forall x <- s.used :: SlashFree(x)
    requires a.Cleanup? ==> CallOk(s, a.c) && s.calls[a.c].CleanupCall? && s.calls[a.c].target != id
    ensures id in Next(s, a).rows && JobStored(Next(s, a), id)
    ensures Next(s, a).rows[id].cleanup == s.rows[id].cleanup
  {
    match a
    case Upload(c, step) => UploadKeepsJobStored(s, c, step, id);
    case Requeue(c, step) => RequeueKeepsJobStored(s, c, step, id);
    case Cleanup(c, step) => CleanupKeepsJobStored(s, c, step, id);
    case Worker(m, step) => WorkerKeepsJobStored(s, m, step, id);
    case _ => StoredStays(s, Next(s, a), id, |s.messages|);
  }

  lemma InsertedJobIsStored(s: State, c: nat, step: UploadStep, id: JobId)
    requires UploadEnabled(s, c, step) && id !in s.rows && id in UploadApply(s, c, step).rows
    requires forall m | 0 <= m < |s.messages| :: s.messages[m].job in s.used
    ensures UploadApply(s, c, step).rows[id].cleanup.cleanedUpAt.None? && JobStored(UploadApply(s, c, step), id)
  {
    assert s.messages == UploadApply(s, c, step).messages;
  }

  lemma OnlyUploadsInsert(s: State, a: Action, id: JobId)
    requires Enabled(s, a) && id !in s.rows && id in Next(s, a).rows
    ensures a.Upload?
  {
  }

  /** A cleanup leaves the stage in which it has only picked its job for good. */
  lemma PickedBefore(s: State, c: nat, step: CleanupStep, id: JobId)
    requires CleanupEnabled(s, c, step) && CleanupFree(CleanupApply(s, c, step), id)
    ensures CleanupFree(s, id) && s.calls[c].target != id
  {
    var s' := CleanupApply(s, c, step);
    assert s'.calls == s.calls[c := s'.calls[c]];
    assert s'.calls[c].CleanupCall? && s'.calls[c].target == s.calls[c].target && !s'.calls[c].progress.Picked?;
    assert forall d | 0 <= d < |s.calls| && d != c :: s'.calls[d] == s.calls[d];
  }

  lemma CleanupFreeBefore(s: State, a: Action, id: JobId)
    requires Enabled(s, a) && CleanupFree(Next(s, a), id)
    ensures CleanupFree(s, id) && (a.Cleanup? ==> s.calls[a.c].CleanupCall? && s.calls[a.c].target != id)
  {
    if a.Cleanup? {
      PickedBefore(s, a.c, a.cleanup, id);
    } else {
      CleanupCallsStay(s, a);
    }
  }

  lemma CleanupCallsStay(s: State, a: Action)
    requires Enabled(s, a) && !a.Cleanup?
    ensures |s.calls| <= |Next(s, a).calls|
    ensures forall c | 0 <= c < |s.calls| && s.calls[c].CleanupCall? :: Next(s, a).calls[c] == s.calls[c]
  {
  }

  lemma NextKeepsStore(s: State, a: Action)
    requires Enabled(s, a) && Inv(s) && StoreOk(s)
    ensures StoreOk(Next(s, a))
  {
    var s' := Next(s, a);
    NextFrames(s, a);
    forall id <- s'.rows | s'.rows[id].backend.ObjectStorage? && CleanupFree(s', id)
      ensures s'.rows[id].cleanup.cleanedUpAt.None? && JobStored(s', id)
    {
      if id in s.rows {
        CleanupFreeBefore(s, a, id);
        assert RowOk(id, s.rows[id]) && SameRow(s.rows[id], s'.rows[id]);
        assert a.Cleanup? ==> CallOk(s, a.c);
        NextKeepsJobStored(s, a, id);
      } else {
        assert forall m | 0 <= m < |s.messages| :: MessageOk(s, s.messages[m]);
        OnlyUploadsInsert(s, a, id);
        InsertedJobIsStored(s, a.c, a.upload, id);
      }
    }
  }

  lemma {:induction false} ExecKeepsStore(s: State, actions: seq<Action>)
    requires Valid(s, actions) && Inv(s) && StoreOk(s)
    ensures StoreOk(Exec(s, actions))
    decreases |actions|
  {
    if actions != [] {
      NextKeepsStore(s, actions[0]);
      NextKeepsInv(s, actions[0]);
      ExecKeepsStore(Next(s, actions[0]), actions[1..]);
    }
  }

  /** Until a cleanup opens the job's references, every URL the gate hands out points to an object that is really there,
      whatever duplicates ran, whatever was recovered, and whichever other jobs were cleaned meanwhile. */
  lemma ServedObjectsExist(cfg: Settings, start: int, actions: seq<Action>, id: JobId)
    requires Valid(Init(cfg, start), actions)
    requires CleanupFree(Exec(Init(cfg, start), actions), id)
    ensures var s := Exec(Init(cfg, start), actions);
            GetVideoAssets(cfg, s.rows, id).Assets? ==>
              var assets := GetVideoAssets(cfg, s.rows, id);
              && assets.raw.Some? && assets.processed.Some? && assets.thumbnail.Some?
              && {assets.raw.value, assets.processed.value, assets.thumbnail.value} <= s.store
  {
    var s := Exec(Init(cfg, start), actions);
    ReachableInv(cfg, start, []);
    ExecKeepsStore(Init(cfg, start), actions);
    GateServesFinishedJobs(cfg, start, actions, id);
    if id in s.rows {
      KeysSpelledOut(id, s.rows[id].originalFilename);
    }
  }
}
