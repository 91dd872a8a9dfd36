/** One cleanup of a job against all other actors. It reads the row's references once, deletes the objects one by one,
    and then clears the references, or deletes the row, whatever the row holds by then. */
module CleanupRaces {
  import opened ArtifactStore
  import opened CleanupRules
  import opened Lifecycle
  import opened LifecycleInvariant
  import opened ObjectKeys
  import opened QuiescentStability
  import opened ReachableStates
  import opened RedisQueue
  import opened VideoJobs

  ghost predicate Deletes(s: State, c: nat) {
    c < |s.calls| && s.calls[c].CleanupCall? && s.calls[c].progress.Deleting?
  }

  /** The action puts an object back that the cleanup had deleted. */
  ghost predicate Restores(s: State, a: Action, c: nat, ref: ObjectRef) {
    && Enabled(s, a) && Deletes(s, c) && ref in s.calls[c].progress.refs && ref !in s.calls[c].progress.pending
    && ref !in s.store && ref in Next(s, a).store
  }

  ghost predicate Restored(s: State, actions: seq<Action>, c: nat, ref: ObjectRef)
    requires Valid(s, actions)
    decreases |actions|
  {
    actions != [] && (Restores(s, actions[0], c, ref) || Restored(Next(s, actions[0]), actions[1..], c, ref))
  }

  /** The cleanup only moves on, and `refs` stay as read. */
  lemma CleanupMovesOn(s: State, a: Action, c: nat)
    requires Enabled(s, a) && c < |s.calls| && s.calls[c].CleanupCall? && Deletes(Next(s, a), c)
    ensures a == Cleanup(c, OpenReferences)
         || (Deletes(s, c) && Next(s, a).calls[c].progress.refs == s.calls[c].progress.refs)
    ensures Deletes(s, c) && a != Cleanup(c, DeleteNext) ==> Next(s, a).calls[c] == s.calls[c]
    ensures Deletes(s, c) && a == Cleanup(c, DeleteNext) ==>
      && s.calls[c].progress.pending != []
      && Next(s, a).calls[c].progress.pending == s.calls[c].progress.pending[1..]
      && Next(s, a).store == s.store - {s.calls[c].progress.pending[0]}
  {
  }

  lemma CleanupNeverReopens(s: State, a: Action, c: nat)
    requires Enabled(s, a) && c < |s.calls| && s.calls[c].CleanupCall? && !s.calls[c].progress.Picked?
    ensures c < |Next(s, a).calls| && Next(s, a).calls[c].CleanupCall? && !Next(s, a).calls[c].progress.Picked?
    ensures a != Cleanup(c, OpenReferences)
    ensures s.calls[c].progress.CleanupOver? ==> Next(s, a).calls[c].progress.CleanupOver?
  {
    if !a.Cleanup? {
      CleanupCallsStay(s, a);
    }
  }

  // What is deleted stays deleted unless it is put back

  /** Whatever else happens: an object the cleanup read and has deleted is in the store only if it was put back. */
  lemma {:induction false} GoneUnlessRestored(s: State, actions: seq<Action>, c: nat, ref: ObjectRef)
    requires Valid(s, actions) && Deletes(s, c) && Deletes(Exec(s, actions), c)
    requires ref in s.calls[c].progress.refs && ref !in Exec(s, actions).calls[c].progress.pending
    requires ref !in s.calls[c].progress.pending ==> ref !in s.store
    ensures ref in Exec(s, actions).store ==> Restored(s, actions, c, ref)
    decreases |actions|
  {
    if actions != [] {
      var a, next := actions[0], Next(s, actions[0]);
      StillDeletes(s, actions, c);
      CleanupMovesOn(s, a, c);
      if !Restores(s, a, c, ref) {
        GoneUnlessRestored(next, actions[1..], c, ref);
      }
    }
  }

  lemma {:induction false} StillDeletes(s: State, actions: seq<Action>, c: nat)
    requires Valid(s, actions) && Deletes(s, c) && Deletes(Exec(s, actions), c) && actions != []
    ensures Deletes(Next(s, actions[0]), c)
  {
    CleanupNeverReopens(s, actions[0], c);
    if !Deletes(Next(s, actions[0]), c) {
      OverStaysOver(Next(s, actions[0]), actions[1..], c);
    }
  }

  lemma {:induction false} OverStaysOver(s: State, actions: seq<Action>, c: nat)
    requires Valid(s, actions) && c < |s.calls| && s.calls[c].CleanupCall? && s.calls[c].progress.CleanupOver?
    ensures !Deletes(Exec(s, actions), c)
    decreases |actions|
  {
    if actions != [] {
      CleanupNeverReopens(s, actions[0], c);
      OverStaysOver(Next(s, actions[0]), actions[1..], c);
    }
  }

  // While no other cleanup deletes objects of the job

  ghost predicate SoleStep(s: State, a: Action, id: JobId, c: nat) {
    a.Cleanup? && a.cleanup.DeleteNext? && a.c < |s.calls| && s.calls[a.c].CleanupCall? && s.calls[a.c].target == id ==>
      a.c == c
  }

  /** Other cleanups of the job may be picked, over, or stuck half-way; they only do not delete objects in this run. */
  ghost predicate SoleRun(s: State, actions: seq<Action>, id: JobId, c: nat)
    requires Valid(s, actions)
    decreases |actions|
  {
    actions == [] || (SoleStep(s, actions[0], id, c) && SoleRun(Next(s, actions[0]), actions[1..], id, c))
  }

  lemma OnlyCleanupsDelete(s: State, a: Action, ref: ObjectRef)
    requires Enabled(s, a) && ref in s.store && ref !in Next(s, a).store
    ensures a.Cleanup? && a.cleanup.DeleteNext? && s.calls[a.c].progress.pending[0] == ref
  {
  }

  /** What lies below the job's prefix is deleted by this cleanup alone. */
  lemma StoreKeeps(s: State, a: Action, id: JobId, c: nat, ref: ObjectRef)
    requires Enabled(s, a) && Inv(s) && SoleStep(s, a, id, c) && SlashFree(id) && OwnKey(id, ref.key)
    requires ref in s.store && ref !in Next(s, a).store
    ensures a == Cleanup(c, DeleteNext) && s.calls[c].progress.pending[0] == ref
  {
    OnlyCleanupsDelete(s, a, ref);
    assert CallOk(s, a.c) && s.calls[a.c].progress.pending[0] in s.calls[a.c].progress.pending;
    OwnersAreDisjoint(id, s.calls[a.c].target, ref.key);
  }

  ghost predicate NoRepeats(refs: seq<ObjectRef>) {
    forall i, j | 0 <= i < j < |refs| :: refs[i] != refs[j]
  }

  /** The cleanup has deleted a prefix of what it read, all of it below the job's own prefix. */
  ghost predicate Underway(s: State, id: JobId, c: nat) {
    && Deletes(s, c) && s.calls[c].target == id && SlashFree(id)
    && var refs, pending := s.calls[c].progress.refs, s.calls[c].progress.pending;
       && NoRepeats(refs) && (forall ref <- refs :: OwnKey(id, ref.key))
       && |pending| <= |refs| && pending == refs[|refs| - |pending|..]
  }

  lemma StaysUnderway(s: State, a: Action, id: JobId, c: nat)
    requires Enabled(s, a) && Underway(s, id, c) && Deletes(Next(s, a), c)
    ensures Underway(Next(s, a), id, c) && Next(s, a).calls[c].progress.refs == s.calls[c].progress.refs
    ensures a == Cleanup(c, DeleteNext) ==> s.calls[c].progress.pending[0] !in Next(s, a).calls[c].progress.pending
  {
    CleanupNeverReopens(s, a, c);
    CleanupMovesOn(s, a, c);
    var refs, pending := s.calls[c].progress.refs, s.calls[c].progress.pending;
    if a == Cleanup(c, DeleteNext) {
      assert pending[1..] == refs[|refs| - |pending[1..]|..];
      assert pending[0] == refs[|refs| - |pending|];
    }
    assert Next(s, a).calls[c].target == id;
  }

  /** What was put back stays, because the only cleanup that could delete it again is past it. */
  lemma {:induction false} RestoredStays(s: State, actions: seq<Action>, id: JobId, c: nat, ref: ObjectRef)
    requires Valid(s, actions) && Inv(s) && Underway(s, id, c) && Deletes(Exec(s, actions), c)
    requires SoleRun(s, actions, id, c) && ref in s.calls[c].progress.refs
    requires (ref !in s.calls[c].progress.pending && ref in s.store) || Restored(s, actions, c, ref)
    ensures ref in Exec(s, actions).store
    decreases |actions|
  {
    if actions != [] {
      var a, next := actions[0], Next(s, actions[0]);
      StillDeletes(s, actions, c);
      StaysUnderway(s, a, id, c);
      CleanupMovesOn(s, a, c);
      NextKeepsInv(s, a);
      if ref in s.store && ref !in next.store {
        StoreKeeps(s, a, id, c, ref);
      }
      RestoredStays(next, actions[1..], id, c, ref);
    }
  }

  // What the row references beyond what the cleanup read is in the store

  ghost predicate RunTracked(s: State, id: JobId, phase: Phase, refs: seq<ObjectRef>)
    requires phase.Running?
  {
    && phase.backend.ObjectStorage?
    && (!phase.stage.Started? && !phase.stage.Downloaded? ==>
          VideoRef(s.cfg, id) in refs || VideoRef(s.cfg, id) in s.store)
    && (phase.stage.ThumbnailStored? || phase.stage.Committed? ==>
          ThumbnailRef(s.cfg, id) in refs || ThumbnailRef(s.cfg, id) in s.store)
  }

  ghost predicate Tracked(s: State, id: JobId, refs: seq<ObjectRef>) {
    id in s.rows ==>
      && (forall ref <- ObjectReferences(s.cfg, s.rows[id]) :: ref in refs || ref in s.store)
      && (s.rows[id].backend.ObjectStorage? ==>
            forall m | 0 <= m < |s.messages| && s.messages[m].job == id && s.messages[m].phase.Running? ::
              RunTracked(s, id, s.messages[m].phase, refs))
  }

  predicate Shrinks(cfg: Settings, before: Row, after: Row) {
    && after.backend == before.backend
    && forall ref <- ObjectReferences(cfg, after) :: ref in ObjectReferences(cfg, before)
  }

  /** A run that completes names its two outputs; nothing else adds a reference. */
  lemma WorkerMovesRefs(s: State, m: nat, step: WorkerStep, id: JobId)
    requires WorkerEnabled(s, m, step) && id in s.rows
    ensures id in WorkerApply(s, m, step).rows
    ensures Shrinks(s.cfg, s.rows[id], WorkerApply(s, m, step).rows[id])
      || (&& step.Complete? && s.messages[m].job == id && s.rows[id].backend.ObjectStorage?
          && WorkerApply(s, m, step).rows[id].backend.ObjectStorage?
          && forall ref <- ObjectReferences(s.cfg, WorkerApply(s, m, step).rows[id]) ::
               ref in ObjectReferences(s.cfg, s.rows[id]) || ref in {VideoRef(s.cfg, id), ThumbnailRef(s.cfg, id)})
  {
  }

  lemma UploadShrinksRefs(s: State, c: nat, step: UploadStep, id: JobId)
    requires UploadEnabled(s, c, step) && id in s.rows && id in s.used
    ensures id in UploadApply(s, c, step).rows && Shrinks(s.cfg, s.rows[id], UploadApply(s, c, step).rows[id])
  {
  }

  lemma RequeueShrinksRefs(s: State, c: nat, step: RequeueStep, id: JobId)
    requires RequeueEnabled(s, c, step) && id in s.rows
    ensures id in RequeueApply(s, c, step).rows && Shrinks(s.cfg, s.rows[id], RequeueApply(s, c, step).rows[id])
  {
  }

  lemma CleanupShrinksRefs(s: State, c: nat, step: CleanupStep, id: JobId)
    requires CleanupEnabled(s, c, step) && id in CleanupApply(s, c, step).rows
    ensures id in s.rows && Shrinks(s.cfg, s.rows[id], CleanupApply(s, c, step).rows[id])
  {
  }

  lemma ReadShrinksRefs(s: State, a: Action, id: JobId)
    requires Enabled(s, a) && !a.Worker? && !a.Upload? && !a.Requeue? && !a.Cleanup? && id in s.rows
    ensures id in Next(s, a).rows && Shrinks(s.cfg, s.rows[id], Next(s, a).rows[id])
  {
  }

  lemma OthersShrinkRefs(s: State, a: Action, id: JobId)
    requires Enabled(s, a) && !a.Worker? && id in s.rows && id in s.used && id in Next(s, a).rows
    ensures Shrinks(s.cfg, s.rows[id], Next(s, a).rows[id])
  {
    match a
    case Upload(c, step) => UploadShrinksRefs(s, c, step, id);
    case Requeue(c, step) => RequeueShrinksRefs(s, c, step, id);
    case Cleanup(c, step) => CleanupShrinksRefs(s, c, step, id);
    case _ => ReadShrinksRefs(s, a, id);
  }

  lemma WorkerKeepsTracked(s: State, m: nat, step: WorkerStep, id: JobId, refs: seq<ObjectRef>)
    requires WorkerEnabled(s, m, step) && Tracked(s, id, refs)
    ensures Tracked(WorkerApply(s, m, step), id, refs)
  {
    var s' := WorkerApply(s, m, step);
    assert s'.messages == s.messages[m := s'.messages[m]] && s.store <= s'.store && s'.cfg == s.cfg;
    if id in s.rows {
      WorkerMovesRefs(s, m, step, id);
      if s.messages[m].job == id && s.messages[m].phase.Running? && s.rows[id].backend.ObjectStorage? {
        assert RunTracked(s, id, s.messages[m].phase, refs);
      }
    }
  }

  lemma TrackedStays(s: State, s': State, id: JobId, refs: seq<ObjectRef>)
    requires Tracked(s, id, refs) && s'.cfg == s.cfg && |s.messages| <= |s'.messages|
    requires id in s'.rows ==> id in s.rows && KeysOk(id, s.rows[id]) && Shrinks(s.cfg, s.rows[id], s'.rows[id])
    requires forall ref | ref in s.store && OwnKey(id, ref.key) && ref !in refs :: ref in s'.store
    requires forall m | 0 <= m < |s'.messages| ::
      if m < |s.messages| then s'.messages[m] == s.messages[m] else s'.messages[m].phase.Waiting?
    ensures Tracked(s', id, refs)
  {
    KeysAreOwn(id, "");
    if id in s'.rows {
      ReferencesAreOwn(s.cfg, id, s.rows[id]);
      if s.rows[id].backend.ObjectStorage? {
        forall m | 0 <= m < |s'.messages| && s'.messages[m].job == id && s'.messages[m].phase.Running?
          ensures RunTracked(s', id, s'.messages[m].phase, refs)
        {
          assert RunTracked(s, id, s.messages[m].phase, refs);
        }
      }
    }
  }

  lemma OthersKeepTracked(s: State, a: Action, id: JobId, c: nat, refs: seq<ObjectRef>)
    requires Enabled(s, a) && !a.Worker? && Inv(s) && Tracked(s, id, refs) && id in s.used
    requires SoleStep(s, a, id, c) && Underway(s, id, c) && s.calls[c].progress.refs == refs
    ensures Tracked(Next(s, a), id, refs)
  {
    NextFrames(s, a);
    if id in Next(s, a).rows {
      assert id in s.rows && RowOk(id, s.rows[id]);
      OthersShrinkRefs(s, a, id);
    }
    forall ref | ref in s.store && OwnKey(id, ref.key) && ref !in refs ensures ref in Next(s, a).store {
      if ref !in Next(s, a).store {
        StoreKeeps(s, a, id, c, ref);
      }
    }
    MessagesOnlyArrive(s, a);
    TrackedStays(s, Next(s, a), id, refs);
  }

  lemma MessagesOnlyArrive(s: State, a: Action)
    requires Enabled(s, a) && !a.Worker?
    ensures |s.messages| <= |Next(s, a).messages|
    ensures forall m | 0 <= m < |Next(s, a).messages| ::
      if m < |s.messages| then Next(s, a).messages[m] == s.messages[m] else Next(s, a).messages[m].phase.Waiting?
  {
  }

  lemma {:induction false} RunKeepsTracked(s: State, actions: seq<Action>, id: JobId, c: nat)
    requires Valid(s, actions) && Inv(s) && Underway(s, id, c) && Deletes(Exec(s, actions), c) && id in s.used
    requires SoleRun(s, actions, id, c) && Tracked(s, id, s.calls[c].progress.refs)
    ensures Tracked(Exec(s, actions), id, s.calls[c].progress.refs)
    ensures Exec(s, actions).calls[c].progress.refs == s.calls[c].progress.refs
    decreases |actions|
  {
    if actions != [] {
      var a, next := actions[0], Next(s, actions[0]);
      StillDeletes(s, actions, c);
      StaysUnderway(s, a, id, c);
      NextFrames(s, a);
      if a.Worker? {
        WorkerKeepsTracked(s, a.m, a.worker, id, s.calls[c].progress.refs);
      } else {
        OthersKeepTracked(s, a, id, c, s.calls[c].progress.refs);
      }
      NextKeepsInv(s, a);
      RunKeepsTracked(next, actions[1..], id, c);
    }
  }

  // The commit

  lemma ReferencesDiffer(cfg: Settings, id: JobId, row: Row)
    requires SlashFree(id) && KeysOk(id, row)
    ensures NoRepeats(ObjectReferences(cfg, row))
  {
    KeysNeverCollide(id, id, row.originalFilename, row.originalFilename);
  }

  /** The live runs of the job find the outputs they have stored still in the store, or the row names them. */
  ghost predicate RunsIntact(s: State, id: JobId)
    requires id in s.rows
  {
    s.rows[id].backend.ObjectStorage? ==>
      forall m | 0 <= m < |s.messages| && s.messages[m].job == id && s.messages[m].phase.Running? ::
        RunTracked(s, id, s.messages[m].phase, ObjectReferences(s.cfg, s.rows[id]))
  }

  lemma NoRunIsIntact(s: State, id: JobId)
    requires id in s.rows && NoLiveRun(s, id)
    ensures RunsIntact(s, id)
  {
  }

  /** Before any cleanup has opened the job, live runs or not. */
  lemma FirstCleanupFindsRunsIntact(cfg: Settings, begin: int, s: State, id: JobId)
    requires Reaches(Init(cfg, begin), s) && id in s.rows && CleanupFree(s, id)
    ensures RunsIntact(s, id)
  {
    var actions :| Valid(Init(cfg, begin), actions) && Exec(Init(cfg, begin), actions) == s;
    ReachableInv(cfg, begin, []);
    ExecKeepsStore(Init(cfg, begin), actions);
    if s.rows[id].backend.ObjectStorage? {
      assert JobStored(s, id);
      forall m | 0 <= m < |s.messages| && s.messages[m].job == id && s.messages[m].phase.Running?
        ensures RunTracked(s, id, s.messages[m].phase, ObjectReferences(s.cfg, s.rows[id]))
      {
        assert RunStored(s, id, s.rows[id], s.messages[m].phase);
      }
    }
  }

  lemma OpeningTracks(s: State, c: nat)
    requires Inv(s) && Enabled(s, Cleanup(c, OpenReferences)) && RunsIntact(s, s.calls[c].target)
    ensures var s', id := Next(s, Cleanup(c, OpenReferences)), s.calls[c].target;
            && id in s.used && Underway(s', id, c) && Tracked(s', id, s'.calls[c].progress.refs)
            && s'.calls[c].progress.refs == s'.calls[c].progress.pending == ObjectReferences(s.cfg, s.rows[id])
  {
    var id := s.calls[c].target;
    var refs := ObjectReferences(s.cfg, s.rows[id]);
    assert CallOk(s, c) && RowOk(id, s.rows[id]);
    ReferencesDiffer(s.cfg, id, s.rows[id]);
    ReferencesAreOwn(s.cfg, id, s.rows[id]);
    assert refs[|refs| - |refs|..] == refs;
  }

  /** From the opening on, the store tells what the cleanup missed. */
  lemma StoreTells(opening: State, id: JobId, c: nat, between: seq<Action>, ref: ObjectRef)
    requires Inv(opening) && id in opening.used && Underway(opening, id, c)
    requires Tracked(opening, id, opening.calls[c].progress.refs)
    requires opening.calls[c].progress.pending == opening.calls[c].progress.refs
    requires Valid(opening, between) && SoleRun(opening, between, id, c)
    requires var s' := Exec(opening, between);
             && Deletes(s', c) && s'.calls[c].progress.pending == []
             && id in s'.rows && ref in ObjectReferences(s'.cfg, s'.rows[id])
    ensures ref !in Exec(opening, between).store
       <==> ref in opening.calls[c].progress.refs && !Restored(opening, between, c, ref)
  {
    RunKeepsTracked(opening, between, id, c);
    if ref in opening.calls[c].progress.refs {
      GoneUnlessRestored(opening, between, c, ref);
      if Restored(opening, between, c, ref) {
        RestoredStays(opening, between, id, c, ref);
      }
    }
  }

  lemma CommitOnlyWritesTheRow(s: State, c: nat)
    requires Enabled(s, Cleanup(c, CommitCleanup))
    ensures Deletes(s, c) && s.calls[c].progress.pending == [] && s.calls[c].target in s.rows
    ensures Next(s, Cleanup(c, CommitCleanup)).store == s.store
  {
  }

  /** Exactly what one cleanup leaves behind, with every other actor free to act between its steps: of the objects the
      row names when the references are given up or the row is deleted, those are gone that the cleanup had read at its
      start and that no run has put back since. This presupposes that live runs have their outputs at the start, and
      that no other cleanup deletes objects of the job meanwhile; earlier cleanups of the job do not matter. */
  lemma CommitLeavesNothingBehindIff(s: State, c: nat, between: seq<Action>, ref: ObjectRef)
    requires Inv(s) && Enabled(s, Cleanup(c, OpenReferences)) && RunsIntact(s, s.calls[c].target)
    requires Valid(Next(s, Cleanup(c, OpenReferences)), between)
    requires SoleRun(Next(s, Cleanup(c, OpenReferences)), between, s.calls[c].target, c)
    requires var s' := Exec(Next(s, Cleanup(c, OpenReferences)), between);
             && Enabled(s', Cleanup(c, CommitCleanup))
             && s.calls[c].target in s'.rows && ref in ObjectReferences(s'.cfg, s'.rows[s.calls[c].target])
    ensures var opening := Next(s, Cleanup(c, OpenReferences));
            ref !in Next(Exec(opening, between), Cleanup(c, CommitCleanup)).store
            <==> ref in ObjectReferences(s.cfg, s.rows[s.calls[c].target]) && !Restored(opening, between, c, ref)
  {
    var id, opening := s.calls[c].target, Next(s, Cleanup(c, OpenReferences));
    OpeningTracks(s, c);
    NextKeepsInv(s, Cleanup(c, OpenReferences));
    CommitOnlyWritesTheRow(Exec(opening, between), c);
    StoreTells(opening, id, c, between, ref);
  }

  // What a caller can check beforehand

  /** An object below the job's prefix comes into the store only through a live run of the job, or through the upload
      that has just inserted it. */
  lemma OnlyTheJobStores(s: State, a: Action, id: JobId, ref: ObjectRef)
    requires Enabled(s, a) && Inv(s) && SlashFree(id) && OwnKey(id, ref.key)
    requires ref !in s.store && ref in Next(s, a).store
    ensures !Quiescent(s, id)
  {
    if a.Worker? {
      WorkerStores(s, a.m, a.worker, ref);
      OwnersAreDisjoint(id, s.messages[a.m].job, ref.key);
    } else {
      UploadStores(s, a, ref);
      var job := s.calls[a.c].at.id;
      assert CallOk(s, a.c);
      KeysAreOwn(job, s.rows[job].originalFilename);
      OwnersAreDisjoint(id, job, ref.key);
      assert InFlight(s.calls[a.c], id);
    }
  }

  lemma WorkerStores(s: State, m: nat, step: WorkerStep, ref: ObjectRef)
    requires WorkerEnabled(s, m, step) && Inv(s) && ref !in s.store && ref in WorkerApply(s, m, step).store
    ensures s.messages[m].phase.Running? && SlashFree(s.messages[m].job) && OwnKey(s.messages[m].job, ref.key)
  {
    var job := s.messages[m].job;
    assert MessageOk(s, s.messages[m]);
    KeysAreOwn(job, "");
    assert ref.key in {ProcessedObjectKey(job), ThumbnailObjectKey(job)};
  }

  lemma UploadStores(s: State, a: Action, ref: ObjectRef)
    requires Enabled(s, a) && !a.Worker? && ref !in s.store && ref in Next(s, a).store
    ensures a.Upload? && a.upload.SaveRaw? && s.calls[a.c].at.Inserted?
    ensures ref == ObjectRef(s.cfg.rawVideoBucket,
                             RawObjectKey(s.calls[a.c].at.id, s.rows[s.calls[a.c].at.id].originalFilename))
  {
  }

  lemma {:induction false} NothingIsRestored(s: State, actions: seq<Action>, c: nat, ref: ObjectRef, id: JobId)
    requires Valid(s, actions) && Inv(s) && Settled(s, id) && id in Exec(s, actions).rows
    requires id in s.rows && s.rows[id].status.FAILED? ==> NeverRetried(actions, id)
    requires SlashFree(id) && OwnKey(id, ref.key)
    ensures id in s.rows && !Restored(s, actions, c, ref)
    decreases |actions|
  {
    if id !in s.rows {
      DeletedStaysDeleted(s, actions, id);
    } else if actions != [] {
      SettledStep(s, actions[0], id);
      NextKeepsInv(s, actions[0]);
      NothingIsRestored(Next(s, actions[0]), actions[1..], c, ref, id);
      if Restores(s, actions[0], c, ref) {
        OnlyTheJobStores(s, actions[0], id, ref);
      }
    }
  }

  /** If the row is COMPLETED or exhausted FAILED and nothing of the job is in flight when the cleanup opens the
      references, and nobody retries a FAILED job by hand before the commit, then every object the row names at the
      commit is gone, whatever else happens meanwhile and however many other cleanups work on the job. */
  lemma QuiescentJobIsCleanedUp(s: State, c: nat, between: seq<Action>)
    requires Inv(s) && Enabled(s, Cleanup(c, OpenReferences))
    requires Terminal(s.rows[s.calls[c].target]) && Quiescent(s, s.calls[c].target)
    requires s.rows[s.calls[c].target].status.COMPLETED? || NeverRetried(between, s.calls[c].target)
    requires Valid(Next(s, Cleanup(c, OpenReferences)), between)
    requires Enabled(Exec(Next(s, Cleanup(c, OpenReferences)), between), Cleanup(c, CommitCleanup))
    requires s.calls[c].target in Exec(Next(s, Cleanup(c, OpenReferences)), between).rows
    ensures var s' := Exec(Next(s, Cleanup(c, OpenReferences)), between);
            forall ref <- ObjectReferences(s'.cfg, s'.rows[s.calls[c].target]) ::
              ref !in Next(s', Cleanup(c, CommitCleanup)).store
  {
    var id, opening := s.calls[c].target, Next(s, Cleanup(c, OpenReferences));
    var s' := Exec(opening, between);
    CommitOnlyWritesTheRow(s', c);
    assert CallOk(s, c) && RowOk(id, s.rows[id]);
    SettledStep(s, Cleanup(c, OpenReferences), id);
    NextKeepsInv(s, Cleanup(c, OpenReferences));
    SettledRun(opening, between, id);
    ConfigStays(opening, between);
    ReferencesAreOwn(s.cfg, id, s.rows[id]);
    forall ref <- ObjectReferences(s'.cfg, s'.rows[id]) ensures ref !in s'.store {
      assert ref in ObjectReferences(s.cfg, s.rows[id]);
      NothingIsRestored(opening, between, c, ref, id);
      GoneUnlessRestored(opening, between, c, ref);
    }
  }
}
