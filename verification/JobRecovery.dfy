/** backend/app/services/job_recovery_service.py: the stuck-job recovery pass. */
module JobRecovery {
  import opened Common
  import opened RedisQueue
  import opened VideoJobs

  datatype StuckTimeouts = StuckTimeouts(processing: int, queued: int)

  datatype Outcome = Requeued | Failed | Skipped | EnqueueFailed

  datatype RecoveryResult = RecoveryResult(recovered: seq<JobId>, failed: seq<JobId>, skipped: seq<JobId>)

  const TIMEOUT_MESSAGE := "Job exceeded processing timeout and retry limit"

  function AgeSeconds(now: int, then_: int): int {
    if now - then_ > 0 then now - then_ else 0
  }

  function ProcessingStuckAge(row: Row, now: int, timeout: int): Option<int> {
    if !row.status.PROCESSING? || row.timing.startedAt.None? then None
    else
      var age := AgeSeconds(now, row.timing.startedAt.value);
      if age > timeout then Some(age) else None
  }

  function QueuedStuckAge(row: Row, now: int, timeout: int): Option<int> {
    if !row.status.QUEUED? then None
    else
      var age := AgeSeconds(now, row.updatedAt);
      if age > timeout then Some(age) else None
  }

  predicate IsStuck(row: Row, now: int, timeouts: StuckTimeouts) {
    || ProcessingStuckAge(row, now, timeouts.processing).Some?
    || QueuedStuckAge(row, now, timeouts.queued).Some?
  }

  predicate ShouldFailStuckJob(row: Row) {
    row.attemptCount >= row.maxAttempts
  }

  /** The columns assigned by `_reset_for_requeue`. */
  function ResetForRequeue(row: Row): Row {
    row.(status := QUEUED, failure := NO_FAILURE, timing := NO_TIMING, outputs := NO_OUTPUTS)
  }

  /** The columns assigned by `_mark_failed`. */
  function RecoveryFailed(row: Row, message: string, now: int): Row {
    row.(status := FAILED,
         failure := FailureMetadata(Some(Truncated(message)), Some(now), Some("StuckJobTimeout"), true),
         timing := row.timing.(completedAt := Some(now)))
  }

  function Decision(row: Row, down: bool): Outcome {
    if !row.status.PROCESSING? && !row.status.QUEUED? then Skipped
    else if ShouldFailStuckJob(row) then Failed
    else if down then EnqueueFailed
    else Requeued
  }

  /** What a recovery with this outcome commits over `row`; `message` is the RQ message it pushed, if any. */
  function Recovered(row: Row, outcome: Outcome, error: string, message: nat, now: int): Row {
    match outcome
    case Requeued => Stamped(ResetForRequeue(row).(queueJobId := Some(message)), now)
    case Failed => Stamped(RecoveryFailed(row, TIMEOUT_MESSAGE, now), now)
    case EnqueueFailed => Stamped(RecoveryFailed(row, "recovery_enqueue_failed: " + error, now), now)
    case Skipped => row
  }

  /** The row an undisturbed recovery of `row` commits. */
  function AfterRecovery(row: Row, down: bool, error: string, message: nat, now: int): Row {
    Recovered(row, Decision(row, down), error, message, now)
  }

  /** A handled job is requeued exactly when attempts remain and the queue is up; otherwise it is exhausted FAILED.
      Either way it is not stuck again before a full queued timeout has passed. */
  lemma RecoverySettlesJob(row: Row, down: bool, error: string, message: nat, now: int, later: int, t: StuckTimeouts)
    requires IsStuck(row, now, t) && later <= now + t.queued && t.queued >= 0
    ensures var after := AfterRecovery(row, down, error, message, now);
            && !IsStuck(after, later, t)
            && (row.attemptCount < row.maxAttempts && !down <==> after.status.QUEUED?)
            && (after.status.QUEUED? ==>
                  && after.queueJobId == Some(message) && after.outputs == NO_OUTPUTS
                  && after.failure == NO_FAILURE && after.timing == NO_TIMING)
            && (!after.status.QUEUED? ==>
                  after.status.FAILED? && after.failure.retryExhausted && after.failure.failedAt == Some(now))
            && after.attemptCount == row.attemptCount && after.raw == row.raw
  {
  }

  class JobRecoveryService {
    var lastRecoveryOutcomes: map<Outcome, nat>

    constructor ()
    {
      lastRecoveryOutcomes := map[Requeued := 0, Failed := 0, Skipped := 0, EnqueueFailed := 0];
    }

    method FindStuckJobs(db: Database, timeouts: StuckTimeouts) returns (stuck: seq<JobId>)
      ensures forall i, j | 0 <= i < j < |stuck| :: stuck[i] != stuck[j]
      ensures forall id :: id in stuck <==> id in db.rows && IsStuck(db.rows[id], db.now, timeouts)
      ensures forall id :: id in stuck <==>
        && id in db.rows
        && var row, now := db.rows[id], db.now;
           || (row.status.PROCESSING? && row.timing.startedAt.Some?
               && (if now > row.timing.startedAt.value then now - row.timing.startedAt.value else 0)
                  > timeouts.processing)
           || (row.status.QUEUED? && (if now > row.updatedAt then now - row.updatedAt else 0) > timeouts.queued)
    {
      stuck := [];
      var unread := db.rows.Keys;
      while unread != {}
        invariant unread <= db.rows.Keys
        invariant forall i, j | 0 <= i < j < |stuck| :: stuck[i] != stuck[j]
        invariant forall id ::
          id in stuck <==> id in db.rows && id !in unread && IsStuck(db.rows[id], db.now, timeouts)
      {
        var id :| id in unread;
        if IsStuck(db.rows[id], db.now, timeouts) {
          stuck := stuck + [id];
        }
        unread := unread - {id};
      }
    }

    method ResetJobForRequeue(job: VideoJob)
      modifies job
      ensures job.AsRow() == ResetForRequeue(old(job.AsRow()))
      ensures job.AsRow() == old(job.AsRow()).(
        status := QUEUED, failure := FailureMetadata(None, None, None, false), timing := Timing(None, None, None),
        outputs := Outputs(None, None, None, None))
    {
      job.status := QUEUED;
      job.failure := NO_FAILURE;
      job.timing := NO_TIMING;
      job.outputs := NO_OUTPUTS;
    }

    method MarkFailed(db: Database, job: VideoJob, message: string)
      modifies db`rows, job
      ensures db.rows == old(db.rows)[job.id := Stamped(RecoveryFailed(old(job.AsRow()), message, db.now), db.now)]
      ensures db.rows[job.id] == old(job.AsRow()).(
        status := FAILED, updatedAt := db.now,
        failure := FailureMetadata(Some(if |message| > 8000 then message[..8000] else message), Some(db.now),
                                   Some("StuckJobTimeout"), true),
        timing := Timing(old(job.timing.startedAt), Some(db.now), old(job.timing.duration)))
    {
      job.status := FAILED;
      job.failure := FailureMetadata(Some(Truncated(message)), Some(db.now), Some("StuckJobTimeout"), true);
      job.timing := job.timing.(completedAt := Some(db.now));
      db.Commit(job);
    }

    /** Decides on the row as read, enqueues if it is to be requeued, and then commits over the row as it is by then:
        the other actors may act while Redis is called. No outcome means that the row was deleted meanwhile, which
        makes the commit raise. */
    method RecoverOne(db: Database, queue: QueueService, env: Environment, id: JobId, origin: nat, down: bool,
                      error: string)
      returns (outcome: Option<Outcome>, ghost committing: Table)
      requires id in db.rows
      modifies db, queue
      ensures queue.messages == old(queue.messages) + if Decision(old(db.rows[id]), down).Requeued?
                                                      then [NewMessage(id, origin, old(db.rows[id]).maxAttempts)]
                                                      else []
      ensures env.quiet || Decision(old(db.rows[id]), down) in {Skipped, Failed} ==>
        committing == old(db.rows) && db.now == old(db.now)
      ensures outcome == if id in committing then Some(Decision(old(db.rows[id]), down)) else None
      ensures db.rows ==
        if id !in committing then committing
        else committing[id := Recovered(committing[id], Decision(old(db.rows[id]), down), error,
                                        |old(queue.messages)|, db.now)]
      ensures var before := old(db.rows)[id];
              (id in committing ==>
                outcome == Some(if !before.status.PROCESSING? && !before.status.QUEUED? then Skipped
                                else if before.attemptCount >= before.maxAttempts then Failed
                                else if down then EnqueueFailed
                                else Requeued))
      ensures outcome == Some(Requeued) ==>
        db.rows[id] == committing[id].(
          status := QUEUED, queueJobId := Some(|old(queue.messages)|), updatedAt := db.now,
          failure := FailureMetadata(None, None, None, false), timing := Timing(None, None, None),
          outputs := Outputs(None, None, None, None))
      ensures outcome in {Some(Failed), Some(EnqueueFailed)} ==>
        var message := if outcome.value.Failed? then "Job exceeded processing timeout and retry limit"
                       else "recovery_enqueue_failed: " + error;
        db.rows[id] == committing[id].(
          status := FAILED, updatedAt := db.now,
          failure := FailureMetadata(Some(if |message| > 8000 then message[..8000] else message), Some(db.now),
                                     Some("StuckJobTimeout"), true),
          timing := Timing(committing[id].timing.startedAt, Some(db.now), committing[id].timing.duration))
    {
      var job := db.Get(id);
      committing := db.rows;
      if !job.status.PROCESSING? && !job.status.QUEUED? {
        assert db.rows == db.rows[id := job.AsRow()];
        return Some(Skipped), committing;
      }
      if job.attemptCount >= job.maxAttempts {
        MarkFailed(db, job, TIMEOUT_MESSAGE);
        return Some(Failed), committing;
      }
      var rqJobId := queue.EnqueueVideoProcessing(id, job.maxAttempts, origin, down);
      env.Act(db);
      committing := db.rows;
      job := db.Get(id);
      if job == null {
        return None, committing;
      }
      if rqJobId.None? {
        MarkFailed(db, job, "recovery_enqueue_failed: " + error);
        return Some(EnqueueFailed), committing;
      }
      ResetJobForRequeue(job);
      job.queueJobId := rqJobId;
      db.Commit(job);
      return Some(Requeued), committing;
    }

    /** The body of the pass for one snapshot entry; no outcome means that the row had vanished before. */
    method RecoverEntry(db: Database, queue: QueueService, env: Environment, id: JobId, origin: nat, down: bool,
                        error: string)
      returns (raised: bool, outcome: Option<Outcome>)
      modifies db, queue
      ensures id !in old(db.rows) ==> !raised && outcome.None? && db.rows == old(db.rows)
      ensures id in old(db.rows) && !raised ==> outcome == Some(Decision(old(db.rows[id]), down))
      ensures env.quiet ==> !raised && db.now == old(db.now)
      ensures env.quiet && id in old(db.rows) ==>
        && id in db.rows && db.rows == old(db.rows)[id := db.rows[id]]
        && Handled(old(db.rows[id]), db.rows[id], id, queue.messages, origin, down, error, db.now)
      ensures old(queue.messages) <= queue.messages
    {
      if id !in db.rows {
        return false, None;
      }
      ghost var committing;
      outcome, committing := RecoverOne(db, queue, env, id, origin, down, error);
      raised := outcome.None?;
    }

    /** Files one outcome under the three lists and the counters. */
    method Record(result: RecoveryResult, id: JobId, outcome: Option<Outcome>, ghost vanished: nat)
      returns (updated: RecoveryResult)
      requires CountersAgree(lastRecoveryOutcomes, result, vanished)
      modifies this`lastRecoveryOutcomes
      ensures CountersAgree(lastRecoveryOutcomes, updated, if outcome.None? then vanished + 1 else vanished)
      ensures Listed(updated) == Listed(result) + multiset{id}
      ensures updated.skipped == if outcome in {None, Some(Skipped)} then result.skipped + [id] else result.skipped
    {
      match outcome {
        case None => updated := result.(skipped := result.skipped + [id]);
        case Some(Requeued) => updated := result.(recovered := result.recovered + [id]);
        case Some(Skipped) => updated := result.(skipped := result.skipped + [id]);
        case Some(_) => updated := result.(failed := result.failed + [id]);
      }
      if outcome.Some? {
        lastRecoveryOutcomes := lastRecoveryOutcomes[outcome.value := lastRecoveryOutcomes[outcome.value] + 1];
      }
    }

    /** One turn of the loop, from the row to the lists. `start` is the table at the snapshot. */
    method RecoverNext(db: Database, queue: QueueService, env: Environment, stuck: seq<JobId>, i: nat, origin: nat,
                       unreachable: set<JobId>, error: string, so: RecoveryResult, ghost vanished: nat,
                       ghost start: Table, ghost timeouts: StuckTimeouts)
      returns (raised: bool, result: RecoveryResult, ghost missing: nat)
      requires i < |stuck| && forall j, k | 0 <= j < k < |stuck| :: stuck[j] != stuck[k]
      requires stuck[i] in start && (env.quiet ==> IsStuck(start[stuck[i]], db.now, timeouts))
      requires CountersAgree(lastRecoveryOutcomes, so, vanished)
      requires env.quiet ==>
        PassDone(start, db.rows, stuck[..i], queue.messages, origin, unreachable, error, db.now)
      modifies this`lastRecoveryOutcomes, db, queue
      ensures raised ==> result == so && missing == vanished && lastRecoveryOutcomes == old(lastRecoveryOutcomes)
      ensures CountersAgree(lastRecoveryOutcomes, result, missing)
      ensures !raised ==> Listed(result) == Listed(so) + multiset{stuck[i]}
      ensures env.quiet ==>
        !raised && db.now == old(db.now) && result.skipped == so.skipped && missing == vanished
      ensures env.quiet ==>
        PassDone(start, db.rows, stuck[..i + 1], queue.messages, origin, unreachable, error, db.now)
    {
      var outcome;
      raised, outcome := RecoverAt(db, queue, env, stuck, i, origin, unreachable, error, start, timeouts);
      if raised {
        return true, so, vanished;
      }
      result := Record(so, stuck[i], outcome, vanished);
      missing := if outcome.None? then vanished + 1 else vanished;
    }

    method RecoverAt(db: Database, queue: QueueService, env: Environment, stuck: seq<JobId>, i: nat, origin: nat,
                     unreachable: set<JobId>, error: string, ghost start: Table, ghost timeouts: StuckTimeouts)
      returns (raised: bool, outcome: Option<Outcome>)
      requires i < |stuck| && forall j, k | 0 <= j < k < |stuck| :: stuck[j] != stuck[k]
      requires stuck[i] in start && (env.quiet ==> IsStuck(start[stuck[i]], db.now, timeouts))
      requires env.quiet ==>
        PassDone(start, db.rows, stuck[..i], queue.messages, origin, unreachable, error, db.now)
      modifies db, queue
      ensures env.quiet ==> !raised && outcome.Some? && !outcome.value.Skipped? && db.now == old(db.now)
      ensures env.quiet ==>
        PassDone(start, db.rows, stuck[..i + 1], queue.messages, origin, unreachable, error, db.now)
    {
      env.Act(db);
      var id := stuck[i];
      ghost var rows, messages := db.rows, queue.messages;
      if env.quiet {
        EntryIsUntouched(start, rows, stuck, i, messages, origin, unreachable, error, db.now, timeouts);
      }
      raised, outcome := RecoverEntry(db, queue, env, id, origin, id in unreachable, error);
      if env.quiet {
        assert stuck[..i + 1] == stuck[..i] + [id];
        PassAdvances(start, rows, db.rows, stuck[..i], id, messages, queue.messages, origin, unreachable, error,
                     db.now);
      }
    }

    /** The loop over the snapshot. */
    method RecoverAll(db: Database, queue: QueueService, env: Environment, stuck: seq<JobId>, origin: nat,
                      unreachable: set<JobId>, error: string, failsAt: Option<nat>, ghost timeouts: StuckTimeouts)
      returns (raised: bool, result: RecoveryResult, ghost handled: nat, ghost vanished: nat)
      requires forall i, j | 0 <= i < j < |stuck| :: stuck[i] != stuck[j]
      requires forall id <- stuck :: id in db.rows && IsStuck(db.rows[id], db.now, timeouts)
      requires CountersAgree(lastRecoveryOutcomes, RecoveryResult([], [], []), 0)
      modifies this`lastRecoveryOutcomes, db, queue
      ensures handled <= |stuck| && (raised <==> handled < |stuck|)
      ensures env.quiet ==>
        handled == if failsAt.Some? && failsAt.value < |stuck| then failsAt.value else |stuck|
      ensures Listed(result) == multiset(stuck[..handled])
      ensures CountersAgree(lastRecoveryOutcomes, result, vanished)
      ensures env.quiet ==> result.skipped == [] && vanished == 0
      ensures env.quiet ==> PassDone(old(db.rows), db.rows, stuck[..handled], queue.messages, origin, unreachable,
                                     error, old(db.now))
    {
      vanished, handled, result := 0, 0, RecoveryResult([], [], []);
      ghost var start := db.rows;
      raised := false;
      for i := 0 to |stuck|
        invariant handled == i && Listed(result) == multiset(stuck[..i])
        invariant CountersAgree(lastRecoveryOutcomes, result, vanished)
        invariant failsAt.Some? ==> i <= failsAt.value || |stuck| <= failsAt.value
        invariant env.quiet ==> db.now == old(db.now) && result.skipped == [] && vanished == 0
        invariant env.quiet ==>
          PassDone(start, db.rows, stuck[..i], queue.messages, origin, unreachable, error, old(db.now))
      {
        if failsAt == Some(i) {
          return true, result, handled, vanished;
        }
        raised, result, vanished :=
          RecoverNext(db, queue, env, stuck, i, origin, unreachable, error, result, vanished, start, timeouts);
        if raised {
          return true, result, handled, vanished;
        }
        assert stuck[..i + 1] == stuck[..i] + [stuck[i]];
        handled := i + 1;
      }
      assert stuck[..|stuck|] == stuck;
    }

    /** One pass. Between any two transactions the other actors may act, so rows may have moved on or vanished.
        `unreachable` are the jobs whose enqueue fails in this pass, `failsAt` is the entry at which the database
        raises, if it does. `handled` entries were dealt with before the pass ended.
        The three id lists partition the handled part of the snapshot, which is all of it unless the pass raised; the
        counters agree with them except for vanished rows. With a quiet environment every handled job was stuck and is
        dealt with once, and no other row is touched. */
    method RecoverStuckJobs(db: Database, queue: QueueService, env: Environment, timeouts: StuckTimeouts,
                            origin: nat, unreachable: set<JobId>, error: string, failsAt: Option<nat>)
      returns (raised: bool, result: RecoveryResult, ghost inspected: seq<JobId>, ghost handled: nat,
               ghost vanished: nat)
      modifies this, db, queue
      ensures forall id :: id in inspected <==> id in old(db.rows) && IsStuck(old(db.rows[id]), old(db.now), timeouts)
      ensures forall id :: id in inspected <==>
        && id in old(db.rows)
        && var row, now := old(db.rows)[id], old(db.now);
           || (row.status.PROCESSING? && row.timing.startedAt.Some?
               && (if now > row.timing.startedAt.value then now - row.timing.startedAt.value else 0)
                  > timeouts.processing)
           || (row.status.QUEUED? && (if now > row.updatedAt then now - row.updatedAt else 0) > timeouts.queued)
      ensures forall i, j | 0 <= i < j < |inspected| :: inspected[i] != inspected[j]
      ensures handled <= |inspected| && (raised <==> handled < |inspected|)
      ensures env.quiet ==>
        handled == if failsAt.Some? && failsAt.value < |inspected| then failsAt.value else |inspected|
      ensures Listed(result) == multiset(inspected[..handled])
      ensures CountersAgree(lastRecoveryOutcomes, result, vanished)
      ensures env.quiet ==> result.skipped == [] && vanished == 0
      ensures env.quiet ==> PassDone(old(db.rows), db.rows, inspected[..handled], queue.messages, origin, unreachable,
                                     error, old(db.now))
    {
      lastRecoveryOutcomes := map[Requeued := 0, Failed := 0, Skipped := 0, EnqueueFailed := 0];
      var stuck := FindStuckJobs(db, timeouts);
      inspected := stuck;
      raised, result, handled, vanished :=
        RecoverAll(db, queue, env, stuck, origin, unreachable, error, failsAt, timeouts);
    }
  }

  ghost function Listed(result: RecoveryResult): multiset<JobId> {
    multiset(result.recovered) + multiset(result.failed) + multiset(result.skipped)
  }

  ghost predicate CountersAgree(outcomes: map<Outcome, nat>, result: RecoveryResult, vanished: nat) {
    && outcomes.Keys == {Requeued, Failed, Skipped, EnqueueFailed}
    && outcomes[Requeued] == |result.recovered|
    && outcomes[Failed] + outcomes[EnqueueFailed] == |result.failed|
    && outcomes[Skipped] + vanished == |result.skipped|
  }

  /** The jobs of `done` were handled as their row in `before` demands; no other row changed. */
  ghost predicate PassDone(before: Table, after: Table, done: seq<JobId>, messages: seq<Message>, origin: nat,
                           unreachable: set<JobId>, error: string, now: int)
  {
    && after.Keys == before.Keys
    && (forall id <- before :: id !in done ==> after[id] == before[id])
    && (forall id <- done :: id in before &&
          Handled(before[id], after[id], id, messages, origin, id in unreachable, error, now))
  }

  lemma EntryIsUntouched(before: Table, middle: Table, stuck: seq<JobId>, i: nat, messages: seq<Message>,
                         origin: nat, unreachable: set<JobId>, error: string, now: int, timeouts: StuckTimeouts)
    requires i < |stuck| && PassDone(before, middle, stuck[..i], messages, origin, unreachable, error, now)
    requires forall j, k | 0 <= j < k < |stuck| :: stuck[j] != stuck[k]
    requires stuck[i] in before && IsStuck(before[stuck[i]], now, timeouts)
    ensures stuck[i] !in stuck[..i] && stuck[i] in middle && middle[stuck[i]] == before[stuck[i]]
    ensures !Decision(middle[stuck[i]], stuck[i] in unreachable).Skipped?
  {
  }

  lemma PassAdvances(before: Table, middle: Table, after: Table, done: seq<JobId>, id: JobId, messages: seq<Message>,
                     messages': seq<Message>, origin: nat, unreachable: set<JobId>, error: string, now: int)
    requires PassDone(before, middle, done, messages, origin, unreachable, error, now)
    requires id in before && id !in done && id in after && after == middle[id := after[id]] && messages <= messages'
    requires Handled(middle[id], after[id], id, messages', origin, id in unreachable, error, now)
    ensures PassDone(before, after, done + [id], messages', origin, unreachable, error, now)
  {
    forall other <- done + [id]
      ensures other in before
      ensures Handled(before[other], after[other], other, messages', origin, other in unreachable, error, now)
    {
      if other != id {
        assert other in done;
        HandledStays(before[other], after[other], other, messages, messages', origin, other in unreachable, error, now);
      }
    }
  }

  lemma HandledStays(before: Row, after: Row, id: JobId, messages: seq<Message>, messages': seq<Message>, origin: nat,
                     down: bool, error: string, now: int)
    requires Handled(before, after, id, messages, origin, down, error, now) && messages <= messages'
    ensures Handled(before, after, id, messages', origin, down, error, now)
  {
    if Decision(before, down).Requeued? {
      assert messages'[after.queueJobId.value] == messages[after.queueJobId.value];
    }
  }

  /** `after` is what handling `before` leaves, and a requeued job's message is really in the queue. */
  ghost predicate Handled(before: Row, after: Row, id: JobId, messages: seq<Message>, origin: nat, down: bool,
                          error: string, now: int)
  {
    match Decision(before, down)
    case Requeued =>
      && after.queueJobId.Some? && after.queueJobId.value < |messages|
      && messages[after.queueJobId.value] == NewMessage(id, origin, before.maxAttempts)
      && after == AfterRecovery(before, down, error, after.queueJobId.value, now)
    case _ => after == AfterRecovery(before, down, error, 0, now)
  }

  /** After a quiet pass every job that was stuck is freshly QUEUED under a message that is in the queue, with cleared
      outputs, or exhausted FAILED; none of them is stuck again before a full queued timeout has passed, so a second
      pass within that time finds none of them. */
  lemma QuietPassSettles(before: Table, after: Table, inspected: seq<JobId>, messages: seq<Message>, origin: nat,
                         unreachable: set<JobId>, error: string, now: int, later: int, t: StuckTimeouts)
    requires PassDone(before, after, inspected, messages, origin, unreachable, error, now)
    requires forall id <- inspected :: id in before && IsStuck(before[id], now, t)
    requires now <= later <= now + t.queued
    ensures forall id <- inspected :: id in after && !IsStuck(after[id], later, t)
    ensures forall id <- inspected ::
      var row := after[id];
      if before[id].attemptCount < before[id].maxAttempts && id !in unreachable then
        && row.status.QUEUED? && row.outputs == NO_OUTPUTS && row.failure == NO_FAILURE
        && row.queueJobId.Some? && row.queueJobId.value < |messages|
        && messages[row.queueJobId.value] == NewMessage(id, origin, row.maxAttempts)
      else row.status.FAILED? && row.failure.retryExhausted
  {
    forall id <- inspected
      ensures id in after && !IsStuck(after[id], later, t)
      ensures after[id].status.FAILED? ==> after[id].failure.retryExhausted
      ensures before[id].attemptCount < before[id].maxAttempts && id !in unreachable <==> after[id].status.QUEUED?
    {
      var down := id in unreachable;
      assert Handled(before[id], after[id], id, messages, origin, down, error, now);
      var message := if Decision(before[id], down).Requeued? then after[id].queueJobId.value else 0;
      RecoverySettlesJob(before[id], down, error, message, now, later, t);
    }
  }
}
