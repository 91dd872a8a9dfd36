/** workers/run_reconciler.py: one reconciler run, which recovers stuck jobs only inside its lease. */
module Reconciler {
  import opened Common
  import opened JobRecovery
  import opened ReconcilerLease
  import opened RedisLock
  import opened RedisQueue
  import opened VideoJobs

  datatype ReconcilerSettings = ReconcilerSettings(
    enabled: bool, lockEnabled: bool, recoveryEnabled: bool, acquireTimeoutSeconds: int, lease: LeaseSettings)

  datatype RunOutcome = Disabled | LockSkipped | Success | Error

  /** What the surroundings do to one run: how its Redis commands end, whether the database raises when the stuck jobs
      are read or at some later entry of the pass, and how long the pass takes. */
  datatype Weather = Weather(
    acquireFates: nat -> Fate, releaseFate: Fate, readingRaises: bool, failsAt: Option<nat>, passMillis: nat)

  /** The jobs whose enqueue fails, and with what message. */
  datatype QueueWeather = QueueWeather(origin: nat, unreachable: set<JobId>, error: string)

  /** `waited` is how long it asks to sleep. */
  method HoldLockForInterval(cfg: LeaseSettings, redis: Redis, others: OtherHolders, token: Token, start: int)
    returns (ghost waited: nat)
    modifies redis
    ensures redis.now >= old(redis.now)
    ensures !cfg.oneshot ==>
      forall w | w <= cfg.intervalSeconds && (w <= cfg.ttlSeconds - 1 || w <= 0) :: redis.now - start >= 1000 * w
    ensures !cfg.oneshot ==>
      var spent := old(redis.now) - start;
      var bound := if cfg.ttlSeconds > 1 then cfg.ttlSeconds - 1 else 0;
      var left := 1000 * (if cfg.intervalSeconds < bound then cfg.intervalSeconds else bound) - spent;
      waited == if left > 0 then left else 0
    ensures cfg.oneshot ==> redis.now == old(redis.now) && waited == 0
    ensures Respects(token, old(redis.key), redis.key, redis.now)
  {
    waited := 0;
    if cfg.oneshot {
      return;
    }
    var remaining := HoldMillis(cfg) - (redis.now - start);
    if remaining > 0 {
      waited := remaining;
      others.Act(redis, token, remaining);
    }
  }

  /** `acquiredAt` is when Redis granted the key, `releasedAt` when the release command was sent; `inspected` are the
      stuck jobs, of which `handled` were dealt with.
      - Rows and queue change only by recovery, which under `lockEnabled` happens only inside a granted lease. A
        successful run deals with every stuck job, a failing one with those before the failure.
      - A granted lease is always released in the end: after the pass, and outside oneshot mode not before the hold
        window is over.
      - The release reports success exactly when Redis answers and the ttl has not run out by then; the own key is
        then gone, and another holder's key stays in every case. */
  method RunOnce(cfg: ReconcilerSettings, service: JobRecoveryService, db: Database, queue: QueueService,
                 env: Environment, timeouts: StuckTimeouts, jobs: QueueWeather, redis: Redis, others: OtherHolders,
                 token: Token, weather: Weather)
    returns (outcome: RunOutcome, released: bool, ghost acquiredAt: Option<int>, ghost releasedAt: Option<int>,
             ghost inspected: seq<JobId>, ghost handled: nat)
    requires !Owns(redis.key, token)
    modifies service, db, queue, redis
    ensures outcome.Success? ==> cfg.enabled && cfg.recoveryEnabled && (cfg.lockEnabled ==> acquiredAt.Some?)
    ensures db.rows != old(db.rows) || queue.messages != old(queue.messages) ==>
      cfg.enabled && cfg.recoveryEnabled && (cfg.lockEnabled ==> acquiredAt.Some?)
    ensures handled <= |inspected| && (outcome.Success? ==> handled == |inspected|)
    ensures env.quiet && cfg.enabled && cfg.recoveryEnabled && !weather.readingRaises
            && (cfg.lockEnabled ==> acquiredAt.Some?) ==>
      && (forall id :: id in inspected <==>
            && id in old(db.rows)
            && var row, now := old(db.rows)[id], old(db.now);
               || (row.status.PROCESSING? && row.timing.startedAt.Some?
                   && (if now > row.timing.startedAt.value then now - row.timing.startedAt.value else 0)
                      > timeouts.processing)
               || (row.status.QUEUED? && (if now > row.updatedAt then now - row.updatedAt else 0) > timeouts.queued))
      && PassDone(old(db.rows), db.rows, inspected[..handled], queue.messages, jobs.origin, jobs.unreachable,
                  jobs.error, old(db.now))
      && (outcome.Success? <==> weather.failsAt.None? || weather.failsAt.value >= |inspected|)
      && (!outcome.Success? ==> outcome.Error? && handled == weather.failsAt.value)
    ensures env.quiet && outcome.Error? ==>
      weather.readingRaises || (weather.failsAt.Some? && weather.failsAt.value < |inspected|)
    ensures outcome.LockSkipped? <==> cfg.enabled && cfg.lockEnabled && acquiredAt.None?
    ensures acquiredAt.Some? ==> cfg.enabled && cfg.lockEnabled && acquiredAt.value >= old(redis.now)
    ensures acquiredAt.Some? <==> releasedAt.Some?
    ensures releasedAt.Some? ==>
      && releasedAt.value == redis.now >= acquiredAt.value
      && (handled > 0 ==> releasedAt.value >= acquiredAt.value + weather.passMillis)
      && (!cfg.lease.oneshot ==>
            forall w | w <= cfg.lease.intervalSeconds && (w <= cfg.lease.ttlSeconds - 1 || w <= 0) ::
              releasedAt.value - old(redis.now) >= 1000 * w)
      && (released <==>
            weather.releaseFate.Replied? && releasedAt.value < acquiredAt.value + 1000 * cfg.lease.ttlSeconds)
      && (released ==> redis.key.None?)
    ensures releasedAt.None? ==> !released
    ensures !cfg.enabled || !cfg.lockEnabled ==> redis.key == old(redis.key)
  {
    var start := redis.now;
    released, acquiredAt, releasedAt, inspected, handled := false, None, None, [], 0;
    if !cfg.enabled {
      if weather.readingRaises {
        outcome := Error;
      } else {
        var _ := service.FindStuckJobs(db, timeouts);
        outcome := Disabled;
      }
      return;
    }
    var lock: RedisDistributedLock? := null;
    if cfg.lockEnabled {
      lock := new RedisDistributedLock(token, cfg.lease.ttlSeconds, cfg.acquireTimeoutSeconds);
      var granted := lock.Acquire(redis, others, weather.acquireFates);
      if !granted {
        outcome := LockSkipped;
        return;
      }
      acquiredAt := Some(redis.now);
    }
    if weather.readingRaises {
      outcome := Error;
    } else if !cfg.recoveryEnabled {
      var _ := service.FindStuckJobs(db, timeouts);
      outcome := Disabled;
    } else {
      var raised, result;
      ghost var vanished;
      raised, result, inspected, handled, vanished :=
        service.RecoverStuckJobs(db, queue, env, timeouts, jobs.origin, jobs.unreachable, jobs.error, weather.failsAt);
      outcome := if raised then Error else Success;
      if lock != null {
        others.Act(redis, token, weather.passMillis);
      }
    }
    if lock != null && lock.acquired {
      ghost var waited := HoldLockForInterval(cfg.lease, redis, others, token, start);
      releasedAt := Some(redis.now);
      released := lock.Release(redis, weather.releaseFate);
    }
  }
}
