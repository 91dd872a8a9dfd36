/** backend/app/services/distributed_lock.py: one Redis key with a token and an expiry. Times are in milliseconds. */
module RedisLock {
  import opened Common

  /** The UUID of one lock object. */
  type Token = nat

  datatype Lease = Lease(token: Token, expires: int)

  predicate Live(key: Option<Lease>, now: int) {
    key.Some? && now < key.value.expires
  }

  predicate Owns(key: Option<Lease>, token: Token) {
    key.Some? && key.value.token == token
  }

  /** `SET key token NX EX ttl` */
  function SetIfFree(key: Option<Lease>, token: Token, ttlSeconds: int, now: int): Option<Lease> {
    if Live(key, now) then key else Some(Lease(token, now + 1000 * ttlSeconds))
  }

  /** The release script. */
  function CompareAndDelete(key: Option<Lease>, token: Token, now: int): Option<Lease> {
    if Live(key, now) && key.value.token == token then None else key
  }

  class Redis {
    var key: Option<Lease>
    var now: int

    constructor (now: int)
      ensures key.None? && this.now == now
    {
      key, this.now := None, now;
    }

    /** Redis refuses an expiry that is not positive. */
    method Set(token: Token, ttlSeconds: int, fate: Fate) returns (granted: Option<bool>)
      modifies this`key
      ensures granted.None? <==> !fate.Replied? || ttlSeconds <= 0
      ensures granted.Some? ==> (granted.value <==> !Live(old(key), now))
      ensures key == if fate.Unsent? || ttlSeconds <= 0 then old(key) else SetIfFree(old(key), token, ttlSeconds, now)
    {
      if fate.Unsent? || ttlSeconds <= 0 {
        return None;
      }
      var free := !Live(key, now);
      if free {
        key := Some(Lease(token, now + 1000 * ttlSeconds));
      }
      granted := if fate.ReplyLost? then None else Some(free);
    }

    method EvalRelease(token: Token, fate: Fate) returns (deleted: Option<bool>)
      modifies this`key
      ensures deleted.None? <==> !fate.Replied?
      ensures deleted.Some? ==> (deleted.value <==> Live(old(key), now) && Owns(old(key), token))
      ensures key == if fate.Unsent? then old(key) else CompareAndDelete(old(key), token, now)
    {
      if fate.Unsent? {
        return None;
      }
      var own := Live(key, now) && key.value.token == token;
      if own {
        key := None;
      }
      deleted := if fate.ReplyLost? then None else Some(own);
    }
  }

  /** What the other lock objects may do to the key: expired keys go, and a live one stays for its holder alone to
      remove. `ReconcilerLease.LeaseIsFenced` is the proof that they keep to it. */
  ghost predicate Respects(token: Token, before: Option<Lease>, after: Option<Lease>, now: int) {
    && (Owns(before, token) && Live(before, now) ==> after == before)
    && (Owns(after, token) ==> after == before)
  }

  class OtherHolders {
    constructor () {
    }

    /** The others act while `elapsed` milliseconds or more go by. */
    method Act(redis: Redis, token: Token, elapsed: nat)
      modifies redis
      ensures redis.now >= old(redis.now) + elapsed
      ensures Respects(token, old(redis.key), redis.key, redis.now)
    {
      redis.now := redis.now + elapsed;
    }
  }

  class RedisDistributedLock {
    const ttlSeconds: int
    const acquireTimeoutSeconds: int
    const value: Token
    var connected: bool
    var acquired: bool
    var lastError: Option<string>

    constructor (value: Token, ttlSeconds: int, acquireTimeoutSeconds: int)
      ensures this.value == value && this.ttlSeconds == ttlSeconds
      ensures this.acquireTimeoutSeconds == acquireTimeoutSeconds
      ensures !connected && !acquired && lastError.None?
    {
      this.value, this.ttlSeconds, this.acquireTimeoutSeconds := value, ttlSeconds, acquireTimeoutSeconds;
      connected, acquired, lastError := false, false, None;
    }

    /** Polls every 100 ms until the key is granted, the deadline has passed or Redis fails; `fates` says how the
        successive commands end. It gives up without an error only at or after the deadline, and only because the key
        was held by somebody else at that very moment. */
    method Acquire(redis: Redis, others: OtherHolders, fates: nat -> Fate) returns (granted: bool)
      requires !acquired && lastError.None? && !Owns(redis.key, value)
      modifies this, redis
      ensures connected && granted == acquired && redis.now >= old(redis.now)
      ensures granted ==> ttlSeconds > 0 && redis.key == Some(Lease(value, redis.now + 1000 * ttlSeconds))
      ensures granted ==> lastError.None?
      ensures !granted && lastError.None? ==>
        && redis.now >= old(redis.now) + 1000 * acquireTimeoutSeconds
        && Live(redis.key, redis.now) && !Owns(redis.key, value)
      ensures ttlSeconds <= 0 ==> lastError.Some?
    {
      var deadline := redis.now + 1000 * if acquireTimeoutSeconds > 0 then acquireTimeoutSeconds else 0;
      connected := true;
      var polls: nat := 0;
      while true
        invariant redis.now >= old(redis.now) && polls >= 0
        invariant connected && !acquired && lastError.None? && !Owns(redis.key, value)
        invariant polls > 0 ==> ttlSeconds > 0
        decreases deadline - redis.now
      {
        var result := redis.Set(value, ttlSeconds, fates(polls));
        if result.None? {
          lastError := Some("redis");
          return false;
        }
        if result.value {
          acquired := true;
          return true;
        }
        if redis.now >= deadline {
          return false;
        }
        others.Act(redis, value, 100);
        polls := polls + 1;
      }
    }

    /** Removes the key exactly when it is still this object's live lease; another holder's key is never touched. */
    method Release(redis: Redis, fate: Fate) returns (released: bool)
      modifies this, redis`key
      ensures !connected || !old(connected && acquired)
      ensures !old(connected && acquired) ==>
        && !released && redis.key == old(redis.key)
        && connected == old(connected) && acquired == old(acquired) && lastError == old(lastError)
      ensures old(connected && acquired) ==>
        && (released <==> fate.Replied? && Live(old(redis.key), redis.now) && Owns(old(redis.key), value))
        && redis.key == (if fate.Unsent? then old(redis.key)
                         else CompareAndDelete(old(redis.key), value, redis.now))
        && (acquired <==> !fate.Replied?)
        && (lastError == if fate.Replied? then old(lastError) else Some("redis"))
    {
      if !connected || !acquired {
        return false;
      }
      var result := redis.EvalRelease(value, fate);
      if result.Some? {
        acquired := false;
        released := result.value;
      } else {
        lastError := Some("redis");
        released := false;
      }
      connected := false;
    }
  }
}
