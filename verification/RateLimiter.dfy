/** backend/app/services/rate_limiter.py: a fixed-window counter in Redis. Times are in milliseconds; the limiter itself
    reads its clock in whole seconds. */
module RateLimiter {
  import opened Common

  datatype Counter = Counter(count: nat, expires: Option<int>)

  predicate Alive(counter: Counter, now: int) {
    counter.expires.None? || now < counter.expires.value
  }

  /** The counter as `INCR` leaves it. */
  function Incremented<K>(counters: map<K, Counter>, key: K, now: int): Counter {
    if key in counters && Alive(counters[key], now) then counters[key].(count := counters[key].count + 1)
    else Counter(1, None)
  }

  /** The counters as `EXPIRE` leaves them; a missing key is not an error. */
  function WithExpiry<K>(counters: map<K, Counter>, key: K, seconds: int, now: int): map<K, Counter> {
    if key in counters && Alive(counters[key], now)
    then counters[key := counters[key].(expires := Some(now + 1000 * seconds))]
    else counters
  }

  datatype LimiterSettings = LimiterSettings(enabled: bool, limit: int, windowSeconds: int)

  function Seconds(millis: int): int {
    millis / 1000
  }

  function WindowStart(seconds: int, windowSeconds: int): int
    requires windowSeconds > 0
  {
    seconds / windowSeconds * windowSeconds
  }

  function ResetSeconds(seconds: int, windowSeconds: int): int
    requires windowSeconds > 0
  {
    var reset := WindowStart(seconds, windowSeconds) + windowSeconds - seconds;
    if reset > 1 then reset else 1
  }

  function Remaining(limit: int, count: nat): int {
    if limit - count > 0 then limit - count else 0
  }

  /** Division with remainder is unique. */
  lemma QuotientIs(q: int, w: int, remainder: int)
    requires 0 <= remainder < w
    ensures (q * w + remainder) / w == q && (q * w + remainder) % w == remainder
  {
    var x := q * w + remainder;
    var d := x / w - q;
    assert x == x / w * w + x % w;
    assert d * w == remainder - x % w;
    assert d >= 1 ==> d * w >= w;
    assert d <= -1 ==> d * w <= -w;
  }

  /** `reset_seconds` is between 1 and the window, and lands exactly on the next multiple of the window. */
  lemma ResetIsTheNextBoundary(seconds: int, windowSeconds: int)
    requires windowSeconds > 0
    ensures 1 <= ResetSeconds(seconds, windowSeconds) <= windowSeconds
    ensures (seconds + ResetSeconds(seconds, windowSeconds)) % windowSeconds == 0
    ensures forall t | seconds < t < seconds + ResetSeconds(seconds, windowSeconds) :: t % windowSeconds != 0
  {
    var w, q := windowSeconds, seconds / windowSeconds;
    assert seconds == q * w + seconds % w;
    assert (q + 1) * w == q * w + w;
    QuotientIs(q + 1, w, 0);
    forall t | seconds < t < q * w + w ensures t % w != 0 {
      QuotientIs(q, w, t - q * w);
    }
  }

  type Key = (string, int)

  class CounterStore {
    var counters: map<Key, Counter>
    var now: int

    constructor (now: int)
      ensures counters == map[] && this.now == now
    {
      counters, this.now := map[], now;
    }

    method Incr(key: Key, fate: Fate) returns (count: Option<nat>)
      modifies this`counters
      ensures fate.Unsent? ==> counters == old(counters)
      ensures !fate.Unsent? ==> counters == old(counters)[key := Incremented(old(counters), key, now)]
      ensures count == if fate.Replied? then Some(counters[key].count) else None
    {
      if fate.Unsent? {
        return None;
      }
      if key in counters && Alive(counters[key], now) {
        counters := counters[key := Counter(counters[key].count + 1, counters[key].expires)];
      } else {
        counters := counters[key := Counter(1, None)];
      }
      count := if fate.ReplyLost? then None else Some(counters[key].count);
    }

    method Expire(key: Key, seconds: int, fate: Fate) returns (ok: bool)
      modifies this`counters
      ensures ok <==> fate.Replied?
      ensures counters == if fate.Unsent? then old(counters) else WithExpiry(old(counters), key, seconds, now)
    {
      if !fate.Unsent? && key in counters && Alive(counters[key], now) {
        counters := counters[key := Counter(counters[key].count, Some(now + 1000 * seconds))];
      }
      ok := fate.Replied?;
    }
  }

  /** Other requests, between two commands of one request. */
  class OtherRequests {
    const quiet: bool

    constructor (quiet: bool)
      ensures this.quiet == quiet
    {
      this.quiet := quiet;
    }

    method Act(store: CounterStore)
      modifies store
      ensures store.now >= old(store.now)
      ensures quiet ==> store.counters == old(store.counters) && store.now == old(store.now)
    {
    }
  }

  datatype Reason = RateLimitDisabled | RateLimited | Unavailable

  datatype Decision = Decision(allowed: bool, reason: Option<Reason>, limit: int, remaining: int, resetSeconds: int)

  /** What a request is told when its increment made the counter `count`; `failed` means that Redis let it down. */
  function Answer(cfg: LimiterSettings, seconds: int, count: nat, failed: bool): Decision
    requires cfg.windowSeconds > 0
  {
    if failed then Decision(false, Some(Unavailable), cfg.limit, 0, cfg.windowSeconds)
    else Decision(count <= cfg.limit, if count <= cfg.limit then None else Some(RateLimited), cfg.limit,
                  Remaining(cfg.limit, count), ResetSeconds(seconds, cfg.windowSeconds))
  }

  class UploadRateLimiter {
    const cfg: LimiterSettings

    constructor (cfg: LimiterSettings)
      ensures this.cfg == cfg
    {
      this.cfg := cfg;
    }

    /** `counted` is the counter value that Redis answered, if it did. A request passes exactly when Redis answered
        everything it was asked and the value is within the limit; nothing else about the request matters. */
    method CheckUploadAllowed(store: CounterStore, others: OtherRequests, client: string, incr: Fate, expire: Fate)
      returns (decision: Decision, ghost counted: Option<nat>)
      requires cfg.windowSeconds > 0
      modifies store
      ensures !cfg.enabled ==>
        decision == Decision(true, Some(RateLimitDisabled), cfg.limit, cfg.limit, cfg.windowSeconds)
      ensures !cfg.enabled ==> store.counters == old(store.counters)
      ensures cfg.enabled ==> (counted.Some? <==> incr.Replied?)
      ensures cfg.enabled ==>
        decision == match counted
                    case Some(k) => Answer(cfg, Seconds(old(store.now)), k, k == 1 && !expire.Replied?)
                    case None => Answer(cfg, Seconds(old(store.now)), 0, true)
      ensures cfg.enabled && others.quiet ==>
        var now, w := old(store.now) / 1000, cfg.windowSeconds;
        var key := (client, now / w * w);
        var before := old(store.counters);
        var k := if key in before && (before[key].expires.None? || old(store.now) < before[key].expires.value)
                 then before[key].count + 1 else 1;
        decision == if !incr.Replied? || (k == 1 && !expire.Replied?)
                    then Decision(false, Some(Unavailable), cfg.limit, 0, w)
                    else if k > cfg.limit then Decision(false, Some(RateLimited), cfg.limit, 0, now / w * w + w - now)
                    else Decision(true, None, cfg.limit, cfg.limit - k, now / w * w + w - now)
      ensures cfg.enabled && others.quiet && incr.Unsent? ==> store.counters == old(store.counters)
      ensures cfg.enabled && others.quiet && incr.ReplyLost? ==>
        var key := (client, WindowStart(Seconds(old(store.now)), cfg.windowSeconds));
        store.counters == old(store.counters)[key := Incremented(old(store.counters), key, old(store.now))]
      ensures cfg.enabled && others.quiet && incr.Replied? ==>
        var key := (client, WindowStart(Seconds(old(store.now)), cfg.windowSeconds));
        var hit := old(store.counters)[key := Incremented(old(store.counters), key, old(store.now))];
        && counted == Some(hit[key].count)
        && store.counters == if hit[key].count != 1 || expire.Unsent? then hit
                             else hit[key := Counter(1, Some(old(store.now) + 1000 * cfg.windowSeconds))]
    {
      counted := None;
      if !cfg.enabled {
        return Decision(true, Some(RateLimitDisabled), cfg.limit, cfg.limit, cfg.windowSeconds), None;
      }
      var now := store.now / 1000;
      var windowStart := now / cfg.windowSeconds * cfg.windowSeconds;
      var resetSeconds := windowStart + cfg.windowSeconds - now;
      if resetSeconds < 1 {
        resetSeconds := 1;
      }
      var key := (client, windowStart);
      others.Act(store);
      var count := store.Incr(key, incr);
      counted := count;
      if count.None? {
        return Decision(false, Some(Unavailable), cfg.limit, 0, cfg.windowSeconds), counted;
      }
      if count.value == 1 {
        others.Act(store);
        var ok := store.Expire(key, cfg.windowSeconds, expire);
        if !ok {
          return Decision(false, Some(Unavailable), cfg.limit, 0, cfg.windowSeconds), counted;
        }
      }
      if count.value > cfg.limit {
        return Decision(false, Some(RateLimited), cfg.limit, 0, resetSeconds), counted;
      }
      decision := Decision(true, None, cfg.limit, Remaining(cfg.limit, count.value), resetSeconds);
    }
  }
}
