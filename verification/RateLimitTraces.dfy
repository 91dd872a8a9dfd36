/** Every trace of one client's requests against the shared Redis counter. Keys of other clients are other keys, so
    one client's trace is all that its counters see. */
module RateLimitTraces {
  import opened Common
  import opened RateLimiter

  /** `INCR` of a request that read its clock at `clock` runs at `at`; `fate` and `expireFails` are the Redis failures
      it meets. The `EXPIRE` that a first increment owes comes later, after any number of other increments. */
  datatype Event =
    | Increment(clock: int, at: int, fate: Fate, expireFails: bool)
    | SetExpiry(at: int, window: int)

  /** What became of one request. `count` is the counter value after its increment, 0 if Redis never ran it;
      `answered` says whether Redis answered every command of the request. */
  datatype Entry = Entry(clock: int, window: int, count: nat, answered: bool, decision: Decision)

  /** `owed` are the windows whose `EXPIRE` is due; `log` is the history of the requests. */
  datatype State = State(now: int, counters: map<int, Counter>, owed: multiset<int>, log: seq<Entry>)

  function Window(cfg: LimiterSettings, clock: int): int
    requires cfg.windowSeconds > 0
  {
    WindowStart(Seconds(clock), cfg.windowSeconds)
  }

  function Init(now: int): State {
    State(now, map[], multiset{}, [])
  }

  predicate Enabled(s: State, e: Event) {
    s.now <= e.at && if e.Increment? then e.clock <= e.at else e.window in s.owed
  }

  function Logged(cfg: LimiterSettings, clock: int, count: nat, failed: bool): Entry
    requires cfg.windowSeconds > 0
  {
    Entry(clock, Window(cfg, clock), count, !failed, Answer(cfg, Seconds(clock), count, failed))
  }

  function Next(cfg: LimiterSettings, s: State, e: Event): State
    requires cfg.windowSeconds > 0 && Enabled(s, e)
  {
    match e
    case Increment(clock, at, fate, expireFails) =>
      if fate.Unsent? then s.(now := at, log := s.log + [Logged(cfg, clock, 0, true)])
      else
        var window := Window(cfg, clock);
        var counter := Incremented(s.counters, window, at);
        var first := counter.count == 1;
        State(at, s.counters[window := counter],
              if first && fate.Replied? then s.owed + multiset{window} else s.owed,
              s.log + [Logged(cfg, clock, counter.count, fate.ReplyLost? || (first && expireFails))])
    case SetExpiry(at, window) =>
      s.(now := at, owed := s.owed - multiset{window},
         counters := WithExpiry(s.counters, window, cfg.windowSeconds, at))
  }

  ghost predicate Valid(cfg: LimiterSettings, s: State, events: seq<Event>)
    requires cfg.windowSeconds > 0
    decreases |events|
  {
    events == [] || (Enabled(s, events[0]) && Valid(cfg, Next(cfg, s, events[0]), events[1..]))
  }

  ghost function Exec(cfg: LimiterSettings, s: State, events: seq<Event>): State
    requires cfg.windowSeconds > 0 && Valid(cfg, s, events)
    decreases |events|
  {
    if events == [] then s else Exec(cfg, Next(cfg, s, events[0]), events[1..])
  }

  /** The increment finds the counter of its window in Redis, but expired: the count starts again. */
  predicate FindsExpired(cfg: LimiterSettings, s: State, e: Event)
    requires cfg.windowSeconds > 0
  {
    && e.Increment? && !e.fate.Unsent?
    && var window := Window(cfg, e.clock); window in s.counters && !Alive(s.counters[window], e.at)
  }

  ghost predicate SafeRun(cfg: LimiterSettings, s: State, events: seq<Event>)
    requires cfg.windowSeconds > 0 && Valid(cfg, s, events)
    decreases |events|
  {
    events == [] || (!FindsExpired(cfg, s, events[0]) && SafeRun(cfg, Next(cfg, s, events[0]), events[1..]))
  }

  /** The increment reaches Redis before the window that the request read has ended. */
  predicate Prompt(cfg: LimiterSettings, e: Event)
    requires cfg.windowSeconds > 0
  {
    e.Increment? ==> e.at < 1000 * (Window(cfg, e.clock) + cfg.windowSeconds)
  }

  predicate FaultFree(e: Event) {
    e.Increment? ==> e.fate.Replied? && !e.expireFails
  }

  // Counting the log

  ghost function Count(log: seq<Entry>, counts: Entry -> bool): nat {
    if log == [] then 0 else Count(log[..|log| - 1], counts) + if counts(log[|log| - 1]) then 1 else 0
  }

  lemma CountAppends(log: seq<Entry>, e: Entry, counts: Entry -> bool)
    ensures Count(log + [e], counts) == Count(log, counts) + if counts(e) then 1 else 0
  {
    assert (log + [e])[..|log|] == log;
  }

  ghost function Counted(window: int): Entry -> bool {
    (e: Entry) => e.window == window && e.count > 0
  }

  ghost function Allowed(window: int): Entry -> bool {
    (e: Entry) => e.window == window && e.decision.allowed
  }

  ghost function Requested(window: int): Entry -> bool {
    (e: Entry) => e.window == window
  }

  ghost function AllowedWithin(from: int, until: int): Entry -> bool {
    (e: Entry) => from <= e.clock < until && e.decision.allowed
  }

  ghost function AtMostLimit(cfg: LimiterSettings, n: nat): nat {
    if cfg.limit <= 0 then 0 else if n < cfg.limit then n else cfg.limit
  }

  // The counter agrees with the log

  /** A counter never expires inside its window: its `EXPIRE` runs no earlier than the window starts. */
  ghost predicate OutlivesWindow(cfg: LimiterSettings, window: int, counter: Counter) {
    counter.expires.Some? ==> counter.expires.value >= 1000 * (window + cfg.windowSeconds)
  }

  /** No expiry is set before the window starts, so none comes before it ends. */
  ghost predicate ExpiriesOk(cfg: LimiterSettings, s: State) {
    && (forall window <- s.owed :: 1000 * window <= s.now)
    && (forall window <- s.counters :: OutlivesWindow(cfg, window, s.counters[window]))
  }

  /** The counter of a window is the number of increments logged for it, expired or not. */
  ghost predicate CounterFits(s: State, window: int) {
    Count(s.log, Counted(window)) == if window in s.counters then s.counters[window].count else 0
  }

  /** A counter value is the rank of its increment; a request passes exactly when Redis answered it and fewer than
      `limit` increments of its window had come before. */
  ghost predicate EntryOk(cfg: LimiterSettings, log: seq<Entry>, k: nat)
    requires k < |log| && cfg.windowSeconds > 0
  {
    var e, earlier := log[k], Count(log[..k], Counted(log[k].window));
    && e.window == Window(cfg, e.clock)
    && (e.count > 0 ==> e.count == earlier + 1)
    && (e.answered ==> e.count > 0)
    && (e.decision.allowed <==> e.answered && earlier < cfg.limit)
  }

  ghost predicate Inv(cfg: LimiterSettings, s: State)
    requires cfg.windowSeconds > 0
  {
    && (forall window <- s.counters :: s.counters[window].count > 0)
    && (forall window: int :: CounterFits(s, window))
    && (forall k | 0 <= k < |s.log| :: EntryOk(cfg, s.log, k))
  }

  lemma WindowBounds(cfg: LimiterSettings, clock: int)
    requires cfg.windowSeconds > 0
    ensures 1000 * Window(cfg, clock) <= clock < 1000 * (Window(cfg, clock) + cfg.windowSeconds)
    ensures Window(cfg, clock) % cfg.windowSeconds == 0
  {
    QuotientIs(Seconds(clock) / cfg.windowSeconds, cfg.windowSeconds, 0);
  }

  lemma LogAppends(cfg: LimiterSettings, log: seq<Entry>, e: Entry)
    requires cfg.windowSeconds > 0 && (forall k | 0 <= k < |log| :: EntryOk(cfg, log, k))
    requires EntryOk(cfg, log + [e], |log|)
    ensures forall k | 0 <= k < |log + [e]| :: EntryOk(cfg, log + [e], k)
  {
    forall k | 0 <= k < |log| ensures EntryOk(cfg, log + [e], k) {
      assert (log + [e])[..k] == log[..k] && EntryOk(cfg, log, k);
    }
  }

  lemma IncrementKeepsInv(cfg: LimiterSettings, s: State, e: Event)
    requires cfg.windowSeconds > 0 && Inv(cfg, s) && e.Increment? && Enabled(s, e) && !FindsExpired(cfg, s, e)
    ensures Inv(cfg, Next(cfg, s, e))
  {
    var s', window := Next(cfg, s, e), Window(cfg, e.clock);
    var entry := s'.log[|s.log|];
    assert CounterFits(s, window) && (s.log + [entry])[..|s.log|] == s.log;
    LogAppends(cfg, s.log, entry);
    forall other: int ensures CounterFits(s', other) {
      assert CounterFits(s, other);
      CountAppends(s.log, entry, Counted(other));
    }
  }

  lemma NextKeepsInv(cfg: LimiterSettings, s: State, e: Event)
    requires cfg.windowSeconds > 0 && Inv(cfg, s) && Enabled(s, e) && !FindsExpired(cfg, s, e)
    ensures Inv(cfg, Next(cfg, s, e))
  {
    if e.Increment? {
      IncrementKeepsInv(cfg, s, e);
    } else {
      assert forall window: int :: CounterFits(s, window) ==> CounterFits(Next(cfg, s, e), window);
    }
  }

  /** As long as no increment finds its counter expired, the counters agree with the log. */
  lemma {:induction false} ExecKeepsInv(cfg: LimiterSettings, s: State, events: seq<Event>)
    requires cfg.windowSeconds > 0 && Valid(cfg, s, events) && Inv(cfg, s) && SafeRun(cfg, s, events)
    ensures Inv(cfg, Exec(cfg, s, events))
    decreases |events|
  {
    if events != [] {
      NextKeepsInv(cfg, s, events[0]);
      ExecKeepsInv(cfg, Next(cfg, s, events[0]), events[1..]);
    }
  }

  // Prompt requests never find their counter expired

  lemma NextKeepsExpiries(cfg: LimiterSettings, s: State, e: Event)
    requires cfg.windowSeconds > 0 && ExpiriesOk(cfg, s) && Enabled(s, e)
    ensures ExpiriesOk(cfg, Next(cfg, s, e))
  {
    if e.Increment? {
      WindowBounds(cfg, e.clock);
    }
  }

  /** A run of prompt increments is safe, because a counter outlives its window. */
  lemma {:induction false} PromptRunIsSafe(cfg: LimiterSettings, s: State, events: seq<Event>)
    requires cfg.windowSeconds > 0 && Valid(cfg, s, events) && ExpiriesOk(cfg, s)
    requires forall e <- events :: Prompt(cfg, e)
    ensures SafeRun(cfg, s, events)
    decreases |events|
  {
    if events != [] {
      assert Prompt(cfg, events[0]);
      NextKeepsExpiries(cfg, s, events[0]);
      PromptRunIsSafe(cfg, Next(cfg, s, events[0]), events[1..]);
    }
  }
}
