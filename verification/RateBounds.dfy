/** What the fixed-window counter guarantees over whole traces. */
module RateBounds {
  import opened Common
  import opened RateLimiter
  import opened RateLimitTraces

  ghost predicate LogOk(cfg: LimiterSettings, log: seq<Entry>)
    requires cfg.windowSeconds > 0
  {
    forall k | 0 <= k < |log| :: EntryOk(cfg, log, k)
  }

  lemma PrefixOk(cfg: LimiterSettings, log: seq<Entry>, n: nat)
    requires cfg.windowSeconds > 0 && LogOk(cfg, log) && n <= |log|
    ensures LogOk(cfg, log[..n])
  {
    forall k | 0 <= k < n ensures EntryOk(cfg, log[..n], k) {
      assert log[..n][..k] == log[..k];
      assert EntryOk(cfg, log, k);
    }
  }

  lemma RunLogOk(cfg: LimiterSettings, start: int, events: seq<Event>)
    requires cfg.windowSeconds > 0 && Valid(cfg, Init(start), events) && SafeRun(cfg, Init(start), events)
    ensures LogOk(cfg, Exec(cfg, Init(start), events).log)
  {
    ExecKeepsInv(cfg, Init(start), events);
  }

  // Refinement: without Redis failures the limiter is a plain count of the requests

  /** The answer a client gets to the k-th request of its window. */
  ghost predicate AnswersRank(cfg: LimiterSettings, log: seq<Entry>, k: nat)
    requires k < |log| && cfg.windowSeconds > 0
  {
    var e, rank := log[k], Count(log[..k], Requested(log[k].window)) + 1;
    && (e.decision.allowed <==> rank <= cfg.limit)
    && e.decision.remaining == Remaining(cfg.limit, rank)
    && 1 <= e.decision.resetSeconds <= cfg.windowSeconds
    && Seconds(e.clock) + e.decision.resetSeconds == e.window + cfg.windowSeconds
  }

  ghost predicate Answered(cfg: LimiterSettings, e: Entry)
    requires cfg.windowSeconds > 0
  {
    e.count > 0 && e == Logged(cfg, e.clock, e.count, false)
  }

  lemma {:induction false} FaultFreeAnswers(cfg: LimiterSettings, s: State, events: seq<Event>)
    requires cfg.windowSeconds > 0 && Valid(cfg, s, events) && (forall e <- events :: FaultFree(e))
    requires forall e <- s.log :: Answered(cfg, e)
    requires forall window <- s.counters :: s.counters[window].count > 0
    ensures forall e <- Exec(cfg, s, events).log :: Answered(cfg, e)
    decreases |events|
  {
    if events != [] {
      assert FaultFree(events[0]);
      FaultFreeAnswers(cfg, Next(cfg, s, events[0]), events[1..]);
    }
  }

  lemma {:induction false} EveryRequestCounts(cfg: LimiterSettings, log: seq<Entry>, window: int)
    requires cfg.windowSeconds > 0 && forall e <- log :: Answered(cfg, e)
    ensures Count(log, Counted(window)) == Count(log, Requested(window))
  {
    if log != [] {
      EveryRequestCounts(cfg, log[..|log| - 1], window);
      assert Answered(cfg, log[|log| - 1]);
    }
  }

  /** The k-th request of a window is allowed if and only if k <= limit, is told `max(0, limit - k)`, and is told to
      come back exactly at the next window. */
  lemma CounterRefinesLog(cfg: LimiterSettings, start: int, events: seq<Event>, k: nat)
    requires cfg.windowSeconds > 0 && Valid(cfg, Init(start), events) && SafeRun(cfg, Init(start), events)
    requires forall e <- events :: FaultFree(e)
    requires k < |Exec(cfg, Init(start), events).log|
    ensures AnswersRank(cfg, Exec(cfg, Init(start), events).log, k)
  {
    var log := Exec(cfg, Init(start), events).log;
    RunLogOk(cfg, start, events);
    FaultFreeAnswers(cfg, Init(start), events);
    assert EntryOk(cfg, log, k) && Answered(cfg, log[k]);
    EveryRequestCounts(cfg, log[..k], log[k].window);
    ResetIsTheNextBoundary(Seconds(log[k].clock), cfg.windowSeconds);
    WindowBounds(cfg, log[k].clock);
  }

  lemma {:induction false} LogGrows(cfg: LimiterSettings, s: State, events: seq<Event>)
    requires cfg.windowSeconds > 0 && Valid(cfg, s, events)
    ensures s.log <= Exec(cfg, s, events).log
    decreases |events|
  {
    if events != [] {
      LogGrows(cfg, Next(cfg, s, events[0]), events[1..]);
    }
  }

  /** Every counter was set by a request of its window. */
  ghost predicate Seen(s: State) {
    forall window <- s.counters :: Count(s.log, Requested(window)) > 0
  }

  lemma NextKeepsSeen(cfg: LimiterSettings, s: State, e: Event)
    requires cfg.windowSeconds > 0 && Enabled(s, e) && Seen(s)
    ensures Seen(Next(cfg, s, e))
  {
    if e.Increment? {
      var entry := Next(cfg, s, e).log[|s.log|];
      forall window <- Next(cfg, s, e).counters ensures Count(Next(cfg, s, e).log, Requested(window)) > 0 {
        CountAppends(s.log, entry, Requested(window));
      }
    }
  }

  /** A request that restarts the count of its window is answered as if it were the first one. */
  lemma RestartIsWrong(cfg: LimiterSettings, s: State, e: Event)
    requires cfg.windowSeconds > 0 && cfg.limit >= 1 && Enabled(s, e) && Seen(s) && FaultFree(e)
    requires FindsExpired(cfg, s, e)
    ensures |Next(cfg, s, e).log| == |s.log| + 1 && !AnswersRank(cfg, Next(cfg, s, e).log, |s.log|)
  {
    var log := Next(cfg, s, e).log;
    assert log[..|s.log|] == s.log;
    assert Count(s.log, Requested(Window(cfg, e.clock))) > 0;
  }

  lemma {:induction false} UnsafeRunAnswersWrongly(cfg: LimiterSettings, s: State, events: seq<Event>) returns (k: nat)
    requires cfg.windowSeconds > 0 && cfg.limit >= 1 && Valid(cfg, s, events) && Seen(s)
    requires (forall e <- events :: FaultFree(e)) && !SafeRun(cfg, s, events)
    ensures k < |Exec(cfg, s, events).log| && !AnswersRank(cfg, Exec(cfg, s, events).log, k)
    decreases |events|
  {
    var next, log := Next(cfg, s, events[0]), Exec(cfg, s, events).log;
    assert FaultFree(events[0]);
    if FindsExpired(cfg, s, events[0]) {
      RestartIsWrong(cfg, s, events[0]);
      LogGrows(cfg, next, events[1..]);
      k := |s.log|;
      assert log[..k] == next.log[..k] && log[k] == next.log[k];
    } else {
      NextKeepsSeen(cfg, s, events[0]);
      k := UnsafeRunAnswersWrongly(cfg, next, events[1..]);
    }
  }

  /** Exactly when the limiter is a plain count of the requests: for a positive limit and without Redis failures, every
      answer follows from the rank of its request if and only if no increment finds the counter of its window
      expired. */
  lemma CounterRefinesLogIffSafe(cfg: LimiterSettings, start: int, events: seq<Event>)
    requires cfg.windowSeconds > 0 && cfg.limit >= 1 && Valid(cfg, Init(start), events)
    requires forall e <- events :: FaultFree(e)
    ensures var log := Exec(cfg, Init(start), events).log;
            (forall k | 0 <= k < |log| :: AnswersRank(cfg, log, k)) <==> SafeRun(cfg, Init(start), events)
  {
    var log := Exec(cfg, Init(start), events).log;
    if SafeRun(cfg, Init(start), events) {
      forall k | 0 <= k < |log| ensures AnswersRank(cfg, log, k) {
        CounterRefinesLog(cfg, start, events, k);
      }
    } else {
      var k := UnsafeRunAnswersWrongly(cfg, Init(start), events);
    }
  }

  /** With failures, request by request: it passes if and only if Redis answered its commands and fewer than `limit`
      increments of its window had reached Redis before. */
  lemma RequestPassesIff(cfg: LimiterSettings, start: int, events: seq<Event>, k: nat)
    requires cfg.windowSeconds > 0 && Valid(cfg, Init(start), events) && SafeRun(cfg, Init(start), events)
    requires k < |Exec(cfg, Init(start), events).log|
    ensures var log := Exec(cfg, Init(start), events).log;
            log[k].decision.allowed <==> log[k].answered && Count(log[..k], Counted(log[k].window)) < cfg.limit
  {
    RunLogOk(cfg, start, events);
    assert EntryOk(cfg, Exec(cfg, Init(start), events).log, k);
  }

  // At most `limit` per window

  lemma {:induction false} AllowedAreCounted(cfg: LimiterSettings, log: seq<Entry>, window: int)
    requires cfg.windowSeconds > 0 && LogOk(cfg, log)
    ensures Count(log, Allowed(window)) <= AtMostLimit(cfg, Count(log, Counted(window)))
    ensures Count(log, Counted(window)) <= Count(log, Requested(window))
  {
    if log != [] {
      PrefixOk(cfg, log, |log| - 1);
      AllowedAreCounted(cfg, log[..|log| - 1], window);
      assert EntryOk(cfg, log, |log| - 1);
    }
  }

  lemma {:induction false} AllowedWithoutFaults(cfg: LimiterSettings, log: seq<Entry>, window: int)
    requires cfg.windowSeconds > 0 && LogOk(cfg, log) && forall e <- log :: Answered(cfg, e)
    ensures Count(log, Allowed(window)) == AtMostLimit(cfg, Count(log, Requested(window)))
  {
    if log != [] {
      PrefixOk(cfg, log, |log| - 1);
      AllowedWithoutFaults(cfg, log[..|log| - 1], window);
      EveryRequestCounts(cfg, log[..|log| - 1], window);
      assert EntryOk(cfg, log, |log| - 1) && Answered(cfg, log[|log| - 1]);
    }
  }

  /** Whatever Redis failures a trace meets, at most `limit` requests of one window pass. */
  lemma WindowBound(cfg: LimiterSettings, start: int, events: seq<Event>, window: int)
    requires cfg.windowSeconds > 0 && Valid(cfg, Init(start), events) && SafeRun(cfg, Init(start), events)
    ensures var log := Exec(cfg, Init(start), events).log;
            Count(log, Allowed(window)) <= AtMostLimit(cfg, Count(log, Requested(window)))
  {
    RunLogOk(cfg, start, events);
    AllowedAreCounted(cfg, Exec(cfg, Init(start), events).log, window);
  }

  /** Compared with a failure-free trace that has as many requests in the window, a trace with failures never lets
      more of them pass. */
  lemma FailuresAllowFewer(cfg: LimiterSettings, start: int, failing: seq<Event>, healthy: seq<Event>, window: int)
    requires cfg.windowSeconds > 0 && Valid(cfg, Init(start), failing) && Valid(cfg, Init(start), healthy)
    requires SafeRun(cfg, Init(start), failing) && SafeRun(cfg, Init(start), healthy)
    requires forall e <- healthy :: FaultFree(e)
    requires Count(Exec(cfg, Init(start), failing).log, Requested(window))
             <= Count(Exec(cfg, Init(start), healthy).log, Requested(window))
    ensures Count(Exec(cfg, Init(start), failing).log, Allowed(window))
            <= Count(Exec(cfg, Init(start), healthy).log, Allowed(window))
  {
    WindowBound(cfg, start, failing, window);
    RunLogOk(cfg, start, healthy);
    FaultFreeAnswers(cfg, Init(start), healthy);
    AllowedWithoutFaults(cfg, Exec(cfg, Init(start), healthy).log, window);
  }

  // Any interval

  lemma {:induction false} CountSplits(log: seq<Entry>, from: int, middle: int, until: int)
    requires from <= middle <= until
    ensures Count(log, AllowedWithin(from, until))
            == Count(log, AllowedWithin(from, middle)) + Count(log, AllowedWithin(middle, until))
  {
    if log != [] {
      CountSplits(log[..|log| - 1], from, middle, until);
    }
  }

  lemma {:induction false} OneWindow(cfg: LimiterSettings, log: seq<Entry>, window: int, from: int, until: int)
    requires cfg.windowSeconds > 0 && LogOk(cfg, log) && window % cfg.windowSeconds == 0
    requires 1000 * window <= from && until <= 1000 * (window + cfg.windowSeconds)
    ensures Count(log, AllowedWithin(from, until)) <= Count(log, Allowed(window))
  {
    if log != [] {
      PrefixOk(cfg, log, |log| - 1);
      OneWindow(cfg, log[..|log| - 1], window, from, until);
      var e := log[|log| - 1];
      assert EntryOk(cfg, log, |log| - 1);
      if from <= e.clock < until {
        SameWindow(cfg, e.clock, window);
      }
    }
  }

  lemma SameWindow(cfg: LimiterSettings, clock: int, window: int)
    requires cfg.windowSeconds > 0 && window % cfg.windowSeconds == 0
    requires 1000 * window <= clock < 1000 * (window + cfg.windowSeconds)
    ensures Window(cfg, clock) == window
  {
    var w := cfg.windowSeconds;
    assert window == window / w * w;
    QuotientIs(window / w, w, Seconds(clock) - window);
  }

  ghost function Limit(cfg: LimiterSettings): nat {
    if cfg.limit > 0 then cfg.limit else 0
  }

  lemma NextWindow(cfg: LimiterSettings, window: int)
    requires cfg.windowSeconds > 0 && window % cfg.windowSeconds == 0
    ensures (window + cfg.windowSeconds) % cfg.windowSeconds == 0
  {
    var w, q := cfg.windowSeconds, window / cfg.windowSeconds;
    assert window == q * w;
    assert (q + 1) * w == q * w + w;
    QuotientIs(q + 1, w, 0);
  }

  /** From a window boundary on, the first window lets at most `limit` requests pass. */
  lemma FirstWindow(cfg: LimiterSettings, log: seq<Entry>, window: int, until: int)
    requires cfg.windowSeconds > 0 && LogOk(cfg, log) && window % cfg.windowSeconds == 0 && 1000 * window <= until
    ensures var next := 1000 * (window + cfg.windowSeconds);
            Count(log, AllowedWithin(1000 * window, until))
            <= Limit(cfg) + if until <= next then 0 else Count(log, AllowedWithin(next, until))
  {
    var next := 1000 * (window + cfg.windowSeconds);
    var end := if until <= next then until else next;
    OneWindow(cfg, log, window, 1000 * window, end);
    AllowedAreCounted(cfg, log, window);
    CountSplits(log, 1000 * window, end, until);
    if end == until {
      NothingWithin(log, end, until);
    }
  }

  lemma OneMore(n: nat, size: nat)
    requires n > 0
    ensures n * size == (n - 1) * size + size && (n - 1) * size >= 0
  {
  }

  /** From a window boundary on, `n` windows let at most `n * limit` requests pass. */
  lemma {:induction false} AlignedBound(cfg: LimiterSettings, log: seq<Entry>, window: int, until: int, n: nat)
    requires cfg.windowSeconds > 0 && LogOk(cfg, log) && window % cfg.windowSeconds == 0
    requires 1000 * window <= until <= 1000 * (window + n * cfg.windowSeconds)
    ensures Count(log, AllowedWithin(1000 * window, until)) <= n * Limit(cfg)
    decreases n
  {
    if n == 0 {
      NothingWithin(log, 1000 * window, until);
    } else {
      OneMore(n, cfg.windowSeconds);
      OneMore(n, Limit(cfg));
      FirstWindow(cfg, log, window, until);
      if until > 1000 * (window + cfg.windowSeconds) {
        NextWindow(cfg, window);
        AlignedBound(cfg, log, window + cfg.windowSeconds, until, n - 1);
      }
    }
  }

  lemma {:induction false} NothingWithin(log: seq<Entry>, from: int, until: int)
    requires until <= from
    ensures Count(log, AllowedWithin(from, until)) == 0
  {
    if log != [] {
      NothingWithin(log[..|log| - 1], from, until);
    }
  }

  ghost function CeilDiv(length: nat, size: int): (n: nat)
    requires size > 0
    ensures (n - 1) * size < length <= n * size
  {
    if length == 0 then 0
    else
      assert (length - 1) / size * size <= length - 1;
      assert ((length - 1) / size + 1) * size == (length - 1) / size * size + size;
      (length - 1) / size + 1
  }

  /** The requests that pass before the next boundary fit into one window; `rest` bounds the later ones. */
  lemma FirstStretch(cfg: LimiterSettings, log: seq<Entry>, window: int, from: int, until: int, rest: nat)
    requires cfg.windowSeconds > 0 && LogOk(cfg, log) && window % cfg.windowSeconds == 0
    requires 1000 * window <= from < 1000 * (window + cfg.windowSeconds)
    requires until > 1000 * (window + cfg.windowSeconds) ==>
      Count(log, AllowedWithin(1000 * (window + cfg.windowSeconds), until)) <= rest
    ensures Count(log, AllowedWithin(from, until)) <= Limit(cfg) + rest
  {
    var next := 1000 * (window + cfg.windowSeconds);
    AllowedAreCounted(cfg, log, window);
    OneWindow(cfg, log, window, from, if until <= next then until else next);
    if until > next {
      CountSplits(log, from, next, until);
    }
  }

  lemma IntervalOfWindows(cfg: LimiterSettings, log: seq<Entry>, from: int, until: int, n: nat)
    requires cfg.windowSeconds > 0 && LogOk(cfg, log)
    requires from <= until <= from + 1000 * (n * cfg.windowSeconds)
    ensures Count(log, AllowedWithin(from, until)) <= n * Limit(cfg) + Limit(cfg)
  {
    var window := Window(cfg, from);
    var next := window + cfg.windowSeconds;
    WindowBounds(cfg, from);
    NextWindow(cfg, window);
    if until > 1000 * next {
      AlignedBound(cfg, log, next, until, n);
    }
    FirstStretch(cfg, log, window, from, until, n * Limit(cfg));
  }

  /** In every interval of `length` milliseconds, aligned or not, at most (ceil(length / w) + 1) * limit requests of a
      client pass. */
  lemma IntervalBound(cfg: LimiterSettings, start: int, events: seq<Event>, from: int, length: nat)
    requires cfg.windowSeconds > 0 && Valid(cfg, Init(start), events) && SafeRun(cfg, Init(start), events)
    ensures Count(Exec(cfg, Init(start), events).log, AllowedWithin(from, from + length))
            <= (CeilDiv(length, 1000 * cfg.windowSeconds) + 1) * Limit(cfg)
  {
    var n := CeilDiv(length, 1000 * cfg.windowSeconds);
    RunLogOk(cfg, start, events);
    assert n * (1000 * cfg.windowSeconds) == 1000 * (n * cfg.windowSeconds);
    IntervalOfWindows(cfg, Exec(cfg, Init(start), events).log, from, from + length, n);
    assert (n + 1) * Limit(cfg) == n * Limit(cfg) + Limit(cfg);
  }

  // Why the hypotheses are there

  /** A request that takes no time between its clock reading and its increment is prompt. */
  lemma InstantRequestsArePrompt(cfg: LimiterSettings, e: Event)
    requires cfg.windowSeconds > 0 && (e.Increment? ==> e.at == e.clock)
    ensures Prompt(cfg, e)
  {
    if e.Increment? {
      WindowBounds(cfg, e.clock);
    }
  }

  lemma ExecUnfolds(cfg: LimiterSettings, s: State, e: Event, events: seq<Event>)
    requires cfg.windowSeconds > 0 && Enabled(s, e) && Valid(cfg, Next(cfg, s, e), events)
    ensures Valid(cfg, s, [e] + events) && Exec(cfg, s, [e] + events) == Exec(cfg, Next(cfg, s, e), events)
  {
    assert ([e] + events)[1..] == events;
  }

  /** A request that stalls between its clock reading and its increment until the counter has expired starts the
      window's count again: with a limit of one, two requests of one window pass. */
  lemma StalledRequestEscapes() returns (cfg: LimiterSettings, events: seq<Event>)
    ensures cfg.windowSeconds > 0 && cfg.limit == 1 && Valid(cfg, Init(0), events)
    ensures forall e <- events :: FaultFree(e)
    ensures Count(Exec(cfg, Init(0), events).log, Allowed(0)) == 2
  {
    cfg := LimiterSettings(true, 1, 1);
    assert Window(cfg, 0) == 0;
    var first, expiry := Increment(0, 0, Replied, false), SetExpiry(0, 0);
    var stalled := Increment(0, 1000, Replied, false);
    var s1 := Next(cfg, Init(0), first);
    var s2 := Next(cfg, s1, expiry);
    var s3 := Next(cfg, s2, stalled);
    ExecUnfolds(cfg, s2, stalled, []);
    ExecUnfolds(cfg, s1, expiry, [stalled]);
    ExecUnfolds(cfg, Init(0), first, [expiry] + [stalled]);
    events := [first] + ([expiry] + [stalled]);
    CountAppends([], s1.log[0], Allowed(0));
    CountAppends(s1.log, s3.log[1], Allowed(0));
    assert s3.log == s1.log + [s3.log[1]];
  }

  /** Failures allow fewer requests in all, but not request by request: a failed first request leaves its slot to the
      second one, which a healthy Redis would have turned away. */
  lemma FailureFreesASlot() returns (cfg: LimiterSettings, failing: seq<Event>, healthy: seq<Event>)
    ensures cfg.windowSeconds > 0 && Valid(cfg, Init(0), failing) && Valid(cfg, Init(0), healthy)
    ensures var f, h := Exec(cfg, Init(0), failing).log, Exec(cfg, Init(0), healthy).log;
            |f| == |h| == 2 && f[1].clock == h[1].clock && f[1].decision.allowed && !h[1].decision.allowed
  {
    cfg := LimiterSettings(true, 1, 60);
    var lost, first, second :=
      Increment(0, 0, Unsent, false), Increment(0, 0, Replied, false), Increment(1, 1, Replied, false);
    var f, h := Next(cfg, Init(0), lost), Next(cfg, Init(0), first);
    ExecUnfolds(cfg, f, second, []);
    ExecUnfolds(cfg, Init(0), lost, [second]);
    ExecUnfolds(cfg, h, second, []);
    ExecUnfolds(cfg, Init(0), first, [second]);
    failing, healthy := [lost] + [second], [first] + [second];
  }
}
