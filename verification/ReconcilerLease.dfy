/** Any number of reconcilers around one Redis key: every interleaving of their commands, with crashes, lost replies,
    overrunning passes and expiries. Times are in milliseconds. */
module ReconcilerLease {
  import opened Common
  import opened RedisLock

  datatype LeaseSettings = LeaseSettings(ttlSeconds: int, intervalSeconds: int, oneshot: bool)

  /** The window of `_hold_lock_for_interval`, counted from the start of the run. */
  function HoldMillis(cfg: LeaseSettings): int {
    var ttlBound := if cfg.ttlSeconds - 1 > 0 then cfg.ttlSeconds - 1 else 0;
    1000 * if cfg.intervalSeconds < ttlBound then cfg.intervalSeconds else ttlBound
  }

  function TtlMillis(cfg: LeaseSettings): int {
    1000 * cfg.ttlSeconds
  }

  /** `Working` is the stretch inside `recover_stuck_jobs`. `Released` means that the release script was run. */
  datatype Phase = Trying | Working | Holding | Released(at: int, own: bool) | Over

  /** One `run_once`; `acquired` is when Redis granted it the key. Its index is its token. */
  datatype Run = Run(start: int, acquired: Option<int>, phase: Phase)

  /** `grants` are the runs in the order in which Redis granted them the key. */
  datatype State = State(cfg: LeaseSettings, now: int, key: Option<Lease>, runs: seq<Run>, grants: seq<nat>)

  datatype Action =
    | Tick(elapsed: nat)
    | Begin
    | Try(r: nat, fate: Fate)
    | GiveUp(r: nat)
    | PassEnds(r: nat)
    | Release(r: nat, fate: Fate)
    | Crash(r: nat)

  function Init(cfg: LeaseSettings, now: int): State {
    State(cfg, now, None, [], [])
  }

  predicate Enabled(s: State, a: Action) {
    match a
    case Tick(_) => true
    case Begin => true
    case Try(r, _) => r < |s.runs| && s.runs[r].phase.Trying?
    case GiveUp(r) => r < |s.runs| && s.runs[r].phase.Trying?
    case PassEnds(r) => r < |s.runs| && s.runs[r].phase.Working?
    case Release(r, _) =>
      && r < |s.runs| && s.runs[r].phase.Holding?
      && (s.cfg.oneshot || s.now >= s.runs[r].start + HoldMillis(s.cfg))
    case Crash(r) => r < |s.runs| && !s.runs[r].phase.Released?
  }

  function WithRun(s: State, r: nat, run: Run): State
    requires r < |s.runs|
  {
    s.(runs := s.runs[r := run])
  }

  function Next(s: State, a: Action): State
    requires Enabled(s, a)
  {
    match a
    case Tick(elapsed) => s.(now := s.now + elapsed)
    case Begin => s.(runs := s.runs + [Run(s.now, None, Trying)])
    case Try(r, fate) =>
      if fate.Unsent? || s.cfg.ttlSeconds <= 0 then WithRun(s, r, s.runs[r].(phase := Over))
      else if Live(s.key, s.now) then WithRun(s, r, s.runs[r].(phase := if fate.Replied? then Trying else Over))
      else
        var phase := if fate.Replied? then Working else Over;
        WithRun(s, r, Run(s.runs[r].start, Some(s.now), phase))
          .(key := SetIfFree(s.key, r, s.cfg.ttlSeconds, s.now), grants := s.grants + [r])
    case GiveUp(r) => WithRun(s, r, s.runs[r].(phase := Over))
    case PassEnds(r) => WithRun(s, r, s.runs[r].(phase := Holding))
    case Release(r, fate) =>
      if fate.Unsent? then WithRun(s, r, s.runs[r].(phase := Over))
      else
        var own := Live(s.key, s.now) && Owns(s.key, r);
        WithRun(s, r, s.runs[r].(phase := Released(s.now, own))).(key := CompareAndDelete(s.key, r, s.now))
    case Crash(r) => WithRun(s, r, s.runs[r].(phase := Over))
  }

  ghost predicate Valid(s: State, actions: seq<Action>)
    decreases |actions|
  {
    actions == [] || (Enabled(s, actions[0]) && Valid(Next(s, actions[0]), actions[1..]))
  }

  ghost function Exec(s: State, actions: seq<Action>): State
    requires Valid(s, actions)
    decreases |actions|
  {
    if actions == [] then s else Exec(Next(s, actions[0]), actions[1..])
  }

  // The invariant

  /** A granted lease is still in Redis, or has run out, or was removed by its own holder. */
  ghost predicate RunOk(s: State, r: nat)
    requires r < |s.runs|
  {
    var run := s.runs[r];
    && run.start <= s.now
    && (run.acquired.None? ==> run.phase.Trying? || run.phase.Over?)
    && (run.phase.Trying? ==> run.acquired.None?)
    && (run.acquired.Some? ==>
          && s.cfg.ttlSeconds > 0 && run.start <= run.acquired.value <= s.now && r in s.grants
          && (s.key == Some(Lease(r, run.acquired.value + TtlMillis(s.cfg)))
              || s.now >= run.acquired.value + TtlMillis(s.cfg) || run.phase.Released?))
    && (run.phase.Released? ==>
          && run.phase.at <= s.now
          && (s.cfg.oneshot || run.phase.at >= run.start + HoldMillis(s.cfg)))
  }

  /** `later` was granted the key after the lease of `earlier` had run out or had been released. */
  predicate Succeeds(cfg: LeaseSettings, earlier: Run, later: Run) {
    && earlier.acquired.Some? && later.acquired.Some?
    && (later.acquired.value >= earlier.acquired.value + TtlMillis(cfg)
        || (earlier.phase.Released? && later.acquired.value >= earlier.phase.at))
  }

  ghost predicate GrantsOk(s: State) {
    && (forall i | 0 <= i < |s.grants| :: s.grants[i] < |s.runs| && s.runs[s.grants[i]].acquired.Some?)
    && (forall i, j | 0 <= i < j < |s.grants| ::
          s.grants[i] != s.grants[j] && Succeeds(s.cfg, s.runs[s.grants[i]], s.runs[s.grants[j]]))
  }

  ghost predicate Inv(s: State) {
    && (s.key.Some? ==>
          && s.key.value.token < |s.runs|
          && s.runs[s.key.value.token].acquired == Some(s.key.value.expires - TtlMillis(s.cfg)))
    && (forall r | 0 <= r < |s.runs| :: RunOk(s, r))
    && GrantsOk(s)
  }

  lemma GrantKeepsInv(s: State, r: nat, fate: Fate)
    requires Inv(s) && Enabled(s, Try(r, fate))
    ensures Inv(Next(s, Try(r, fate)))
  {
    var s' := Next(s, Try(r, fate));
    assert RunOk(s, r);
    if s'.grants != s.grants {
      forall i | 0 <= i < |s.grants| ensures s.grants[i] != r && Succeeds(s'.cfg, s.runs[s.grants[i]], s'.runs[r]) {
        assert RunOk(s, s.grants[i]);
      }
      forall k | 0 <= k < |s'.runs| ensures RunOk(s', k) {
        assert RunOk(s, k);
        assert k == r ==> s'.grants[|s.grants|] == r;
      }
    } else {
      assert forall k | 0 <= k < |s'.runs| :: RunOk(s, k) ==> RunOk(s', k);
    }
  }

  /** Nothing but a grant adds to the grants, and a release cannot undo what they have in order. */
  lemma GrantsStay(s: State, s': State)
    requires GrantsOk(s) && s'.grants == s.grants && s'.cfg == s.cfg && |s.runs| <= |s'.runs|
    requires forall r | 0 <= r < |s.runs| :: s'.runs[r].acquired == s.runs[r].acquired
    requires forall r | 0 <= r < |s.runs| && s.runs[r].phase.Released? :: s'.runs[r].phase == s.runs[r].phase
    ensures GrantsOk(s')
  {
  }

  lemma NextKeepsInv(s: State, a: Action)
    requires Inv(s) && Enabled(s, a)
    ensures Inv(Next(s, a))
  {
    if a.Try? {
      GrantKeepsInv(s, a.r, a.fate);
    } else {
      var s' := Next(s, a);
      GrantsStay(s, s');
      forall k | 0 <= k < |s'.runs| ensures RunOk(s', k) {
        assert k < |s.runs| ==> RunOk(s, k);
      }
    }
  }

  lemma {:induction false} ExecKeepsInv(s: State, actions: seq<Action>)
    requires Valid(s, actions) && Inv(s)
    ensures Inv(Exec(s, actions)) && Exec(s, actions).cfg == s.cfg
    decreases |actions|
  {
    if actions != [] {
      NextKeepsInv(s, actions[0]);
      ExecKeepsInv(Next(s, actions[0]), actions[1..]);
    }
  }

  // Fencing

  /** While its lease lives, the key of one holder is changed by nothing but that holder's own release. This is what
      a lock object may rely on between its own commands. */
  lemma LeaseIsFenced(s: State, a: Action, token: Token)
    requires Inv(s) && Enabled(s, a) && a != Release(token, Replied) && a != Release(token, ReplyLost)
    requires token < |s.runs| && (a.Try? ==> a.r != token)
    ensures Respects(token, s.key, Next(s, a).key, Next(s, a).now)
  {
  }

  lemma {:induction false} TimePasses(s: State, actions: seq<Action>)
    requires Valid(s, actions)
    ensures Exec(s, actions).now >= s.now
    decreases |actions|
  {
    if actions != [] {
      TimePasses(Next(s, actions[0]), actions[1..]);
    }
  }

  /** Whatever all the others try, acquire, release or crash into, a holder that has not released finds its own key
      untouched for as long as the ttl runs: no release removes a key set by another token. */
  lemma {:induction false} HolderKeepsItsKey(s: State, actions: seq<Action>, token: Token)
    requires Inv(s) && Valid(s, actions) && Owns(s.key, token)
    requires forall fate :: Release(token, fate) !in actions
    requires Live(s.key, Exec(s, actions).now)
    ensures Exec(s, actions).key == s.key
    decreases |actions|
  {
    if actions != [] {
      var next := Next(s, actions[0]);
      TimePasses(next, actions[1..]);
      NextKeepsInv(s, actions[0]);
      assert RunOk(s, token);
      assert actions[0] in actions;
      LeaseIsFenced(s, actions[0], token);
      assert forall a <- actions[1..] :: a in actions;
      HolderKeepsItsKey(next, actions[1..], token);
    }
  }

  // Mutual exclusion

  ghost predicate Inside(s: State, r: nat) {
    r < |s.runs| && s.runs[r].phase.Working?
  }

  /** Some run is still inside the pass although its lease has run out. */
  ghost predicate Overran(s: State, r: nat) {
    Inside(s, r) && s.runs[r].acquired.Some? && s.now >= s.runs[r].acquired.value + TtlMillis(s.cfg)
  }

  lemma GrantPosition(s: State, r: nat) returns (i: nat)
    requires Inv(s) && r < |s.runs| && s.runs[r].acquired.Some?
    ensures i < |s.grants| && s.grants[i] == r
  {
    assert RunOk(s, r);
    i :| 0 <= i < |s.grants| && s.grants[i] == r;
  }

  lemma TwoInsideMeansOverrun(s: State, q: nat, r: nat)
    requires Inv(s) && q != r && Inside(s, q) && Inside(s, r)
    ensures Overran(s, q) || Overran(s, r)
  {
    assert RunOk(s, q) && RunOk(s, r);
    var i := GrantPosition(s, q);
    var j := GrantPosition(s, r);
    assert i < j ==> Succeeds(s.cfg, s.runs[q], s.runs[r]);
    assert j < i ==> Succeeds(s.cfg, s.runs[r], s.runs[q]);
  }

  /** Two reconcilers are inside `recover_stuck_jobs` at once only if one of them has overrun its lease. So when every
      pass ends within `ttl` of its acquire, there is never more than one. */
  lemma MutualExclusion(cfg: LeaseSettings, begin: int, actions: seq<Action>, q: nat, r: nat)
    requires Valid(Init(cfg, begin), actions) && q != r
    requires Inside(Exec(Init(cfg, begin), actions), q) && Inside(Exec(Init(cfg, begin), actions), r)
    ensures Overran(Exec(Init(cfg, begin), actions), q) || Overran(Exec(Init(cfg, begin), actions), r)
  {
    ExecKeepsInv(Init(cfg, begin), actions);
    TwoInsideMeansOverrun(Exec(Init(cfg, begin), actions), q, r);
  }

  /** The hypothesis is needed: from every positive ttl, one slow pass lets a second reconciler in. */
  lemma OverrunLetsTwoIn(cfg: LeaseSettings, begin: int) returns (actions: seq<Action>)
    requires cfg.ttlSeconds > 0
    ensures Valid(Init(cfg, begin), actions)
    ensures Inside(Exec(Init(cfg, begin), actions), 0) && Inside(Exec(Init(cfg, begin), actions), 1)
  {
    var s0 := Init(cfg, begin);
    var s1 := Next(s0, Begin);
    var s2 := Next(s1, Try(0, Replied));
    var s3 := Next(s2, Tick(TtlMillis(cfg)));
    var s4 := Next(s3, Begin);
    ExecUnfolds(s4, Try(1, Replied), []);
    ExecUnfolds(s3, Begin, [Try(1, Replied)] + []);
    ExecUnfolds(s2, Tick(TtlMillis(cfg)), [Begin] + ([Try(1, Replied)] + []));
    ExecUnfolds(s1, Try(0, Replied), [Tick(TtlMillis(cfg))] + ([Begin] + ([Try(1, Replied)] + [])));
    actions := [Begin] + ([Try(0, Replied)] + ([Tick(TtlMillis(cfg))] + ([Begin] + ([Try(1, Replied)] + []))));
    ExecUnfolds(s0, Begin, actions[1..]);
    assert actions[1..] == [Try(0, Replied)] + ([Tick(TtlMillis(cfg))] + ([Begin] + ([Try(1, Replied)] + [])));
  }

  lemma ExecUnfolds(s: State, a: Action, actions: seq<Action>)
    requires Enabled(s, a) && Valid(Next(s, a), actions)
    ensures Valid(s, [a] + actions) && Exec(s, [a] + actions) == Exec(Next(s, a), actions)
  {
    assert ([a] + actions)[1..] == actions;
  }

  /** So an overrun is not only necessary: from every reachable state in which a run inside the pass has overrun its
      lease, others alone can bring a second one inside, whoever holds the key by then. */
  lemma OverrunAdmitsAnother(cfg: LeaseSettings, begin: int, actions: seq<Action>, q: nat)
    returns (more: seq<Action>)
    requires Valid(Init(cfg, begin), actions) && Overran(Exec(Init(cfg, begin), actions), q)
    ensures var s := Exec(Init(cfg, begin), actions);
            && Valid(s, more) && q < |s.runs| && Inside(Exec(s, more), q) && Inside(Exec(s, more), |s.runs|)
            && Exec(s, more).runs[q] == s.runs[q]
  {
    var s := Exec(Init(cfg, begin), actions);
    ExecKeepsInv(Init(cfg, begin), actions);
    assert RunOk(s, q);
    var r := |s.runs|;
    var wait := Tick(if Live(s.key, s.now) then s.key.value.expires - s.now else 0);
    var waited := Next(s, wait);
    var begun := Next(waited, Begin);
    ExecUnfolds(begun, Try(r, Replied), []);
    ExecUnfolds(waited, Begin, [Try(r, Replied)] + []);
    ExecUnfolds(s, wait, [Begin] + ([Try(r, Replied)] + []));
    more := [wait] + ([Begin] + ([Try(r, Replied)] + []));
  }

  // The hold window

  /** Outside oneshot mode, whoever is granted the key after a run gets it at least one hold window after that run's
      start, even if the earlier holder crashed, overran or lost its replies. The window is the longest number `w` of
      whole seconds within both the interval and the ttl less one second. */
  lemma HoldWindow(cfg: LeaseSettings, begin: int, actions: seq<Action>, i: nat, j: nat, w: int)
    requires Valid(Init(cfg, begin), actions) && !cfg.oneshot
    requires w <= cfg.intervalSeconds && (w <= cfg.ttlSeconds - 1 || w <= 0)
    requires i < j < |Exec(Init(cfg, begin), actions).grants|
    ensures var s := Exec(Init(cfg, begin), actions);
            && s.grants[i] < |s.runs| && s.grants[j] < |s.runs| && s.grants[i] != s.grants[j]
            && s.runs[s.grants[j]].acquired.Some?
            && s.runs[s.grants[j]].acquired.value >= s.runs[s.grants[i]].start + 1000 * w
  {
    var s := Exec(Init(cfg, begin), actions);
    ExecKeepsInv(Init(cfg, begin), actions);
    assert RunOk(s, s.grants[i]);
  }

  /** The window is no longer than that either: once it is over, a holder that has ended its pass may release. */
  lemma ReleaseIsDueIff(s: State, r: nat, fate: Fate)
    requires r < |s.runs| && s.runs[r].phase.Holding?
    ensures Enabled(s, Release(r, fate)) <==>
            || s.cfg.oneshot
            || s.now - s.runs[r].start >= 1000 * s.cfg.intervalSeconds
            || (s.now - s.runs[r].start >= 1000 * (s.cfg.ttlSeconds - 1) && s.now >= s.runs[r].start)
  {
  }

  /** `HoldWindow` speaks of every lease: the grants are exactly the runs that were ever granted the key, and nobody
      is inside the pass, waits or releases without one. */
  lemma GrantsAreTheAcquisitions(cfg: LeaseSettings, begin: int, actions: seq<Action>, r: nat)
    requires Valid(Init(cfg, begin), actions) && r < |Exec(Init(cfg, begin), actions).runs|
    ensures var s := Exec(Init(cfg, begin), actions);
            && (s.runs[r].acquired.Some? <==> r in s.grants)
            && (s.runs[r].phase.Working? || s.runs[r].phase.Holding? || s.runs[r].phase.Released? ==> r in s.grants)
  {
    var s := Exec(Init(cfg, begin), actions);
    ExecKeepsInv(Init(cfg, begin), actions);
    assert RunOk(s, r);
  }

  /** A release that reaches Redis finds its own lease if and only if the ttl has not run out by then. Outside oneshot
      mode the earliest release is at the end of the hold window, and for one second from then on it succeeds. */
  lemma TimelyReleaseSucceeds(cfg: LeaseSettings, begin: int, actions: seq<Action>, r: nat)
    requires Valid(Init(cfg, begin), actions) && Enabled(Exec(Init(cfg, begin), actions), Release(r, Replied))
    ensures var s := Exec(Init(cfg, begin), actions);
            var s' := Next(s, Release(r, Replied));
            && s.runs[r].acquired.Some?
            && s'.runs[r].phase.Released?
            && (s'.runs[r].phase.own <==> s.now < s.runs[r].acquired.value + 1000 * cfg.ttlSeconds)
            && (s'.runs[r].phase.own ==> s'.key.None?)
            && var bound := if cfg.ttlSeconds > 1 then cfg.ttlSeconds - 1 else 0;
               var w := if cfg.intervalSeconds < bound then cfg.intervalSeconds else bound;
               && (cfg.oneshot || s.now >= s.runs[r].start + 1000 * w)
               && (s.now < s.runs[r].start + 1000 * w + 1000 ==> s'.runs[r].phase.own)
  {
    var s := Exec(Init(cfg, begin), actions);
    ExecKeepsInv(Init(cfg, begin), actions);
    assert RunOk(s, r);
  }
}
