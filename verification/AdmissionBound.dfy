/** Check-then-act: between an upload's check and its enqueue, other uploads check and enqueue too. */
module AdmissionBound {
  import opened AdmissionControl

  /** `admitted` uploads have passed the check and have yet to enqueue or give up; `others` counts the enqueues of
      recoveries and manual retries and the redeliveries by RQ, which nobody checks. */
  datatype State = State(depth: nat, admitted: nat, others: nat)

  datatype Action =
    | Check(workers: nat)
    | Enqueue
    | GiveUp
    | Dequeue
    | OtherEnqueue

  predicate Enabled(s: State, a: Action) {
    match a
    case Check(_) => true
    case Enqueue => s.admitted > 0
    case GiveUp => s.admitted > 0
    case Dequeue => s.depth > 0
    case OtherEnqueue => true
  }

  function Next(cfg: AdmissionSettings, s: State, a: Action): State
    requires Enabled(s, a)
  {
    match a
    case Check(workers) => if Admits(cfg, Registered(workers), s.depth) then s.(admitted := s.admitted + 1) else s
    case Enqueue => s.(admitted := s.admitted - 1, depth := s.depth + 1)
    case GiveUp => s.(admitted := s.admitted - 1)
    case Dequeue => s.(depth := s.depth - 1)
    case OtherEnqueue => s.(depth := s.depth + 1, others := s.others + 1)
  }

  /** A run in which never more than `c` admitted uploads are on their way. */
  ghost predicate Run(cfg: AdmissionSettings, c: nat, s: State, actions: seq<Action>)
    decreases |actions|
  {
    && s.admitted <= c
    && (actions == [] || (Enabled(s, actions[0]) && Run(cfg, c, Next(cfg, s, actions[0]), actions[1..])))
  }

  ghost function Exec(cfg: AdmissionSettings, c: nat, s: State, actions: seq<Action>): State
    requires Run(cfg, c, s, actions)
    decreases |actions|
  {
    if actions == [] then s else Exec(cfg, c, Next(cfg, s, actions[0]), actions[1..])
  }

  /** The deepest queue uploads can cause, counting those on their way, on top of what the others enqueued. */
  ghost predicate Bounded(cfg: AdmissionSettings, c: nat, s: State) {
    s.depth + s.admitted - s.others <= (if cfg.maxDepth > 0 then cfg.maxDepth - 1 + c else 0)
  }

  lemma {:induction false} RunStaysBounded(cfg: AdmissionSettings, c: nat, s: State, actions: seq<Action>)
    requires cfg.enabled && Run(cfg, c, s, actions) && Bounded(cfg, c, s)
    ensures Bounded(cfg, c, Exec(cfg, c, s, actions))
    decreases |actions|
  {
    if actions != [] {
      assert Run(cfg, c, Next(cfg, s, actions[0]), actions[1..]);
      RunStaysBounded(cfg, c, Next(cfg, s, actions[0]), actions[1..]);
    }
  }

  /** With at most `c` uploads between check and enqueue, uploads alone never push the queue above
      `max_queue_depth - 1 + c`, for every interleaving with dequeues; each unchecked enqueue can add one. */
  lemma UploadsRespectTheBound(cfg: AdmissionSettings, c: nat, actions: seq<Action>)
    requires cfg.enabled && cfg.maxDepth > 0 && Run(cfg, c, State(0, 0, 0), actions)
    ensures var s := Exec(cfg, c, State(0, 0, 0), actions);
            && s.depth <= cfg.maxDepth - 1 + c + s.others
            && (OtherEnqueue !in actions ==> s.depth <= cfg.maxDepth - 1 + c)
  {
    RunStaysBounded(cfg, c, State(0, 0, 0), actions);
    if OtherEnqueue !in actions {
      NoOthers(cfg, c, State(0, 0, 0), actions);
    }
  }

  lemma {:induction false} NoOthers(cfg: AdmissionSettings, c: nat, s: State, actions: seq<Action>)
    requires Run(cfg, c, s, actions) && OtherEnqueue !in actions
    ensures Exec(cfg, c, s, actions).others == s.others
    decreases |actions|
  {
    if actions != [] {
      assert actions[0] in actions;
      NoOthers(cfg, c, Next(cfg, s, actions[0]), actions[1..]);
    }
  }

  // The bound is reached

  function EnoughWorkers(cfg: AdmissionSettings): nat {
    if cfg.minWorkers > 0 then cfg.minWorkers else 0
  }

  /** One upload after the other fills the queue up to the threshold. */
  lemma {:induction false} FillUp(cfg: AdmissionSettings, c: nat, depth: nat) returns (actions: seq<Action>)
    requires cfg.enabled && depth <= cfg.maxDepth - 1 && c > 0
    ensures Run(cfg, c, State(depth, 0, 0), actions) && OtherEnqueue !in actions
    ensures Exec(cfg, c, State(depth, 0, 0), actions) == State(cfg.maxDepth - 1, 0, 0)
    decreases cfg.maxDepth - depth
  {
    if depth == cfg.maxDepth - 1 {
      actions := [];
    } else {
      var rest := FillUp(cfg, c, depth + 1);
      var tail := [Enqueue] + rest;
      actions := [Check(EnoughWorkers(cfg))] + tail;
      assert tail[1..] == rest && actions[1..] == tail;
      assert Run(cfg, c, State(depth, 1, 0), tail);
    }
  }

  /** `n` uploads check at the same depth, then all of them enqueue. */
  lemma {:induction false} Burst(cfg: AdmissionSettings, c: nat, admitted: nat) returns (actions: seq<Action>)
    requires cfg.enabled && cfg.maxDepth > 0 && admitted <= c
    ensures Run(cfg, c, State(cfg.maxDepth - 1, admitted, 0), actions) && OtherEnqueue !in actions
    ensures Exec(cfg, c, State(cfg.maxDepth - 1, admitted, 0), actions) == State(cfg.maxDepth - 1 + c, 0, 0)
    decreases c - admitted
  {
    if admitted == c {
      actions := Drain(cfg, c, cfg.maxDepth - 1, c);
    } else {
      var rest := Burst(cfg, c, admitted + 1);
      actions := [Check(EnoughWorkers(cfg))] + rest;
      assert actions[1..] == rest;
    }
  }

  lemma {:induction false} Drain(cfg: AdmissionSettings, c: nat, depth: nat, admitted: nat)
    returns (actions: seq<Action>)
    requires admitted <= c
    ensures Run(cfg, c, State(depth, admitted, 0), actions) && OtherEnqueue !in actions
    ensures Exec(cfg, c, State(depth, admitted, 0), actions) == State(depth + admitted, 0, 0)
    decreases admitted
  {
    if admitted == 0 {
      actions := [];
    } else {
      var rest := Drain(cfg, c, depth + 1, admitted - 1);
      actions := [Enqueue] + rest;
      assert actions[1..] == rest;
    }
  }

  lemma {:induction false} ExecJoins(cfg: AdmissionSettings, c: nat, s: State, first: seq<Action>, then_: seq<Action>)
    requires Run(cfg, c, s, first) && Run(cfg, c, Exec(cfg, c, s, first), then_)
    ensures Run(cfg, c, s, first + then_)
    ensures Exec(cfg, c, s, first + then_) == Exec(cfg, c, Exec(cfg, c, s, first), then_)
    decreases |first|
  {
    if first == [] {
      assert first + then_ == then_;
    } else {
      ExecJoins(cfg, c, Next(cfg, s, first[0]), first[1..], then_);
      assert (first + then_)[1..] == first[1..] + then_;
    }
  }

  /** The bound is tight: for every threshold and every positive `c`, uploads alone can reach it exactly. */
  lemma BoundIsReached(cfg: AdmissionSettings, c: nat) returns (actions: seq<Action>)
    requires cfg.enabled && cfg.maxDepth > 0 && c > 0
    ensures Run(cfg, c, State(0, 0, 0), actions) && OtherEnqueue !in actions
    ensures Exec(cfg, c, State(0, 0, 0), actions).depth == cfg.maxDepth - 1 + c
  {
    var fill := FillUp(cfg, c, 0);
    var burst := Burst(cfg, c, 0);
    ExecJoins(cfg, c, State(0, 0, 0), fill, burst);
    actions := fill + burst;
  }
}
