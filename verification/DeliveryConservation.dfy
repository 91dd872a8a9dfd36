/** Nothing is processed more often than it was enqueued for: conservation of deliveries, and termination of the worker
    side. */
module DeliveryConservation {
  import opened Common
  import opened Lifecycle
  import opened LifecycleInvariant
  import opened RedisQueue
  import opened VideoJobs
  import opened VideoWorker

  // Sums over the queue

  datatype Quantity = Enqueues | Budget | Claims | Lost | Outstanding | Weight

  /** The most steps a run can still take: claim, download, two stores, complete, return. */
  function PhaseWeight(phase: Phase): nat {
    match phase
    case Fetched => 6
    case Running(_, _, _, Started) => 5
    case Running(_, _, _, Downloaded) => 4
    case Running(_, _, _, VideoStored) => 3
    case Running(_, _, _, ThumbnailStored) => 2
    case Running(_, _, _, Committed) => 1
    case _ => 0
  }

  function Value(quantity: Quantity, message: Message): nat {
    match quantity
    case Enqueues => 1
    case Budget => message.budget
    case Claims => message.claims
    case Lost => message.lost
    case Outstanding => message.left + if message.phase.Fetched? then 1 else 0
    case Weight => 7 * message.left + PhaseWeight(message.phase)
  }

  /** The value counts for one job, or for all jobs when none is named. */
  function Share(quantity: Quantity, message: Message, job: Option<JobId>): nat {
    if job.None? || job.value == message.job then Value(quantity, message) else 0
  }

  function Sum(quantity: Quantity, messages: seq<Message>, job: Option<JobId>): nat {
    if messages == [] then 0 else Share(quantity, messages[0], job) + Sum(quantity, messages[1..], job)
  }

  lemma {:induction false} SumOfAppended(quantity: Quantity, messages: seq<Message>, message: Message,
                                         job: Option<JobId>)
    ensures Sum(quantity, messages + [message], job) == Sum(quantity, messages, job) + Share(quantity, message, job)
  {
    if messages == [] {
      assert messages + [message] == [message];
    } else {
      SumOfAppended(quantity, messages[1..], message, job);
      assert (messages + [message])[1..] == messages[1..] + [message];
    }
  }

  lemma {:induction false} SumOfUpdated(quantity: Quantity, messages: seq<Message>, m: nat, message: Message,
                                        job: Option<JobId>)
    requires m < |messages|
    ensures Sum(quantity, messages[m := message], job)
         == Sum(quantity, messages, job) - Share(quantity, messages[m], job) + Share(quantity, message, job)
  {
    if m == 0 {
      assert messages[m := message][1..] == messages[1..];
    } else {
      SumOfUpdated(quantity, messages[1..], m - 1, message, job);
      assert messages[m := message][1..] == messages[1..][m - 1 := message];
    }
  }

  lemma {:induction false} SumOfNone(quantity: Quantity, messages: seq<Message>, id: JobId)
    requires forall m | 0 <= m < |messages| :: messages[m].job != id
    ensures Sum(quantity, messages, Some(id)) == 0
  {
    if messages != [] {
      assert messages[0].job != id;
      SumOfNone(quantity, messages[1..], id);
    }
  }

  lemma {:induction false} SumsBalance(messages: seq<Message>, job: Option<JobId>)
    requires forall m | 0 <= m < |messages| :: Balanced(messages[m])
    ensures Sum(Claims, messages, job) + Sum(Outstanding, messages, job) + Sum(Lost, messages, job)
         == Sum(Budget, messages, job)
  {
    if messages != [] {
      assert Balanced(messages[0]);
      SumsBalance(messages[1..], job);
    }
  }

  lemma {:induction false} BudgetPerEnqueue(messages: seq<Message>, id: JobId, deliveries: nat)
    requires forall m | 0 <= m < |messages| && messages[m].job == id :: messages[m].budget == deliveries
    ensures Sum(Budget, messages, Some(id)) == Sum(Enqueues, messages, Some(id)) * deliveries
  {
    if messages != [] {
      assert messages[0].job == id ==> messages[0].budget == deliveries;
      BudgetPerEnqueue(messages[1..], id, deliveries);
    }
  }

  // Conservation

  /** Does the action turn a delivery into a processing attempt of this job? */
  ghost predicate ClaimsJob(s: State, a: Action, id: JobId) {
    && a.Worker? && a.worker.ClaimRow? && Enabled(s, a)
    && s.messages[a.m].job == id && Verdict(s.rows, id).Claim?
  }

  ghost function ClaimCount(s: State, actions: seq<Action>, id: JobId): nat
    requires Valid(s, actions)
    decreases |actions|
  {
    if actions == [] then 0
    else (if ClaimsJob(s, actions[0], id) then 1 else 0) + ClaimCount(Next(s, actions[0]), actions[1..], id)
  }

  /** A worker step spends weight on one message; any other action at most appends a fresh message. */
  ghost predicate QueueEffect(before: seq<Message>, after: seq<Message>, worker: bool, m: nat, claimed: nat) {
    if worker then
      && m < |before| && |after| == |before| && after == before[m := after[m]]
      && SameMessage(before[m], after[m]) && after[m].claims == before[m].claims + claimed
      && Value(Weight, after[m]) < Value(Weight, before[m])
    else
      after == before || (|after| == |before| + 1 && after == before + [after[|before|]] && Fresh(after[|before|]))
  }

  ghost predicate Fresh(message: Message) {
    message.claims == 0 && message.lost == 0 && message.phase.Waiting? && message.left == message.budget
  }

  lemma WorkerEffect(s: State, m: nat, step: WorkerStep)
    requires WorkerEnabled(s, m, step)
    ensures QueueEffect(s.messages, WorkerApply(s, m, step).messages, true, m,
                        if step.ClaimRow? && Verdict(s.rows, s.messages[m].job).Claim? then 1 else 0)
  {
  }

  lemma ActionEffect(s: State, a: Action)
    requires Enabled(s, a)
    ensures QueueEffect(s.messages, Next(s, a).messages, a.Worker?, if a.Worker? then a.m else 0,
                        if a.Worker? && ClaimsJob(s, a, s.messages[a.m].job) then 1 else 0)
  {
    if a.Worker? {
      WorkerEffect(s, a.m, a.worker);
    }
  }

  lemma ClaimsChange(before: seq<Message>, after: seq<Message>, worker: bool, m: nat, claimed: nat, id: JobId)
    requires QueueEffect(before, after, worker, m, claimed)
    ensures Sum(Claims, after, Some(id))
         == Sum(Claims, before, Some(id)) + if worker && before[m].job == id then claimed else 0
  {
    if worker {
      SumOfUpdated(Claims, before, m, after[m], Some(id));
    } else if after != before {
      SumOfAppended(Claims, before, after[|before|], Some(id));
    }
  }

  lemma ClaimIsCounted(s: State, a: Action, id: JobId)
    requires Enabled(s, a)
    ensures Sum(Claims, Next(s, a).messages, Some(id))
         == Sum(Claims, s.messages, Some(id)) + if ClaimsJob(s, a, id) then 1 else 0
  {
    ActionEffect(s, a);
    ClaimsChange(s.messages, Next(s, a).messages, a.Worker?, if a.Worker? then a.m else 0,
                 if a.Worker? && ClaimsJob(s, a, s.messages[a.m].job) then 1 else 0, id);
  }

  lemma {:induction false} ClaimsAreCounted(s: State, actions: seq<Action>, id: JobId)
    requires Valid(s, actions)
    ensures Sum(Claims, Exec(s, actions).messages, Some(id))
         == Sum(Claims, s.messages, Some(id)) + ClaimCount(s, actions, id)
    decreases |actions|
  {
    if actions != [] {
      ClaimIsCounted(s, actions[0], id);
      ClaimsAreCounted(Next(s, actions[0]), actions[1..], id);
    }
  }

  /** The deliveries of this job that the action gives up: those of a refused claim, of a run that ended for good, and
      of a crash that RQ does not redeliver. A failure with attempts left gives up none. */
  ghost function Losses(s: State, a: Action, id: JobId): nat
    requires Enabled(s, a)
  {
    if !a.Worker? || s.messages[a.m].job != id then 0
    else
      var left, row := s.messages[a.m].left, if id in s.rows then Some(s.rows[id]) else None;
      match a.worker
      case ClaimRow =>
        if || row.None? || row.value.status.COMPLETED?
           || (row.value.status.FAILED?
               && (row.value.failure.retryExhausted || row.value.attemptCount >= row.value.maxAttempts))
        then left + 1 else 0
      case Return => left
      case Fail(_, _) => if row.Some? && row.value.attemptCount >= row.value.maxAttempts then left else 0
      case Crash(redelivered) =>
        (if s.messages[a.m].phase.Fetched? then 1 else 0) + if redelivered then 0 else left
      case _ => 0
  }

  ghost function LossCount(s: State, actions: seq<Action>, id: JobId): nat
    requires Valid(s, actions)
    decreases |actions|
  {
    if actions == [] then 0 else Losses(s, actions[0], id) + LossCount(Next(s, actions[0]), actions[1..], id)
  }

  lemma WorkerLoses(s: State, m: nat, step: WorkerStep)
    requires WorkerEnabled(s, m, step)
    ensures WorkerApply(s, m, step).messages[m].lost
         == s.messages[m].lost + Losses(s, Worker(m, step), s.messages[m].job)
  {
  }

  lemma LossIsCounted(s: State, a: Action, id: JobId)
    requires Enabled(s, a)
    ensures Sum(Lost, Next(s, a).messages, Some(id)) == Sum(Lost, s.messages, Some(id)) + Losses(s, a, id)
  {
    ActionEffect(s, a);
    var before, after := s.messages, Next(s, a).messages;
    if a.Worker? {
      WorkerLoses(s, a.m, a.worker);
      SumOfUpdated(Lost, before, a.m, after[a.m], Some(id));
    } else if after != before {
      SumOfAppended(Lost, before, after[|before|], Some(id));
    }
  }

  /** Every lost delivery has one of these causes, and each of them loses exactly that many. */
  lemma {:induction false} LossesAreCounted(s: State, actions: seq<Action>, id: JobId)
    requires Valid(s, actions)
    ensures Sum(Lost, Exec(s, actions).messages, Some(id))
         == Sum(Lost, s.messages, Some(id)) + LossCount(s, actions, id)
    decreases |actions|
  {
    if actions != [] {
      LossIsCounted(s, actions[0], id);
      LossesAreCounted(Next(s, actions[0]), actions[1..], id);
    }
  }

  /** Over every interleaving: the processing attempts of a job, the deliveries still due and the deliveries lost add
      up to what its enqueues granted, `1 + max(0, max_attempts - 1)` each. */
  lemma DeliveriesAreConserved(cfg: Settings, start: int, actions: seq<Action>, id: JobId)
    requires Valid(Init(cfg, start), actions)
    ensures var s := Exec(Init(cfg, start), actions);
            && ClaimCount(Init(cfg, start), actions, id) + Sum(Outstanding, s.messages, Some(id))
               + Sum(Lost, s.messages, Some(id)) == Sum(Budget, s.messages, Some(id))
            && (id in s.rows ==>
                  Sum(Budget, s.messages, Some(id))
                  == Sum(Enqueues, s.messages, Some(id)) * Deliveries(s.rows[id].maxAttempts))
  {
    var s := Exec(Init(cfg, start), actions);
    ReachableInv(cfg, start, actions);
    ClaimsAreCounted(Init(cfg, start), actions, id);
    assert forall m | 0 <= m < |s.messages| :: MessageOk(s, s.messages[m]);
    SumsBalance(s.messages, Some(id));
    if id in s.rows {
      BudgetPerEnqueue(s.messages, id, Deliveries(s.rows[id].maxAttempts));
    }
  }

  // Termination

  function WorkerSteps(actions: seq<Action>): nat {
    if actions == [] then 0 else (if actions[0].Worker? then 1 else 0) + WorkerSteps(actions[1..])
  }

  lemma WorkIsPaidFor(before: seq<Message>, after: seq<Message>, worker: bool, m: nat, claimed: nat)
    requires QueueEffect(before, after, worker, m, claimed)
    ensures (if worker then 1 else 0) + Sum(Weight, after, None) + 7 * Sum(Budget, before, None)
         <= Sum(Weight, before, None) + 7 * Sum(Budget, after, None)
    ensures |before| <= |after| && (|before| == |after| ==> Sum(Budget, before, None) == Sum(Budget, after, None))
  {
    if worker {
      SumOfUpdated(Weight, before, m, after[m], None);
      SumOfUpdated(Budget, before, m, after[m], None);
    } else if after != before {
      SumOfAppended(Weight, before, after[|before|], None);
      SumOfAppended(Budget, before, after[|before|], None);
    }
  }

  /** The worker side stops by itself: every worker step uses up weight, and only an enqueue adds any. In particular,
      a run without enqueues takes at most as many worker steps as its first state weighs. */
  lemma {:induction false} WorkersTerminate(s: State, actions: seq<Action>)
    requires Valid(s, actions)
    ensures WorkerSteps(actions) + Sum(Weight, Exec(s, actions).messages, None) + 7 * Sum(Budget, s.messages, None)
         <= Sum(Weight, s.messages, None) + 7 * Sum(Budget, Exec(s, actions).messages, None)
    ensures |s.messages| <= |Exec(s, actions).messages|
    ensures |Exec(s, actions).messages| == |s.messages| ==> WorkerSteps(actions) <= Sum(Weight, s.messages, None)
    decreases |actions|
  {
    if actions != [] {
      var a, s' := actions[0], Next(s, actions[0]);
      ActionEffect(s, a);
      WorkIsPaidFor(s.messages, s'.messages, a.Worker?, if a.Worker? then a.m else 0,
                    if a.Worker? && ClaimsJob(s, a, s.messages[a.m].job) then 1 else 0);
      WorkersTerminate(s', actions[1..]);
    }
  }
}
