/** The upload handler of backend/app/api/v1/videos.py: which check runs before which, and what each may change. */
module UploadEndpoint {
  import opened Common
  import opened PythonText
  import opened RedisQueue
  import opened VideoJobs
  import opened VideoUpload
  import Admission = AdmissionControl
  import Limiter = RateLimiter

  datatype IdempotencySettings = IdempotencySettings(enabled: bool, maxLength: int)

  /** `Absent` covers a missing header and a switched-off feature. */
  datatype KeyCheck = Absent | Invalid | Valid(key: string)

  function ValidateKey(cfg: IdempotencySettings, header: Option<string>): KeyCheck {
    if !cfg.enabled || header.None? then Absent
    else
      var key := Strip(header.value);
      if key == "" || |key| > cfg.maxLength then Invalid else Valid(key)
  }

  function KeyOf(check: KeyCheck): Option<string> {
    if check.Valid? then Some(check.key) else None
  }

  datatype Response =
    | RateLimited(decision: Limiter.Decision)
    | InvalidKey
    | Existing(id: JobId)
    | NotAdmitted(why: Admission.Refusal)
    | NotValidated
    | Accepted(id: JobId)
    | Raced(id: JobId)
    | QueueDown(id: JobId)
    | ServerError

  predicate HasRoom(admission: Admission.UploadAdmissionController, pool: Admission.WorkerPool,
                    messages: seq<Message>)
  {
    Admission.Admits(admission.cfg, pool, Depth(messages))
  }

  method LookUp(db: Database, key: string) returns (found: Option<JobId>)
    ensures found.None? <==> !KeyTaken(db.rows, Some(key))
    ensures found.Some? ==> found.value in db.rows && db.rows[found.value].idempotencyKey == Some(key)
  {
    if KeyTaken(db.rows, Some(key)) {
      var id :| id in db.rows && db.rows[id].idempotencyKey == Some(key);
      return Some(id);
    }
    found := None;
  }

  predicate PassedChecks(response: Response) {
    response.Accepted? || response.Raced? || response.QueueDown? || response.ServerError?
  }

  /** One request, with `client` and `header` from it, `fileOk` for the file checks, and `incr` and `expire` for how the
      limiter's Redis commands end. The other actors may act once the checks are over.
      - The checks decide in this order: rate limiter, idempotency key, admission, file. A request they turn away, or
        that repeats a key, leaves rows and queue alone.
      - A repeated key is answered with the existing job without asking admission or validation, but not without
        passing the rate limiter. A key taken only after the lookup is answered with the job that took it.
      - A request that passes ends as `UploadEnds` says; it is answered 503 exactly when the job it names is FAILED
        for want of the queue.
      - The limiter counts every request that reaches Redis, whatever becomes of it. */
  method UploadVideo(cfg: Settings, keys: IdempotencySettings, limiter: Limiter.UploadRateLimiter,
                     admission: Admission.UploadAdmissionController, db: Database, queue: QueueService,
                     env: Environment, counters: Limiter.CounterStore, pool: Admission.WorkerPool, client: string,
                     incr: Fate, expire: Fate, header: Option<string>, fileOk: bool, r: UploadRequest)
    returns (response: Response, ghost upload: UploadOutcome, ghost last: Table)
    requires limiter.cfg.windowSeconds > 0 && r.id !in db.rows && r.key == KeyOf(ValidateKey(keys, header))
    modifies db, queue, counters
    ensures response.RateLimited? <==>
      && limiter.cfg.enabled
      && var key := (client, old(counters.now) / 1000 / limiter.cfg.windowSeconds * limiter.cfg.windowSeconds);
         var before := old(counters.counters);
         var k := if key in before && (before[key].expires.None? || old(counters.now) < before[key].expires.value)
                  then before[key].count + 1 else 1;
         !incr.Replied? || k > limiter.cfg.limit || (k == 1 && !expire.Replied?)
    ensures response.RateLimited? ==>
      var now, w := old(counters.now) / 1000, limiter.cfg.windowSeconds;
      var key := (client, now / w * w);
      var before := old(counters.counters);
      var k := if key in before && (before[key].expires.None? || old(counters.now) < before[key].expires.value)
               then before[key].count + 1 else 1;
      response.decision == if !incr.Replied? || (k == 1 && !expire.Replied?)
            then Limiter.Decision(false, Some(Limiter.Unavailable), limiter.cfg.limit, 0, w)
            else Limiter.Decision(false, Some(Limiter.RateLimited), limiter.cfg.limit, 0, now / w * w + w - now)
    ensures response.InvalidKey? <==>
      && !response.RateLimited?
      && keys.enabled && header.Some? && (Strip(header.value) == "" || |Strip(header.value)| > keys.maxLength)
    ensures response.Existing? <==>
      && !response.RateLimited? && !response.InvalidKey? && keys.enabled && header.Some?
      && exists id <- old(db.rows) :: old(db.rows)[id].idempotencyKey == Some(Strip(header.value))
    ensures response.Existing? ==>
      && keys.enabled && header.Some? && response.id in db.rows
      && db.rows[response.id].idempotencyKey == Some(Strip(header.value))
    ensures !PassedChecks(response) ==> db.rows == old(db.rows) && queue.messages == old(queue.messages)
    ensures response.NotAdmitted? ==>
      && admission.cfg.enabled
      && match response.why
         case QueueUnavailable => pool.Unreachable?
         case InsufficientWorkers => pool.Registered? && pool.count < admission.cfg.minWorkers
         case QueueBacklogHigh =>
           && pool.Registered? && pool.count >= admission.cfg.minWorkers
           && Depth(old(queue.messages)) >= admission.cfg.maxDepth
    ensures response.NotValidated? || PassedChecks(response) ==>
      admission.cfg.enabled ==>
        && pool.Registered? && pool.count >= admission.cfg.minWorkers
        && Depth(old(queue.messages)) < admission.cfg.maxDepth
    ensures response.NotValidated? ==> !fileOk
    ensures PassedChecks(response) ==> fileOk
    ensures PassedChecks(response) ==>
      UploadEnds(r, last, db.rows, old(queue.messages), queue.messages, upload, db.now)
    ensures response.Accepted? ==> upload == NewKey(r.id) && response.id == r.id
    ensures response.Raced? ==> upload == RaceExisting(response.id) && response.id in db.rows
    ensures response.Accepted? || response.Raced? || response.QueueDown? ==>
      && response.id in db.rows
      && var row := db.rows[response.id];
         response.QueueDown?
         <==> row.status.FAILED? && row.failure.errorMessage.Some? && "enqueue_failed" <= row.failure.errorMessage.value
    ensures PassedChecks(response) ==> (response.ServerError? <==> upload.Raised?)
    ensures env.quiet && PassedChecks(response) ==>
      r.id in db.rows && db.rows == old(db.rows)[r.id := db.rows[r.id]] && !upload.RaceExisting?
    ensures limiter.cfg.enabled && !incr.Unsent? ==>
      var key := (client, Limiter.WindowStart(Limiter.Seconds(old(counters.now)), limiter.cfg.windowSeconds));
      key in counters.counters && counters.counters[key].count
                                  == Limiter.Incremented(old(counters.counters), key, old(counters.now)).count
  {
    upload, last := Raised, db.rows;
    var stop;
    stop := CheckRequest(keys, limiter, admission, db, queue, counters, pool, client, incr, expire, header, fileOk);
    if stop.Some? {
      return stop.value, upload, last;
    }
    response, upload, last := Proceed(cfg, db, queue, env, r);
  }

  /** All checks, in order; the response of the first that stops the request, if any. */
  method CheckRequest(keys: IdempotencySettings, limiter: Limiter.UploadRateLimiter,
                      admission: Admission.UploadAdmissionController, db: Database, queue: QueueService,
                      counters: Limiter.CounterStore, pool: Admission.WorkerPool, client: string,
                      incr: Fate, expire: Fate, header: Option<string>, fileOk: bool)
    returns (stop: Option<Response>)
    requires limiter.cfg.windowSeconds > 0
    modifies counters
    ensures stop.Some? && stop.value.RateLimited? <==>
      && limiter.cfg.enabled
      && var key := (client, old(counters.now) / 1000 / limiter.cfg.windowSeconds * limiter.cfg.windowSeconds);
         var before := old(counters.counters);
         var k := if key in before && (before[key].expires.None? || old(counters.now) < before[key].expires.value)
                  then before[key].count + 1 else 1;
         !incr.Replied? || k > limiter.cfg.limit || (k == 1 && !expire.Replied?)
    ensures stop.Some? && stop.value.RateLimited? ==>
      var now, w := old(counters.now) / 1000, limiter.cfg.windowSeconds;
      var key := (client, now / w * w);
      var before := old(counters.counters);
      var k := if key in before && (before[key].expires.None? || old(counters.now) < before[key].expires.value)
               then before[key].count + 1 else 1;
      stop.value.decision == if !incr.Replied? || (k == 1 && !expire.Replied?)
            then Limiter.Decision(false, Some(Limiter.Unavailable), limiter.cfg.limit, 0, w)
            else Limiter.Decision(false, Some(Limiter.RateLimited), limiter.cfg.limit, 0, now / w * w + w - now)
    ensures stop == Some(InvalidKey) <==>
      && (stop.Some? ==> !stop.value.RateLimited?)
      && keys.enabled && header.Some? && (Strip(header.value) == "" || |Strip(header.value)| > keys.maxLength)
    ensures var check, taken := ValidateKey(keys, header), KeyTaken(db.rows, KeyOf(ValidateKey(keys, header)));
            match stop
            case None => !check.Invalid? && !taken && HasRoom(admission, pool, queue.messages) && fileOk
            case Some(RateLimited(_)) => true
            case Some(InvalidKey) => check.Invalid?
            case Some(Existing(id)) =>
              && check.Valid? && taken && id in db.rows && db.rows[id].idempotencyKey == Some(Strip(header.value))
            case Some(NotAdmitted(why)) =>
              && !check.Invalid? && !taken && admission.cfg.enabled
              && (match why
                  case QueueUnavailable => pool.Unreachable?
                  case InsufficientWorkers => pool.Registered? && pool.count < admission.cfg.minWorkers
                  case QueueBacklogHigh =>
                    && pool.Registered? && pool.count >= admission.cfg.minWorkers
                    && Depth(queue.messages) >= admission.cfg.maxDepth)
            case Some(NotValidated) => !check.Invalid? && !taken && HasRoom(admission, pool, queue.messages) && !fileOk
            case Some(_) => false
    ensures limiter.cfg.enabled && !incr.Unsent? ==>
      var key := (client, Limiter.WindowStart(Limiter.Seconds(old(counters.now)), limiter.cfg.windowSeconds));
      key in counters.counters && counters.counters[key].count
                                  == Limiter.Incremented(old(counters.counters), key, old(counters.now)).count
  {
    var others := new Limiter.OtherRequests(true);
    var decision, counted := limiter.CheckUploadAllowed(counters, others, client, incr, expire);
    if !decision.allowed {
      return Some(RateLimited(decision));
    }
    var check := ValidateKey(keys, header);
    if check.Invalid? {
      return Some(InvalidKey);
    }
    if check.Valid? {
      var existing := LookUp(db, check.key);
      if existing.Some? {
        return Some(Response.Existing(existing.value));
      }
    }
    var admitted := admission.CheckUploadAllowed(queue, pool);
    if admitted.Refused? {
      return Some(NotAdmitted(admitted.why));
    }
    if !fileOk {
      return Some(NotValidated);
    }
    stop := None;
  }

  /** The upload proper, and the answer to it. */
  method Proceed(cfg: Settings, db: Database, queue: QueueService, env: Environment, r: UploadRequest)
    returns (response: Response, ghost upload: UploadOutcome, ghost last: Table)
    requires r.id !in db.rows
    modifies db, queue
    ensures PassedChecks(response) && UploadEnds(r, last, db.rows, old(queue.messages), queue.messages, upload, db.now)
    ensures response.Accepted? ==> upload == NewKey(r.id) && response.id == r.id
    ensures response.Raced? ==> upload == RaceExisting(response.id) && response.id in db.rows
    ensures response.Accepted? || response.Raced? || response.QueueDown? ==>
      && response.id in db.rows
      && var row := db.rows[response.id];
         response.QueueDown?
         <==> row.status.FAILED? && row.failure.errorMessage.Some? && "enqueue_failed" <= row.failure.errorMessage.value
    ensures response.ServerError? <==> upload.Raised?
    ensures env.quiet && !KeyTaken(old(db.rows), r.key) ==>
      r.id in db.rows && db.rows == old(db.rows)[r.id := db.rows[r.id]] && !upload.RaceExisting?
  {
    env.Act(db);
    if r.id in db.rows {
      upload, last := Raised, db.rows;
      return ServerError, upload, last;
    }
    var outcome;
    outcome, last := UploadAndProcess(cfg, db, queue, env, r);
    upload := outcome;
    response := match outcome
      case Raised => ServerError
      case RaceExisting(id) => if QueueWasUnavailable(db.rows[id]) then QueueDown(id) else Raced(id)
      case NewKey(id) => if QueueWasUnavailable(db.rows[id]) then QueueDown(id) else Accepted(id);
  }
}
