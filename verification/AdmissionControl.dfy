/** backend/app/services/admission_control.py: uploads are turned away while the queue is deep or no worker is there. */
module AdmissionControl {
  import opened Common
  import opened RedisQueue

  datatype AdmissionSettings = AdmissionSettings(enabled: bool, minWorkers: int, maxDepth: int)

  /** What Redis says about the registered workers, if it answers. */
  datatype WorkerPool = Unreachable | Registered(count: nat)

  predicate Admits(cfg: AdmissionSettings, pool: WorkerPool, depth: nat) {
    !cfg.enabled || (pool.Registered? && pool.count >= cfg.minWorkers && depth < cfg.maxDepth)
  }

  datatype Refusal = InsufficientWorkers | QueueBacklogHigh | QueueUnavailable

  /** `Ok(None)` is the answer when admission control is off; otherwise depth and workers are reported as seen. */
  datatype Decision =
    | Ok(seen: Option<(nat, nat)>)
    | Refused(why: Refusal, seen: Option<(nat, nat)>)

  class UploadAdmissionController {
    const cfg: AdmissionSettings

    constructor (cfg: AdmissionSettings)
      ensures this.cfg == cfg
    {
      this.cfg := cfg;
    }

    /** Only an unreachable queue is reported as such; of the other two reasons, missing workers come first. */
    method CheckUploadAllowed(queue: QueueService, pool: WorkerPool) returns (decision: Decision)
      ensures decision.Ok? <==> Admits(cfg, pool, Depth(queue.messages))
      ensures decision.Ok? <==>
        !cfg.enabled || (pool.Registered? && pool.count >= cfg.minWorkers && Depth(queue.messages) < cfg.maxDepth)
      ensures decision.Refused? ==>
        && (decision.why.QueueUnavailable? <==> pool.Unreachable?)
        && (decision.why.InsufficientWorkers? <==> pool.Registered? && pool.count < cfg.minWorkers)
      ensures decision.seen ==
        if cfg.enabled && pool.Registered? then Some((Depth(queue.messages), pool.count)) else None
    {
      if !cfg.enabled {
        return Ok(None);
      }
      if pool.Unreachable? {
        return Refused(QueueUnavailable, None);
      }
      var depth := queue.Length();
      if pool.count < cfg.minWorkers {
        return Refused(InsufficientWorkers, Some((depth, pool.count)));
      }
      if depth >= cfg.maxDepth {
        return Refused(QueueBacklogHigh, Some((depth, pool.count)));
      }
      decision := Ok(Some((depth, pool.count)));
    }
  }
}
