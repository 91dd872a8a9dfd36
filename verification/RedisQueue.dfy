/** backend/app/services/queue_service.py: RQ messages and their retry budget. */
module RedisQueue {
  import opened Common
  import opened VideoJobs

  /** How far the worker holding a message has come. `Committed` is the stretch between the commit of COMPLETED and
      the return to RQ: an exception there still reaches the worker's failure handler. */
  datatype RunStage = Started | Downloaded | VideoStored | ThumbnailStored | Committed

  datatype Phase =
    | Waiting
    | Fetched
    | Running(started: int, backend: Backend, raw: Option<string>, stage: RunStage)
    | Done

  /** One enqueued message. `left` deliveries remain, `claims` deliveries became a processing attempt and `lost`
      deliveries ended without one; a fetched message is a delivery under way. `origin` is the call that pushed it. */
  datatype Message = Message(
    job: JobId, origin: nat, budget: nat, left: nat, claims: nat, lost: nat, phase: Phase)

  /** One initial run plus `Retry(max=max_attempts - 1)`, where a zero budget means no Retry at all. */
  function Deliveries(maxAttempts: int): nat {
    1 + if maxAttempts - 1 > 0 then maxAttempts - 1 else 0
  }

  function NewMessage(job: JobId, origin: nat, maxAttempts: int): Message {
    Message(job, origin, Deliveries(maxAttempts), Deliveries(maxAttempts), 0, 0, Waiting)
  }

  /** A failed delivery goes back to the queue while deliveries remain. */
  function Redelivered(message: Message): Message {
    message.(phase := if message.left > 0 then Waiting else Done)
  }

  /** The job function returned: RQ forgets the message and with it the remaining deliveries. */
  function Finished(message: Message, unused: nat): Message {
    message.(phase := Done, left := 0, lost := message.lost + unused + message.left)
  }

  /** `len(queue)`: the messages waiting for a worker. */
  function Depth(messages: seq<Message>): nat {
    if messages == [] then 0
    else Depth(messages[..|messages| - 1]) + if messages[|messages| - 1].phase.Waiting? then 1 else 0
  }

  lemma {:induction false} DepthCountsWaiting(messages: seq<Message>)
    ensures Depth(messages) == |set m | 0 <= m < |messages| && messages[m].phase.Waiting?|
  {
    var waiting := set m | 0 <= m < |messages| && messages[m].phase.Waiting?;
    if messages != [] {
      var last := |messages| - 1;
      var before := messages[..last];
      DepthCountsWaiting(before);
      assert (set m | 0 <= m < |before| && before[m].phase.Waiting?) == waiting - {last};
    } else {
      assert waiting == {};
    }
  }

  class QueueService {
    var messages: seq<Message>

    constructor ()
      ensures messages == []
    {
      messages := [];
    }

    method Length() returns (depth: nat)
      ensures depth == Depth(messages)
    {
      depth := 0;
      for i := 0 to |messages|
        invariant depth == Depth(messages[..i])
      {
        assert messages[..i + 1][..i] == messages[..i];
        if messages[i].phase.Waiting? {
          depth := depth + 1;
        }
      }
      assert messages[..|messages|] == messages;
    }

    /** Redis being down is the `down` parameter: the call raises and nothing is enqueued. */
    method EnqueueVideoProcessing(job: JobId, maxAttempts: int, origin: nat, down: bool) returns (rqJobId: Option<nat>)
      modifies this
      ensures down ==> rqJobId.None? && messages == old(messages)
      ensures !down ==> rqJobId == Some(|old(messages)|)
      ensures !down ==> messages == old(messages) + [NewMessage(job, origin, maxAttempts)]
      ensures !down ==>
        var deliveries := if maxAttempts > 1 then maxAttempts else 1;
        messages == old(messages) + [Message(job, origin, deliveries, deliveries, 0, 0, Waiting)]
    {
      if down {
        return None;
      }
      var rqMaxRetries := if maxAttempts - 1 > 0 then maxAttempts - 1 else 0;
      var deliveries: nat := 1;
      if rqMaxRetries != 0 {
        deliveries := deliveries + rqMaxRetries;
      }
      rqJobId := Some(|messages|);
      messages := messages + [Message(job, origin, deliveries, deliveries, 0, 0, Waiting)];
    }
  }
}
