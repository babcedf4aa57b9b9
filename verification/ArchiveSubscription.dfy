/** The client that hands polled messages to a handler. */
module Subscription {
  import opened Broadcast
  import opened RingModel
  import opened RingInvariant
  import opened Runs
  import opened IpcQueues
  import opened QueueFacts

  // FragmentAction::ABORT; every other answer of the handler is taken for CONTINUE.
  const ABORT: Byte := 1

  /** What one poll of a subscription comes to: the message shown, if the block due after
      skips and aborted messages is a committed one, has been given back and received once;
      otherwise nothing has. */
  ghost predicate Consumed(s: State, r: nat, shown: Option<Bytes>, s': State) {
    && OnlyReader(s, r, s') && |s.stages| == |s.log| == |s.contents| && s.readers[r].next <= |s.log|
    && s'.readers[r].phase == Resting
    && var k := NextDue(s.log, s.stages, s.readers[r].next);
    if k < |s.log| && s.stages[k] == Committed
    then shown == Some(s.contents[k]) && s'.readers[r].next == k + 1
         && s'.readers[r].inbox == s.readers[r].inbox + [s.contents[k]]
    else shown == None && s'.readers[r].next == k && s'.readers[r].inbox == s.readers[r].inbox
  }

  class ArchiveSubscription {
    const queue: IpcQueue

    constructor (queue: IpcQueue)
      ensures this.queue == queue
    {
      this.queue := queue;
    }

    /** `poll`. `answer` is what the handler returns for the bytes it is shown. On ABORT the
        wrapper is marked to be kept, but the switch falls through and releases it all the
        same, and `release` does not look at the mark. So the answer makes no difference. */
    method Poll(answer: Byte) returns (shown: Option<Bytes>, marked: bool, ghost acts: seq<Action>)
      requires !queue.isWriter && queue.id < |queue.ring.model.readers|
      requires queue.ring.model.readers[queue.id].phase.Resting? && AbortsAreOwn(queue.ring.model, queue.id)
      requires queue.Valid()
      modifies queue`absReadOffset, queue.ring`headers, queue.ring`readOffset, queue.ring`model, queue.ring.bytes
      ensures RunsFrom(old(queue.ring.model), acts, queue.ring.model)
      ensures Consumed(old(queue.ring.model), queue.id, shown, queue.ring.model)
      ensures marked <==> shown.Some? && answer == ABORT
      ensures queue.Valid()
    {
      hide Inv, Run, After, AbortsAreOwn;
      ghost var s0 := queue.ring.model;
      var reader: PollResult;
      shown, marked := None, false;
      reader, acts := queue.PollBuffer();
      ghost var s1 := queue.ring.model;
      PolledLengths(s0, queue.id, reader, s1);
      if reader.Wrapper? {
        var body := queue.GetAsView(reader.pos, reader.span);
        shown := Some(body);
        if answer == ABORT {
          marked := true;
        }
        ghost var release := ReleaseActs(s1, queue.id, Action.Release(queue.id), reader.pos);
        queue.Release(reader.pos);
        RunAppend(s0, acts, s1, release, queue.ring.model);
        acts := acts + release;
      }
    }
  }

  lemma PolledLengths(s: State, r: nat, result: PollResult, s': State)
    requires Polled(s, r, result, s') && Inv(s')
    ensures |s.stages| == |s.log| == |s.contents|
  {
    SameLengths(s');
  }
}
