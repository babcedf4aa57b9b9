/** The batching client: claims are collected and committed together. */
module Archive {
  import opened RingGeometry
  import opened PackedWord
  import opened RingModel
  import opened RingInvariant
  import opened Runs
  import opened IpcQueues
  import opened ClaimFacts

  /** A writer wrapper: where its header is and how many bytes it spans. */
  datatype WriterWrapper = WriterWrapper(pos: nat, span: nat)

  /** The commits of a batch, first claim first. */
  function Commits(claims: seq<nat>): (acts: seq<Action>)
    ensures |acts| == |claims|
    ensures forall k :: 0 <= k < |claims| ==> acts[k] == Commit(claims[k])
  {
    if claims == [] then [] else Commits(claims[..|claims| - 1]) + [Commit(claims[|claims| - 1])]
  }

  /** Outstanding wrappers and the blocks behind them, in claim order. */
  ghost predicate Batch(s: State, wrappers: seq<WriterWrapper>, claims: seq<nat>) {
    && |wrappers| == |claims|
    && (forall k :: 0 <= k < |claims| ==>
          && Outstanding(s, claims[k])
          && wrappers[k] == WriterWrapper(Slot(s.n, s.log[claims[k]].start), s.log[claims[k]].len))
    && (forall j, k :: 0 <= j < k < |claims| ==> claims[j] < claims[k])
  }

  /** The messages of producer w that are claimed and neither committed nor aborted. */
  ghost function Unfinished(s: State, w: nat): set<nat> {
    set i | 0 <= i < |s.log| && Outstanding(s, i) && s.log[i].owner == w
  }

  ghost function Listed(claims: seq<nat>): set<nat> {
    set i | i in claims
  }

  /** Exactly the listed blocks have become committed; nothing else about any block has
      changed, and nothing about any agent. */
  ghost predicate CommittedBatch(s: State, claims: seq<nat>, s': State) {
    && s'.n == s.n && s'.count == s.count && s'.offset == s.offset && s'.readOffset == s.readOffset
    && s'.producers == s.producers && s'.readers == s.readers
    && s'.log == s.log && s'.contents == s.contents && s'.bytes == s.bytes
    && |s'.stages| == |s.stages|
    && forall i :: 0 <= i < |s.stages| ==> s'.stages[i] == if i in claims then Committed else s.stages[i]
  }

  class ArchivePublication {
    const queue: IpcQueue
    var toCommit: seq<WriterWrapper>
    // Log indices of the blocks behind `toCommit`.
    ghost var claims: seq<nat>

    ghost predicate Valid()
      reads this, queue, queue.ring, queue.ring.bytes
    {
      && queue.Valid() && queue.isWriter
      && Batch(queue.ring.model, toCommit, claims)
      && Listed(claims) == Unfinished(queue.ring.model, queue.id)
    }

    constructor (queue: IpcQueue)
      requires queue.Valid() && queue.isWriter && Unfinished(queue.ring.model, queue.id) == {}
      ensures Valid() && this.queue == queue && toCommit == []
    {
      this.queue := queue;
      toCommit := [];
      claims := [];
    }

    /** `is_ready`: at least one reader is counted. */
    method IsReady() returns (ready: bool)
      requires Valid()
      ensures ready <==> queue.ring.departed < queue.ring.model.count
    {
      hide Inv;
      UnwrapMeans(queue.ring.word);
      ready := UnwrapCount(queue.ring.word) > 0;
    }

    /** `claim_buffer`: the queue's claim for exactly `size` bytes, refused, rejected, waiting
        or won as the queue says; a won claim joins the batch, nothing else does. */
    method ClaimBuffer(size: Word, failures: nat, spins: nat) returns (result: ClaimResult, ghost acts: seq<Action>)
      requires Valid() && queue.ring.model.producers[queue.id] == Idle
      requires queue.ring.departed == 0 && OffsetsToSpare(queue.ring.model)
      modifies this, queue.ring`word, queue.ring`headers, queue.ring`model
      ensures Valid() && RunsFrom(old(queue.ring.model), acts, queue.ring.model)
      ensures result.Refused? <==> size + HEADER_SIZE > queue.ring.n
      ensures result.EmptyMessage? <==> size == 0
      ensures result.Refused? || result.EmptyMessage? ==> queue.ring.model == old(queue.ring.model)
      ensures !result.Refused? && !result.EmptyMessage? ==>
                ClaimOutcome(old(queue.ring.model), queue.id, size, result, queue.ring.model)
      ensures result.Claimed? ==> result.span == size + HEADER_SIZE && size + 2 * HEADER_SIZE <= queue.ring.n
      ensures size + 2 * HEADER_SIZE <= queue.ring.n ==>
                |queue.ring.model.log| <= |old(queue.ring.model).log| + 2
      ensures result.Claimed? ==> toCommit == old(toCommit) + [WriterWrapper(result.pos, result.span)]
      ensures result.Claimed? ==> claims == old(claims) + [|queue.ring.model.log| - 1]
      ensures !result.Claimed? ==> toCommit == old(toCommit) && claims == old(claims)
      ensures Unfinished(queue.ring.model, queue.id)
              == Unfinished(old(queue.ring.model), queue.id)
                 + if result.Claimed? then {|queue.ring.model.log| - 1} else {}
    {
      hide Inv, Run, After;
      ghost var s := queue.ring.model;
      result, acts := queue.ClaimBuffer(size, failures, spins);
      if !result.Refused? && !result.EmptyMessage? {
        BatchKept(s, queue.id, size, result, queue.ring.model, toCommit, claims);
        UnfinishedGrows(s, queue.id, size, result, queue.ring.model);
      }
      if result.Claimed? {
        toCommit := toCommit + [WriterWrapper(result.pos, result.span)];
        claims := claims + [|queue.ring.model.log| - 1];
      }
    }

    /** `commit`: every unfinished message of this producer becomes READY, in claim order,
        and the number of them is returned. */
    method Commit() returns (size: nat)
      requires Valid()
      modifies this, queue.ring`headers, queue.ring`model
      ensures Valid() && toCommit == [] && size == |old(toCommit)|
      ensures forall j, k :: 0 <= j < k < |old(claims)| ==> old(claims)[j] < old(claims)[k]
      ensures RunsFrom(old(queue.ring.model), Commits(old(claims)), queue.ring.model)
      ensures CommittedBatch(old(queue.ring.model), old(claims), queue.ring.model)
      ensures Unfinished(queue.ring.model, queue.id) == {}
      ensures size == |Unfinished(old(queue.ring.model), queue.id)|
    {
      hide Inv, Run, After, Apply, Enabled, Assumed, Unfinished, Listed, Batch, CommittedBatch, Slot, HeaderAt, Unwrap;
      BatchSize(queue.ring.model, toCommit, claims);
      ghost var s0 := queue.ring.model;
      size := |toCommit|;
      NoRun(s0);
      NoneCommitted(s0, claims);
      for k := 0 to |toCommit|
        invariant toCommit == old(toCommit) && claims == old(claims)
        invariant queue.Valid()
        invariant RunsFrom(s0, Commits(claims[..k]), queue.ring.model)
        invariant CommittedBatch(s0, claims[..k], queue.ring.model)
      {
        ghost var s1 := queue.ring.model;
        CommitNext(s0, s1, toCommit, claims, k);
        queue.CommitBuffer(toCommit[k].pos, claims[k]);
        ExtendRun(s0, Commits(claims[..k]), s1, RingModel.Commit(claims[k]));
        assert claims[..k + 1][..k] == claims[..k];
      }
      assert claims[..|claims|] == claims;
      NothingUnfinished(s0, queue.id, claims, queue.ring.model);
      EmptyBatch(queue.ring.model, queue.id);
      toCommit := [];
      claims := [];
    }

    /** How many messages of this producer are in the ring and no reader can get past. */
    method UncommittedMessageCount() returns (count: nat)
      requires Valid()
      ensures count == |Unfinished(queue.ring.model, queue.id)|
    {
      count := |toCommit|;
      ListedSize(claims);
    }
  }

  /** A claim leaves the batch so far as it was, and its own block comes after it. */
  lemma BatchKept(s: State, w: nat, size: nat, result: ClaimResult, s': State,
                  wrappers: seq<WriterWrapper>, claims: seq<nat>)
    requires Batch(s, wrappers, claims) && ClaimOutcome(s, w, size, result, s')
    ensures Batch(s', wrappers, claims)
    ensures result.Claimed? ==>
              Batch(s', wrappers + [WriterWrapper(result.pos, result.span)], claims + [|s'.log| - 1])
  {
    forall k | 0 <= k < |claims|
      ensures Outstanding(s', claims[k]) && s'.log[claims[k]] == s.log[claims[k]]
      ensures claims[k] < |s.log|
    {
      var i := claims[k];
      assert s'.log[..|s.log|][i] == s'.log[i];
      assert s'.stages[..|s.log|][i] == s'.stages[i];
    }
  }

  /** The next commit of a batch. */
  lemma CommitNext(s: State, s1: State, wrappers: seq<WriterWrapper>, claims: seq<nat>, k: nat)
    requires Batch(s, wrappers, claims) && k < |claims| && CommittedBatch(s, claims[..k], s1)
    ensures Enabled(s1, Commit(claims[k])) && Assumed(s1, Commit(claims[k]))
    ensures wrappers[k].pos == Slot(s1.n, s1.log[claims[k]].start)
    ensures CommittedBatch(s, claims[..k + 1], Apply(s1, Commit(claims[k])))
  {
    assert claims[..k + 1] == claims[..k] + [claims[k]];
    assert claims[k] !in claims[..k];
  }

  lemma {:induction false} ListedSize(claims: seq<nat>)
    requires forall j, k :: 0 <= j < k < |claims| ==> claims[j] < claims[k]
    ensures |Listed(claims)| == |claims|
  {
    if claims == [] {
      assert Listed(claims) == {};
    } else {
      var last := |claims| - 1;
      ListedSize(claims[..last]);
      assert Listed(claims) == Listed(claims[..last]) + {claims[last]};
      assert claims[last] !in claims[..last];
    }
  }

  /** A claim adds the new message, if any, to what the producer has not finished. */
  lemma UnfinishedGrows(s: State, w: nat, size: nat, result: ClaimResult, s': State)
    requires ClaimOutcome(s, w, size, result, s') && !result.Refused? && !result.EmptyMessage?
    ensures Unfinished(s', w) == Unfinished(s, w) + if result.Claimed? then {|s'.log| - 1} else {}
  {
    forall i | 0 <= i < |s.log| ensures s'.log[i] == s.log[i] && s'.stages[i] == s.stages[i] {
      assert s'.log[..|s.log|][i] == s'.log[i];
      assert s'.stages[..|s.log|][i] == s'.stages[i];
    }
  }

  lemma NothingUnfinished(s: State, w: nat, claims: seq<nat>, s': State)
    requires CommittedBatch(s, claims, s') && Listed(claims) == Unfinished(s, w)
    ensures Unfinished(s', w) == {}
  {
    forall i | 0 <= i < |s'.log| && Outstanding(s', i) ensures s'.log[i].owner != w {
      assert i !in Listed(claims);
    }
  }

  lemma BatchSize(s: State, wrappers: seq<WriterWrapper>, claims: seq<nat>)
    requires Batch(s, wrappers, claims)
    ensures |wrappers| == |claims| == |Listed(claims)|
    ensures forall j, k :: 0 <= j < k < |claims| ==> claims[j] < claims[k]
  {
    ListedSize(claims);
  }

  lemma NoneCommitted(s: State, claims: seq<nat>)
    ensures CommittedBatch(s, claims[..0], s)
  {
  }

  lemma EmptyBatch(s: State, w: nat)
    requires Unfinished(s, w) == {}
    ensures Batch(s, [], []) && Listed([]) == Unfinished(s, w)
  {
  }
}
