/**
 A producer that claims ahead of its commits can wait for itself: a reachable state of a
 ring of 64 bytes.
 */
module StuckBatch {
  import opened RingGeometry
  import opened RingModel
  import opened RingTheorems
  import opened RingProgress
  import opened StalePoll

  /** A message of 10 bytes claimed and not committed, and a skip behind it. */
  lemma OpenThenSkip() returns (s: State)
    ensures Reached(s) && s.n == 64 && s.count == 2 && s.offset == 64 && s.readOffset == 0 && s.retired == 0
    ensures |s.producers| == 2 && s.producers[0] == Trying(10)
    ensures s.log == [Block(0, 28, Normal, 10, 2, 0), Block(28, 36, Padding, 10, 2, 0)]
    ensures s.stages == [Open, Committed] && |s.contents| == 2
  {
    hide Slice, Splice;
    var s0 := TwoReaders();
    var s1 := ClaimOne(s0, 0, 10);
    var s2 := ClaimOne(s1, 0, 10);
    s := Next(s2, CommitSkip(0));
  }

  /** The next message of 10 bytes is claimed past the ring's length. */
  lemma BatchBlocksItself() returns (s: State)
    ensures Reached(s) && s.n == 64 && Overcommitted(s, 0, 0)
    ensures s.producers[0].Waiting? && s.producers[0].size + 2 * HEADER_SIZE <= s.n
  {
    assert BumpLength(64, 64, 28) == 28;
    hide Slot, Slice, Splice, BumpLength, NeedsSkip;
    var s0 := OpenThenSkip();
    var s1 := Next(s0, Load(0));
    s := Next(s1, Cas(0));
  }
}
