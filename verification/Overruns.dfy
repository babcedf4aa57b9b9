/**
 What happens when a join or a claim is made outside its assumption. Nothing else is
 assumed of these runs: every step is any step that the code can take.
 */
module Overruns {
  import opened RingGeometry
  import opened RingModel
  import opened RingInvariant
  import opened RingSafety
  import opened Runs
  import opened RingTheorems

  // ---------------------------------------------------------------- a claim that counts no reader

  /** The assertion at the end of a release (288). */
  predicate AssertionHolds(s: State, a: Action)
    requires Enabled(s, a)
  {
    a.Advance? ==> s.readOffset + s.readers[a.r].phase.total == s.readers[a.r].cursor
  }

  /** Below 2^56. */
  predicate OffsetFits(s: State, a: Action)
    requires Enabled(s, a)
  {
    a.Cas? ==> s.offset + BumpLength(s.n, s.offset, s.producers[a.w].size + HEADER_SIZE) < OFFSET_LIMIT
  }

  /** A run in which the assertion never fails and the write offset does not wrap. */
  ghost predicate CheckedRun(s: State, acts: seq<Action>)
    decreases |acts|
  {
    acts == [] || (Enabled(s, acts[0]) && AssertionHolds(s, acts[0]) && OffsetFits(s, acts[0])
                   && CheckedRun(Apply(s, acts[0]), acts[1..]))
  }

  /** What a reader has moved over and not yet added to the watermark. */
  function InHand(rd: Reader): nat {
    match rd.phase
    case Bumped(_, total) => total
    case Last(_, total) => total
    case Wiped(total) => total
    case _ => 0
  }

  /** Every reader is d bytes or more ahead of a watermark that has not moved. */
  ghost predicate LeftBehind(s: State, d: nat) {
    && s.readOffset == 0 && s.retired == 0 && 0 < d <= s.offset
    && forall r :: 0 <= r < |s.readers| ==> s.readers[r].cursor >= d + InHand(s.readers[r])
  }

  lemma LeftBehindStep(s: State, a: Action, d: nat)
    requires Enabled(s, a) && AssertionHolds(s, a) && OffsetFits(s, a) && LeftBehind(s, d)
    ensures LeftBehind(Apply(s, a), d)
  {
    hide Slot, Slice, Splice, BumpLength, NeedsSkip;
  }

  /** Nothing has been retired, nothing past the first lap can be granted, and a reader at
      the end of a release is about to fail the assertion. */
  ghost predicate Stopped(s: State) {
    && s.retired == 0 && s.readOffset == 0
    && (forall w: nat :: Enabled(s, Grant(w)) ==> s.producers[w].ticket.at + s.producers[w].ticket.bump <= s.n)
    && (forall r: nat :: Enabled(s, Advance(r)) ==> !AssertionHolds(s, Advance(r)))
  }

  lemma {:induction false} LeftBehindForever(s: State, acts: seq<Action>, d: nat)
    requires CheckedRun(s, acts) && LeftBehind(s, d)
    ensures FreeRun(s, acts) && LeftBehind(FreeAfter(s, acts), d)
    decreases |acts|
  {
    hide LeftBehind, AssertionHolds, OffsetFits, Enabled, Apply;
    if acts != [] {
      LeftBehindStep(s, acts[0], d);
      LeftBehindForever(Apply(s, acts[0]), acts[1..], d);
    }
  }

  lemma BehindIsStopped(s: State, d: nat)
    requires LeftBehind(s, d)
    ensures Stopped(s)
  {
  }

  /** A claim made while no reader is counted stops the ring. No reader ever owes it, and
      in every further run, as long as the code's own assertion holds, no block is retired,
      nothing past the first lap is granted, and whichever reader first comes to the end
      of a release fails the assertion. */
  lemma OrphanStopsRing(s: State, w: nat, acts: seq<Action>)
    requires Enabled(s, Cas(w)) && OffsetFits(s, Cas(w)) && s.count == 0 && Reached(s)
    requires CheckedRun(Apply(s, Cas(w)), acts)
    ensures var s' := Apply(s, Cas(w));
      && |s.log| < |s'.log| && s'.log[|s.log|].quorum == 0
      && FreeRun(s', acts) && Stopped(FreeAfter(s', acts))
  {
    hide CheckedRun, FreeRun, FreeAfter, LeftBehind, Stopped, Apply, Enabled, OffsetFits;
    OrphanIsFirst(s, w);
    var s' := Apply(s, Cas(w));
    LeftBehindForever(s', acts, s'.log[0].len);
    BehindIsStopped(FreeAfter(s', acts), s'.log[0].len);
  }

  /** In a reachable state such a claim is the very first one. */
  lemma OrphanIsFirst(s: State, w: nat)
    requires Enabled(s, Cas(w)) && OffsetFits(s, Cas(w)) && s.count == 0 && Reached(s)
    ensures var s' := Apply(s, Cas(w));
      && s.log == [] && s.readers == []
      && |s'.log| == 1 && s'.log[0].quorum == 0 && LeftBehind(s', s'.log[0].len)
  {
    hide Window, Claims, Payloads, Cursors, Headers, Slot;
    ReachedInv(s);
    NobodyYetCounted(s);
    FirstStart(s);
    WatermarkStart(s);
    SizeBound(s, w);
    RoomForHeader(s);
    ClaimShape(s.n, s.offset, s.producers[w].size + HEADER_SIZE);
  }

  lemma Counted(s: State)
    requires LayoutOk(s) && AccountingOk(s)
    ensures s.log == [] || |s.readers| > 0
  {
    if |s.log| > 0 { assert BlockShape(s.n, s.log[0]); }
  }

  lemma NobodyYetCounted(s: State)
    requires LayoutOk(s) && AccountingOk(s) && s.count == 0
    ensures s.readers == [] && s.log == []
  {
    Counted(s);
  }

  // ---------------------------------------------------------------- a 256th join

  ghost predicate FreeReached(s: State) {
    exists s0, acts :: Init(s0) && FreeRun(s0, acts) && FreeAfter(s0, acts) == s
  }

  lemma Free(s: State, a: Action) returns (s': State)
    requires Enabled(s, a) && FreeReached(s)
    ensures s' == Apply(s, a) && FreeReached(s')
  {
    hide Enabled, Apply;
    var s0, acts :| Init(s0) && FreeRun(s0, acts) && FreeAfter(s0, acts) == s;
    FreeExtend(s0, acts, a);
    s' := Apply(s, a);
  }

  lemma ReachedIsFree(s: State)
    requires Reached(s)
    ensures FreeReached(s)
  {
    var s0, acts :| RunsTo(s0, acts, s);
    RunIsFree(s0, acts);
  }

  /** A ring of 64 bytes, one producer, k readers that have joined. */
  ghost predicate Joined(s: State, k: nat) {
    && s.n == 64 && s.count == k % READER_LIMIT && s.offset == 0 && s.readOffset == 0
    && s.headers == map[] && s.producers == [Idle] && s.log == [] && s.stages == [] && s.contents == []
    && |s.readers| == k && forall r :: 0 <= r < k ==> s.readers[r] == Reader(0, 0, 0, Resting, [])
  }

  lemma {:induction false} ManyReaders(k: nat) returns (s: State)
    ensures FreeReached(s) && Joined(s, k)
  {
    if k == 0 {
      s := State(64, 0, 0, 0, map[], Zeros(64), [Idle], [], [], [], [], 0, 0, None, map[]);
      assert FreeRun(s, []) && FreeAfter(s, []) == s;
    } else {
      var s0 := ManyReaders(k - 1);
      s := Free(s0, Join);
    }
  }

  /** One message claimed with its header written: the counter is the low byte of the
      readers counted. */
  lemma ClaimWrapped(s: State, k: nat) returns (s': State)
    requires FreeReached(s) && Joined(s, k) && k == READER_LIMIT
    ensures FreeReached(s') && s'.readers == s.readers && s'.n == 64 && s'.readOffset == 0
    ensures s'.log == [Block(0, 28, Normal, 10, 0, 0)] && s'.stages == [Open] && |s'.contents| == 1
    ensures s'.headers == map[0 := Header(0, 10, Normal, 0, NotReady)]
  {
    assert Slot(64, 0) == 0;
    hide Slice, Splice;
    var s1 := Free(s, Begin(0, 10));
    var s2 := Free(s1, Load(0));
    var s3 := Free(s2, Cas(0));
    var s4 := Free(s3, Grant(0));
    s' := Free(s4, WriteHeader(0));
  }

  /** Reader 0 polls the message and starts to give it back. */
  lemma FirstReader(s: State) returns (s': State)
    requires FreeReached(s) && |s.readers| == READER_LIMIT
    requires forall r :: 0 <= r < READER_LIMIT ==> s.readers[r] == Reader(0, 0, 0, Resting, [])
    requires s.n == 64 && s.headers == map[0 := Header(0, 10, Normal, 0, Ready)]
    ensures FreeReached(s') && s' == s.(readers := s'.readers)
    ensures |s'.readers| == |s.readers| && s'.readers == s.readers[0 := s'.readers[0]]
    ensures s'.readers[0].phase == Bumped(0, 28) && s'.readers[0].next == 0
  {
    assert Slot(64, 0) == 0;
    hide Slice, Splice, ApplySub, ApplyClear, ApplyAdvance;
    var s1 := Free(s, PollLoad(0));
    var s2 := Free(s1, PollDecide(0));
    s' := Free(s2, Release(0));
    assert s'.readers == s.readers[0 := s'.readers[0]];
  }

  lemma Published() returns (s: State)
    ensures FreeReached(s) && |s.readers| == READER_LIMIT && s.n == 64 && s.readOffset == 0
    ensures forall r :: 0 <= r < READER_LIMIT ==> s.readers[r] == Reader(0, 0, 0, Resting, [])
    ensures s.log == [Block(0, 28, Normal, 10, 0, 0)] && s.stages == [Committed]
    ensures s.headers == map[0 := Header(0, 10, Normal, 0, Ready)]
  {
    assert Slot(64, 0) == 0;
    hide Slice, Splice, Slot, ApplyPollLoad, ApplyPollDecide, ApplyRelease, ApplyCas, ApplyWriteHeader, View;
    var s0 := ManyReaders(READER_LIMIT);
    var s1 := ClaimWrapped(s0, READER_LIMIT);
    s := Free(s1, Commit(0));
  }

  /** The 256th join wraps the count to zero. The next message is owed by 256 readers and
      counts none, so the first of them to give it back acts as the last: it clears the
      header and moves the watermark, and none of the other 255 can ever poll it. */
  lemma JoinWrapLosesMessage() returns (s: State)
    ensures FreeReached(s) && |s.readers| == READER_LIMIT && |s.log| == |s.stages| == 1
    ensures s.stages[0] == Committed && s.log[0].kind == Normal && s.log[0].quorum == 0
    ensures s.readOffset == s.log[0].End()
    ensures forall r :: 0 < r < READER_LIMIT ==>
              r in Owers(s.readers, 0) && s.readers[r].phase.Resting? && PolledHeader(s, r).flag == NotReady
  {
    assert Slot(64, 0) == 0;
    hide Slot, FreeReached, HeaderAt;
    var s1 := Published();
    var s2 := FirstReader(s1);
    s := LastByMistake(s2);
  }

  lemma LastByMistake(s: State) returns (s': State)
    requires FreeReached(s) && |s.readers| > 0 && s.readers[0].phase == Bumped(0, 28)
    requires s.headers == map[0 := Header(0, 10, Normal, 0, Ready)] && s.readOffset == 0
    ensures FreeReached(s') && s'.n == s.n && s'.log == s.log && s'.stages == s.stages && s'.readOffset == 28
    ensures |s'.readers| == |s.readers| && forall r :: 0 < r < |s.readers| ==> s'.readers[r] == s.readers[r]
    ensures HeaderAt(s'.headers, 0).flag == NotReady
  {
    hide Slice, Splice, Slot, ApplyPollLoad, ApplyPollDecide, ApplyRelease;
    var s1 := ZeroSub(s);
    var s2 := Free(s1, Clear(0));
    s' := Free(s2, Advance(0));
  }

  lemma ZeroSub(s: State) returns (s': State)
    requires FreeReached(s) && |s.readers| > 0 && s.readers[0].phase == Bumped(0, 28)
    requires HeaderAt(s.headers, 0).numReaders == 0
    ensures FreeReached(s') && s' == s.(headers := s'.headers, readers := s'.readers, closer := s'.closer)
    ensures |s'.readers| == |s.readers| && s'.readers[0].phase == Last(0, 28)
    ensures forall r :: 0 < r < |s.readers| ==> s'.readers[r] == s.readers[r]
  {
    hide Slice, Splice, Slot, ApplyPollLoad, ApplyPollDecide, ApplyRelease, ApplyClear, ApplyAdvance;
    s' := Free(s, Sub(0));
  }

  // ---------------------------------------------------------------- an offset of 2^56

  /** A claim that reaches 2^56 starts the offsets over. */
  lemma OffsetStartsOver(s: State, w: nat)
    requires Enabled(s, Cas(w)) && !OffsetFits(s, Cas(w)) && Reached(s)
    ensures Apply(s, Cas(w)).offset < s.n
  {
    hide Window, Claims, Payloads, Cursors, Accounting, Headers, Slot;
    ReachedInv(s);
    OffsetBound(s);
  }

  lemma OffsetBound(s: State)
    requires LayoutOk(s)
    ensures s.offset < OFFSET_LIMIT && s.n <= MAX_QUEUE_SIZE
  {
  }

  /** A claim that ends below the watermark waits for ever: the wait's subtraction is
      unsigned and the watermark only grows. */
  lemma {:induction false} StrandedClaimWaits(s: State, w: nat, acts: seq<Action>)
    requires FreeRun(s, acts) && w < |s.producers| && s.producers[w].Waiting?
    requires s.producers[w].ticket.at + s.producers[w].ticket.bump < s.readOffset
    ensures var s' := FreeAfter(s, acts);
      w < |s'.producers| && s'.producers[w] == s.producers[w] && !Enabled(s', Grant(w))
    decreases |acts|
  {
    if acts != [] {
      StrandedStep(s, w, acts[0]);
      StrandedClaimWaits(Apply(s, acts[0]), w, acts[1..]);
    }
  }

  lemma StrandedStep(s: State, w: nat, a: Action)
    requires Enabled(s, a) && w < |s.producers| && s.producers[w].Waiting?
    requires s.producers[w].ticket.at + s.producers[w].ticket.bump < s.readOffset
    ensures w < |Apply(s, a).producers| && Apply(s, a).producers[w] == s.producers[w]
    ensures s.readOffset <= Apply(s, a).readOffset
  {
    hide Slot, Slice, Splice;
  }
}
