/** Whole runs of the machine that has nothing but bytes. */
module RawRuns {
  import opened RingGeometry
  import opened Broadcast
  import opened RingModel
  import opened RingInvariant
  import opened ReaderSteps
  import opened RingBroadcast
  import opened HeaderBytes
  import opened RawRing
  import opened RawMachine

  // ---------------------------------------------------------------- agreement over runs

  /** A run of the step system over the bytes of the ring. */
  ghost predicate RingRun(s: State, acts: seq<Action>)
    decreases |acts|
  {
    acts == [] || (Enabled(s, acts[0]) && Assumed(s, acts[0]) && RingRun(RingStep(s, acts[0]), acts[1..]))
  }

  ghost function RingAfter(s: State, acts: seq<Action>): State
    requires RingRun(s, acts)
    decreases |acts|
  {
    if acts == [] then s else RingAfter(RingStep(s, acts[0]), acts[1..])
  }

  ghost predicate AllAgree(s: State, acts: seq<Action>)
    requires RingRun(s, acts)
    decreases |acts|
  {
    acts == [] || (Agrees(s, acts[0]) && AllAgree(RingStep(s, acts[0]), acts[1..]))
  }

  ghost predicate AllClean(s: State, acts: seq<Action>)
    requires RingRun(s, acts)
    decreases |acts|
  {
    acts == [] || (Clean(s, acts[0]) && AllClean(RingStep(s, acts[0]), acts[1..]))
  }

  /** The machine's own runs. */
  ghost predicate RawCanRun(t: State, acts: seq<Action>)
    decreases |acts|
  {
    acts == [] || (Enabled(t, acts[0]) && RawCanRun(RawStep(t, acts[0]), acts[1..]))
  }

  ghost function RawAfter(t: State, acts: seq<Action>): State
    requires RawCanRun(t, acts)
    decreases |acts|
  {
    if acts == [] then t else RawAfter(RawStep(t, acts[0]), acts[1..])
  }

  /** For messages of any sizes, whole runs: bytes and records agree at every step exactly
      when every step is clean. */
  lemma {:induction false} RunAgreesIff(s: State, acts: seq<Action>)
    requires RingRun(s, acts) && Live(s) && Inv(s)
    ensures AllAgree(s, acts) <==> AllClean(s, acts)
    decreases |acts|
  {
    hide Inv, Live, Agrees, Clean, RingStep, Enabled, Assumed;
    if acts != [] {
      AgreesIff(s, acts[0]);
      if Agrees(s, acts[0]) {
        RingStepInv(s, acts[0]);
        StaysLive(s, acts[0]);
        RunAgreesIff(RingStep(s, acts[0]), acts[1..]);
      }
    }
  }

  lemma StaysLive(s: State, a: Action)
    requires Enabled(s, a) && Agrees(s, a)
    ensures Live(RingStep(s, a)) && Same(RawStep(s, a), RingStep(s, a))
  {
  }

  /** While they agree, the machine goes where the step system goes, and what it holds is
      equal but for the records. */
  lemma {:induction false} AgreeingRunsCoincide(t: State, s: State, acts: seq<Action>)
    requires RingRun(s, acts) && AllAgree(s, acts) && Same(t, s)
    ensures RawCanRun(t, acts) && Same(RawAfter(t, acts), RingAfter(s, acts))
    decreases |acts|
  {
    hide Agrees, RingStep, RawStep, Enabled, Assumed, Same;
    if acts != [] {
      SameSteps(t, s, acts[0]);
      StaysLive(s, acts[0]);
      AgreeingRunsCoincide(RawStep(t, acts[0]), RingStep(s, acts[0]), acts[1..]);
    }
  }

  /** The machine does not see records. */
  lemma SameSteps(t: State, s: State, a: Action)
    requires Enabled(s, a) && Same(t, s)
    ensures Enabled(t, a) && RawStep(t, a) == RawStep(s, a)
  {
    assert ReadBack(t) == ReadBack(s);
    StillEnabled(t, a);
    StillEnabled(s, a);
  }

  // ---------------------------------------------------------------- the machine by itself

  /** Every record stands for a block that has had its header at that position, and a
      reader that has seen a flag has seen one of them. */
  ghost predicate Keyed(s: State) {
    && (forall p :: p in s.headers ==> exists k: nat :: RecordOf(s, p, k))
    && (forall r :: 0 <= r < |s.readers| && s.readers[r].phase.Seen? ==> Slot(s.n, s.readers[r].cursor) in s.headers)
  }

  ghost predicate RecordOf(s: State, p: nat, k: nat) {
    && k < |s.log| && k < |s.stages| && p in s.headers
    && s.log[k].start == s.headers[p].absOffset && Slot(s.n, s.log[k].start) == p
    && (k < s.wiped || Written(s.stages[k]))
  }

  lemma RecordStays(s: State, a: Action, p: nat, k: nat)
    requires Enabled(s, a) && RecordOf(s, p, k) && Inv(s)
    requires Storing(a) ==> Placed(s, a) && Effect(s, a) && p != Slot(s.n, s.log[Touched(s, a)].start)
    ensures RecordOf(Apply(s, a), p, k)
  {
    hide Layout, Window, Claims, Cursors, Accounting, Headers, Payloads, Slot, Slice, Splice, Effect;
    if Storing(a) {
      StoreKeepsOthers(s, a);
    } else {
      QuietKeeps(s, a);
    }
  }

  /** The touched block is the one that its position's record stands for. */
  lemma TouchedRecord(s: State, a: Action)
    requires Enabled(s, a) && Storing(a) && Placed(s, a)
    requires a.WriteHeader? ==> s.stages[Touched(s, a)] == Admitted
    ensures RecordOf(Apply(s, a), Slot(s.n, s.log[Touched(s, a)].start), Touched(s, a))
  {
    hide Slot, Slice, Splice, Waiters;
    StoreKeepsOthers(s, a);
  }

  lemma RecordsFound(s: State, a: Action)
    requires Enabled(s, a) && Keyed(s) && Live(s) && Inv(s)
    ensures forall p :: p in Apply(s, a).headers ==> exists k: nat :: RecordOf(Apply(s, a), p, k)
  {
    hide Inv, Apply, Enabled, Effect, Placed, RecordOf;
    if Storing(a) {
      StoreEffect(s, a);
      InLog(s, a);
      TouchedRecord(s, a);
    }
    forall p | p in Apply(s, a).headers ensures exists k: nat :: RecordOf(Apply(s, a), p, k) {
      if !(Storing(a) && p == Slot(s.n, s.log[Touched(s, a)].start)) {
        SameKeys(s, a, p);
        var k: nat :| RecordOf(s, p, k);
        RecordStays(s, a, p, k);
      }
    }
  }

  lemma InLog(s: State, a: Action)
    requires Enabled(s, a) && Placed(s, a)
    ensures Touched(s, a) < |s.log| == |s.stages|
    ensures a.WriteHeader? ==> s.stages[Touched(s, a)] == Admitted
  {
  }

  lemma SameKeys(s: State, a: Action, p: nat)
    requires Enabled(s, a) && p in Apply(s, a).headers
    requires Storing(a) ==> Placed(s, a) && p != Slot(s.n, s.log[Touched(s, a)].start)
    ensures p in s.headers
  {
    hide Slot, Slice, Splice;
  }

  lemma SeenFound(s: State, a: Action)
    requires Enabled(s, a) && Keyed(s)
    ensures var s' := Apply(s, a);
      forall r :: 0 <= r < |s'.readers| && s'.readers[r].phase.Seen? ==> Slot(s'.n, s'.readers[r].cursor) in s'.headers
  {
    hide Slot, Slice, Splice, RecordOf;
  }

  lemma KeyedStep(s: State, a: Action)
    requires Enabled(s, a) && Keyed(s) && Live(s) && Inv(s)
    ensures Keyed(RingStep(s, a))
  {
    hide Inv, Apply, Enabled, RecordOf;
    RecordsFound(s, a);
    SeenFound(s, a);
    forall p, k: nat | RecordOf(Apply(s, a), p, k) ensures RecordOf(RingStep(s, a), p, k) {
      SameRecord(s, a, p, k);
    }
  }

  lemma SameRecord(s: State, a: Action, p: nat, k: nat)
    requires Enabled(s, a) && RecordOf(Apply(s, a), p, k)
    ensures RecordOf(RingStep(s, a), p, k)
  {
    hide Apply, RawApply, Slot;
  }

  /** The step system is never asked for more than the machine: what the bytes show of a
      decision's assumption, its record shows too. */
  lemma AssumedByRecords(s: State, a: Action)
    requires Enabled(s, a) && Enabled(ReadBack(s), a) && Assumed(ReadBack(s), a) && Clean(s, a)
    requires Keyed(s) && Live(s) && Inv(s)
    ensures Assumed(s, a)
  {
    hide Inv, Keyed, Live, HeaderIn, HeaderAt, HeadersIn, Slot, WrittenAt;
    if a.PollDecide? {
      var p := LoadedAt(s, a);
      DecodedAt(s.bytes, p);
      if WrittenAt(s, p) {
        LiveLoad(s, p);
      } else {
        UnwrittenIsNotReady(s, p);
        NotOwnUnwritten(s, a.r);
      }
    }
  }

  /** A record where no block has its header is not that of the block due next. */
  lemma NotOwnUnwritten(s: State, r: nat)
    requires r < |s.readers| && s.readers[r].phase.Seen? && !WrittenAt(s, Slot(s.n, s.readers[r].cursor))
    requires Keyed(s) && Inv(s)
    ensures PolledHeader(s, r).absOffset != s.readers[r].cursor
  {
    hide Window, Claims, Accounting, Headers, Payloads, Slot, Cursors, Layout;
    var p := Slot(s.n, s.readers[r].cursor);
    var k: nat :| RecordOf(s, p, k);
    ReaderFacts(s, r);
    NextNotWiped(s, r);
    var next := s.readers[r].next;
    assert p in s.headers && HeaderAt(s.headers, p).absOffset == s.log[k].start;
    if k < next { StartsIncrease(s.log, s.offset, s.n, k, next); }
  }

  /** A run of the machine, by itself: every step enabled, and its assumption met and clean
      by what the bytes show. */
  ghost predicate RawRun(t: State, acts: seq<Action>)
    decreases |acts|
  {
    acts == [] || (&& Enabled(t, acts[0]) && Enabled(ReadBack(t), acts[0]) && Assumed(ReadBack(t), acts[0])
                   && Clean(t, acts[0]) && RawRun(RawStep(t, acts[0]), acts[1..]))
  }

  lemma CleanIsSame(t: State, s: State, a: Action)
    requires Enabled(t, a) && Same(t, s)
    ensures Enabled(s, a) && (Clean(t, a) <==> Clean(s, a))
    ensures ReadBack(t) == ReadBack(s) && RawStep(t, a) == RawStep(s, a)
  {
    hide Slot, HeaderIn;
    StillEnabled(t, a);
    StillEnabled(s, a);
    assert ReadBack(t) == ReadBack(s);
    SameWritten(t, s);
  }

  lemma SameWritten(t: State, s: State)
    requires Same(t, s)
    ensures forall p: nat :: WrittenAt(t, p) <==> WrittenAt(s, p)
  {
  }

  /** It has a twin in the step system. */
  lemma {:induction false} RawRunHasTwin(t: State, s: State, acts: seq<Action>)
    requires RawRun(t, acts) && Same(t, s) && Keyed(s) && Live(s) && Inv(s)
    ensures RingRun(s, acts) && AllClean(s, acts)
    decreases |acts|
  {
    hide Inv, Keyed, Live, Clean, RingStep, RawStep, Enabled, Assumed, ReadBack, Same;
    if acts != [] {
      var a := acts[0];
      CleanIsSame(t, s, a);
      AssumedByRecords(s, a);
      AgreesIff(s, a);
      StaysLive(s, a);
      KeyedStep(s, a);
      RingStepInv(s, a);
      RawRunHasTwin(RawStep(t, a), RingStep(s, a), acts[1..]);
    }
  }

  // ---------------------------------------------------------------- broadcast

  ghost function RingFeedSteps(s: State, acts: seq<Action>): seq<FeedStep>
    requires RingRun(s, acts)
    decreases |acts|
  {
    if acts == [] then [] else [FeedStepOf(s, acts[0])] + RingFeedSteps(RingStep(s, acts[0]), acts[1..])
  }

  lemma SameFeed(s: State, a: Action)
    requires Enabled(s, a)
    requires |Apply(s, a).stages| == |Apply(s, a).log| == |Apply(s, a).contents|
    ensures var s' := RingStep(s, a);
      |s'.stages| == |s'.log| == |s'.contents| && FeedOf(s') == FeedOf(Apply(s, a))
  {
    hide Apply, RawApply, Entries, Subscribers;
  }

  lemma {:induction false} RingRefinesFeed(s: State, acts: seq<Action>)
    requires RingRun(s, acts) && AllClean(s, acts) && Live(s) && Inv(s)
    ensures |s.stages| == |s.log| == |s.contents|
    ensures var s' := RingAfter(s, acts);
      && |s'.stages| == |s'.log| == |s'.contents|
      && FeedRun(FeedOf(s), RingFeedSteps(s, acts))
      && FeedOf(s') == FeedAfter(FeedOf(s), RingFeedSteps(s, acts))
    decreases |acts|
  {
    hide Inv, Live, Clean, RingStep, Enabled, Assumed, Apply, FeedOf, FeedStepOf, Allowed, Take;
    InvLengths(s);
    if acts != [] {
      var a := acts[0];
      var s1 := RingStep(s, a);
      RefineStep(s, a);
      SameFeed(s, a);
      AgreesIff(s, a);
      StaysLive(s, a);
      RingStepInv(s, a);
      RingRefinesFeed(s1, acts[1..]);
      var steps := RingFeedSteps(s, acts);
      assert steps[0] == FeedStepOf(s, a) && steps[1..] == RingFeedSteps(s1, acts[1..]);
    }
  }

  lemma InvLengths(s: State)
    requires Inv(s)
    ensures |s.stages| == |s.log| == |s.contents|
  {
    hide Layout, Window, Claims, Accounting, Headers, Payloads;
    SameLengths(s);
  }

  lemma FreshFile(t: State)
    requires Init(t)
    ensures Inv(t) && Live(t) && Keyed(t)
  {
    InitInv(t);
  }

  /** The queue is an ordered broadcast log as bytes, too, for messages of any sizes. After
      every clean run of the machine from a fresh file, each reader has been shown exactly
      the messages claimed since it joined, in claim order, each once, with the bytes that
      lay in the ring when its producer committed. */
  lemma RawOrderedBroadcast(t: State, acts: seq<Action>)
    requires Init(t) && RawRun(t, acts)
    ensures RawCanRun(t, acts)
    ensures var t' := RawAfter(t, acts);
      && |t'.stages| == |t'.log| == |t'.contents|
      && (exists steps :: FeedRun(EMPTY_FEED, steps) && FeedOf(t') == FeedAfter(EMPTY_FEED, steps))
      && Faithful(FeedOf(t'))
  {
    hide Inv, Live, Keyed, RawRun, RawCanRun, RawAfter, RingRun, RingAfter, AllClean, AllAgree, FeedRun, FeedAfter,
         Faithful;
    FreshFile(t);
    EmptyFeed(t);
    RawRunHasTwin(t, t, acts);
    TwinIsFaithful(t, t, acts);
  }

  /** From a fresh file, for messages of any sizes: the bytes and the records never part
      exactly when every step is clean. */
  lemma FreshRunAgreesIff(t: State, acts: seq<Action>)
    requires Init(t) && RingRun(t, acts)
    ensures AllAgree(t, acts) <==> AllClean(t, acts)
  {
    hide Inv, Live, Keyed, RingRun, AllAgree, AllClean;
    FreshFile(t);
    RunAgreesIff(t, acts);
  }

  lemma EmptyFeed(t: State)
    requires Init(t)
    ensures |t.stages| == |t.log| == |t.contents| && FeedOf(t) == EMPTY_FEED
  {
    assert FeedOf(t) == EMPTY_FEED;
  }

  lemma TwinIsFaithful(t: State, s: State, acts: seq<Action>)
    requires RingRun(s, acts) && AllClean(s, acts) && Same(t, s) && Live(s) && Inv(s)
    requires |s.stages| == |s.log| == |s.contents| && FeedOf(s) == EMPTY_FEED
    ensures RawCanRun(t, acts)
    ensures var t' := RawAfter(t, acts);
      && |t'.stages| == |t'.log| == |t'.contents|
      && (exists steps :: FeedRun(EMPTY_FEED, steps) && FeedOf(t') == FeedAfter(EMPTY_FEED, steps))
      && Faithful(FeedOf(t'))
  {
    hide Inv, Live, RawCanRun, RawAfter, RingRun, RingAfter, AllClean, AllAgree, FeedRun, FeedAfter, RingFeedSteps;
    RunAgreesIff(s, acts);
    AgreeingRunsCoincide(t, s, acts);
    RingRefinesFeed(s, acts);
    FaithfulRun(EMPTY_FEED, RingFeedSteps(s, acts));
    assert FeedOf(RawAfter(t, acts)) == FeedOf(RingAfter(s, acts));
  }
}
