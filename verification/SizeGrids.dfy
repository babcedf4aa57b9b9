/**
 Message sizes for which every step is clean. If all messages have one size, every lap
 puts its headers at the same positions. If all totals are multiples of a common length
 that holds a header, no byte of an old offset can lie under a later flag.
 */
module SizeGrids {
  import opened RingGeometry
  import opened Broadcast
  import opened RingModel
  import opened RingInvariant
  import opened ReaderSteps
  import opened RingSafety
  import opened RingTheorems
  import opened RingBroadcast
  import opened HeaderBytes
  import opened RawRing
  import opened RawMachine
  import opened RawRuns

  /** All claims made or in hand have totals that are multiples of g. */
  ghost predicate Aligned(s: State, g: RingSize) {
    && (forall k :: 0 <= k < |s.log| ==> Slot(g, s.log[k].want + HEADER_SIZE) == 0)
    && (forall w :: 0 <= w < |s.producers| && !s.producers[w].Idle? ==> Slot(g, s.producers[w].size + HEADER_SIZE) == 0)
  }

  lemma KeepsAligned(s: State, g: RingSize, a: Action)
    requires Enabled(s, a) && (a.Begin? ==> Slot(g, a.size + HEADER_SIZE) == 0) && Aligned(s, g)
    ensures Aligned(RingStep(s, a), g)
  {
    hide Slot, Slice, Splice, RawApply;
  }

  lemma MultipleStep(g: RingSize, p: nat, total: nat)
    requires Slot(g, p) == 0 && Slot(g, total) == 0
    ensures Slot(g, p + total) == 0
  {
    var a := Laps(g, p);
    var b := Laps(g, total);
    hide Slot;
    assert p + total == (a + b) * g + 0;
    SlotUnique(g, p + total, a + b, 0);
  }

  /** Every block starts at a multiple of g within its lap. */
  lemma {:induction false} BlocksOnGrid(s: State, g: RingSize, i: nat)
    requires LayoutOk(s) && i <= |s.log| && Aligned(s, g)
    ensures Slot(g, Slot(s.n, StartAt(s.log, s.offset, i))) == 0
    ensures Slot(s.n, StartAt(s.log, s.offset, i)) + HEADER_SIZE <= s.n
  {
    hide Layout, Slot;
    RoomForHeader(s);
    if i < |s.log| { Shaped(s, i); }
    if i == 0 {
      FirstStart(s);
      ZeroSlot(s.n);
      ZeroSlot(g);
    } else {
      BlocksOnGrid(s, g, i - 1);
      Shaped(s, i - 1);
      NextStart(s, i - 1);
      var b := s.log[i - 1];
      ClaimShape(s.n, b.start, b.want + HEADER_SIZE);
      if b.kind == Normal {
        SlotAdvance(s.n, b.start, b.len);
        MultipleStep(g, Slot(s.n, b.start), b.len);
      } else {
        ZeroSlot(g);
      }
    }
  }

  lemma TouchedOnGrid(s: State, g: RingSize, a: Action)
    requires Enabled(s, a) && Placed(s, a) && LayoutOk(s) && Aligned(s, g)
    ensures Slot(g, Slot(s.n, s.log[Touched(s, a)].start)) == 0
  {
    hide Layout, Slot;
    BlocksOnGrid(s, g, Touched(s, a));
  }

  lemma CursorOnGrid(s: State, g: RingSize, r: nat)
    requires r < |s.readers| && (s.readers[r].phase.Resting? || s.readers[r].phase.Seen?) && Aligned(s, g) && Inv(s)
    ensures Slot(g, Slot(s.n, s.readers[r].cursor)) == 0
    ensures Slot(s.n, s.readers[r].cursor) + HEADER_SIZE <= s.n
  {
    hide Layout, Window, Claims, Cursors, Accounting, Headers, Payloads, Slot, Aligned;
    ReaderFacts(s, r);
    BlocksOnGrid(s, g, s.readers[r].next);
  }

  // ---------------------------------------------------------------- one size

  /** All claims have the same total t. */
  ghost predicate OneSize(s: State, t: nat) {
    && (forall k :: 0 <= k < |s.log| ==> s.log[k].want + HEADER_SIZE == t)
    && (forall w :: 0 <= w < |s.producers| && !s.producers[w].Idle? ==> s.producers[w].size + HEADER_SIZE == t)
  }

  lemma KeepsOneSize(s: State, t: nat, a: Action)
    requires Enabled(s, a) && (a.Begin? ==> a.size + HEADER_SIZE == t) && OneSize(s, t)
    ensures OneSize(RingStep(s, a), t)
  {
    hide Slot, Slice, Splice, RawApply;
  }

  lemma OneSizeIsAligned(s: State, t: RingSize)
    requires OneSize(s, t)
    ensures Aligned(s, t)
  {
    SlotUnique(t, t, 1, 0);
  }

  /** The positions at which a header can stand. */
  predicate OnGrid(n: RingSize, t: RingSize, p: nat) {
    Slot(t, p) == 0 && p + HEADER_SIZE <= n
  }

  /** At every one of them the bytes hold the record, live or cleared. */
  ghost predicate GridAgrees(s: State, t: RingSize) {
    |s.bytes| == s.n && forall p: nat :: OnGrid(s.n, t, p) ==> HeaderIn(s.bytes, p) == HeaderAt(s.headers, p)
  }

  /** No block reaches into the header of another position. */
  lemma GridApart(s: State, t: RingSize, a: Action, q: nat)
    requires HEADER_SIZE < t && Enabled(s, a) && Placed(s, a) && LayoutOk(s) && OneSize(s, t)
    requires OnGrid(s.n, t, q) && q != Slot(s.n, s.log[Touched(s, a)].start)
    ensures Disjoint(q, HEADER_SIZE, Slot(s.n, s.log[Touched(s, a)].start), s.log[Touched(s, a)].len)
  {
    hide Layout, Slot;
    var b := s.log[Touched(s, a)];
    var p := Slot(s.n, b.start);
    OneSizeIsAligned(s, t);
    TouchedOnGrid(s, t, a);
    if q < p {
      SameSlotApart(t, q, p);
    } else {
      SameSlotApart(t, p, q);
    }
  }

  lemma GridStep(s: State, t: RingSize, a: Action)
    requires HEADER_SIZE < t && Enabled(s, a) && Agrees(s, a) && OneSize(s, t)
    requires GridAgrees(s, t) && Live(s) && Inv(s)
    ensures GridAgrees(RingStep(s, a), t)
  {
    hide Inv, HeaderIn, HeaderAt, Apply, RawApply, Enabled, Agrees, Effect, Placed, OnGrid, Live, HeaderKept;
    LiveIff(s, a);
    StaysLive(s, a);
    InvLayout(s);
    if Storing(a) {
      StoreEffect(s, a);
      InLog(s, a);
      EffectSize(s, a);
      forall q: nat | OnGrid(s.n, t, q)
        ensures HeaderIn(RingStep(s, a).bytes, q) == HeaderAt(RingStep(s, a).headers, q)
      {
        GridHeader(s, t, a, q);
      }
    } else {
      QuietKeeps(s, a);
      QuietBytes(s, a);
    }
  }

  lemma InvLayout(s: State)
    requires Inv(s)
    ensures LayoutOk(s) && WindowOk(s)
  {
  }

  lemma EffectSize(s: State, a: Action)
    requires Enabled(s, a) && Touched(s, a) < |s.log| && Effect(s, a)
    ensures |RingStep(s, a).bytes| == |s.bytes| && RingStep(s, a).n == s.n
  {
    hide Slot, Splice, Slice;
  }

  lemma GridHeader(s: State, t: RingSize, a: Action, q: nat)
    requires HEADER_SIZE < t && Enabled(s, a) && Storing(a) && OneSize(s, t) && GridAgrees(s, t) && LayoutOk(s)
    requires Placed(s, a) && Effect(s, a) && HeaderKept(s, a) && OnGrid(s.n, t, q)
    ensures HeaderIn(RingStep(s, a).bytes, q) == HeaderAt(RingStep(s, a).headers, q)
  {
    hide Layout, Slot, HeaderIn, HeaderAt, Enabled, RingStep, Touched, OneSize;
    if q != Slot(s.n, s.log[Touched(s, a)].start) {
      GridApart(s, t, a, q);
      SameHeader(s.bytes, RingStep(s, a).bytes, q);
    }
  }

  /** With one size every step is clean, at any reader's cursor. */
  lemma OneSizeIsClean(s: State, t: RingSize, a: Action)
    requires HEADER_SIZE < t && Enabled(s, a) && OneSize(s, t)
    requires GridAgrees(s, t) && Keyed(s) && Inv(s)
    ensures Clean(s, a)
  {
    hide Layout, Window, Claims, Cursors, Accounting, Headers, Payloads, Slot, HeaderIn, HeaderAt, OneSize, Keyed,
         WrittenAt;
    OneSizeIsAligned(s, t);
    if a.WriteHeader? {
      StepIsPlaced(s, a);
      TouchedOnGrid(s, t, a);
      FreeHeader(s, a);
      assert OnGrid(s.n, t, Slot(s.n, s.producers[a.w].ticket.at));
    } else if a.PollLoad? || a.PollDecide? {
      CursorOnGrid(s, t, a.r);
      var p := Slot(s.n, s.readers[a.r].cursor);
      assert OnGrid(s.n, t, p);
      if !WrittenAt(s, p) {
        UnwrittenIsNotReady(s, p);
        if a.PollDecide? { NotOwnUnwritten(s, a.r); }
      }
    }
  }

  /** A run of the machine for messages of one size. Nothing is asked of flag bytes. */
  ghost predicate OneSizeRun(t: State, total: RingSize, acts: seq<Action>)
    decreases |acts|
  {
    acts == [] || (&& Enabled(t, acts[0]) && Enabled(ReadBack(t), acts[0]) && Assumed(ReadBack(t), acts[0])
                   && (acts[0].Begin? ==> acts[0].size + HEADER_SIZE == total)
                   && OneSizeRun(RawStep(t, acts[0]), total, acts[1..]))
  }

  lemma {:induction false} OneSizeRunIsClean(t: State, s: State, total: RingSize, acts: seq<Action>)
    requires HEADER_SIZE < total && OneSizeRun(t, total, acts) && Same(t, s) && OneSize(s, total)
    requires GridAgrees(s, total) && Keyed(s) && Live(s) && Inv(s)
    ensures RawRun(t, acts) && RingRun(s, acts) && AllClean(s, acts)
    ensures RawCanRun(t, acts) && Same(RawAfter(t, acts), RingAfter(s, acts))
    ensures GridAgrees(RingAfter(s, acts), total)
    decreases |acts|
  {
    hide Inv, Keyed, Live, Clean, RingStep, RawStep, Enabled, Assumed, ReadBack, Same, OneSize, GridAgrees;
    if acts != [] {
      var a := acts[0];
      CleanIsSame(t, s, a);
      OneSizeIsClean(s, total, a);
      AssumedByRecords(s, a);
      AgreesIff(s, a);
      StaysLive(s, a);
      KeyedStep(s, a);
      RingStepInv(s, a);
      KeepsOneSize(s, total, a);
      GridStep(s, total, a);
      OneSizeRunIsClean(RawStep(t, a), RingStep(s, a), total, acts[1..]);
    }
  }

  lemma FreshGrid(t: State, total: RingSize)
    requires Init(t)
    ensures OneSize(t, total) && Aligned(t, total) && GridAgrees(t, total)
  {
    forall p: nat | OnGrid(t.n, total, p) ensures HeaderIn(t.bytes, p) == ZERO_HEADER {
      ZeroHeader(t.bytes, p);
    }
  }

  lemma ZeroHeader(raw: Bytes, p: nat)
    requires forall x :: 0 <= x < |raw| ==> raw[x] == 0
    ensures HeaderIn(raw, p) == ZERO_HEADER
  {
    if p + HEADER_SIZE <= |raw| {
      var b := raw[p..p + HEADER_SIZE];
      assert forall x :: 0 <= x < HEADER_SIZE ==> b[x] == 0;
      ZeroBytes(b[0..8]);
      ZeroBytes(b[8..12]);
      ZeroBytes(b[12..16]);
    }
  }

  lemma {:induction false} ZeroBytes(b: Bytes)
    requires forall x :: 0 <= x < |b| ==> b[x] == 0
    ensures FromLittleEndian(b) == 0
  {
    if b != [] { ZeroBytes(b[1..]); }
  }

  /** For messages of one size the machine is the step system. After any of its runs, by any
      agents, the ring holds at every header position what was last written there for a
      block, live or cleared, and what a reader has been shown is the broadcast log. */
  lemma RawBytesRefineRecords(t: State, total: RingSize, acts: seq<Action>)
    requires Init(t) && HEADER_SIZE < total && OneSizeRun(t, total, acts)
    ensures RingRun(t, acts) && RawCanRun(t, acts)
    ensures var s' := RingAfter(t, acts); var t' := RawAfter(t, acts);
      && Same(t', s') && t'.bytes == s'.bytes
      && (forall p: nat :: OnGrid(t.n, total, p) ==> HeaderIn(t'.bytes, p) == HeaderAt(s'.headers, p))
      && |t'.stages| == |t'.log| == |t'.contents|
      && (exists steps :: FeedRun(EMPTY_FEED, steps) && FeedOf(t') == FeedAfter(EMPTY_FEED, steps))
      && Faithful(FeedOf(t'))
  {
    hide Inv, Live, Keyed, RawRun, RawCanRun, RawAfter, RingRun, RingAfter, AllClean, FeedRun, FeedAfter, Faithful,
         OneSizeRun, OnGrid;
    FreshFile(t);
    FreshGrid(t, total);
    OneSizeRunIsClean(t, t, total, acts);
    RingSizeStays(t, acts);
    RawOrderedBroadcast(t, acts);
  }

  lemma {:induction false} RingSizeStays(s: State, acts: seq<Action>)
    requires RingRun(s, acts)
    ensures RingAfter(s, acts).n == s.n
    decreases |acts|
  {
    if acts != [] {
      SameRingSize(s, acts[0]);
      RingSizeStays(RingStep(s, acts[0]), acts[1..]);
    }
  }

  lemma SameRingSize(s: State, a: Action)
    requires Enabled(s, a)
    ensures RingStep(s, a).n == s.n
  {
    hide Slot, Slice, Splice, RawApply;
  }

  // ---------------------------------------------------------------- totals with a common divisor

  /** Byte x of the ring lies in a block with a header that is not cleared. */
  ghost predicate Covered(s: State, x: nat) {
    exists i :: s.wiped <= i < |s.log| && i < |s.stages| && Written(s.stages[i])
                && Slot(s.n, s.log[i].start) <= x < Slot(s.n, s.log[i].start) + s.log[i].len
  }

  /** In the column of the commit flags every byte outside those blocks is zero. */
  ghost predicate ColumnClear(s: State, g: RingSize) {
    |s.bytes| == s.n && forall x: nat :: x < s.n && Slot(g, x) == 17 && !Covered(s, x) ==> s.bytes[x] == 0
  }

  lemma CoveredStays(s: State, a: Action, x: nat)
    requires Enabled(s, a) && Storing(a) && Placed(s, a) && Covered(s, x)
    requires var b := s.log[Touched(s, a)]; !(Slot(s.n, b.start) <= x < Slot(s.n, b.start) + b.len)
    ensures Covered(RingStep(s, a), x)
  {
    hide Slot, Apply, RawApply;
    StoreKeepsOthers(s, a);
    var i :| s.wiped <= i < |s.log| && i < |s.stages| && Written(s.stages[i])
      && Slot(s.n, s.log[i].start) <= x < Slot(s.n, s.log[i].start) + s.log[i].len;
    ClearsOldest(s, a);
    assert Written(RingStep(s, a).stages[i]);
  }

  lemma ClearsOldest(s: State, a: Action)
    requires Enabled(s, a) && Placed(s, a)
    ensures a.Clear? ==> Touched(s, a) == s.wiped == s.retired && Apply(s, a).wiped == s.wiped + 1
  {
    hide Slot, Splice;
  }

  lemma TouchedCovers(s: State, a: Action, x: nat)
    requires Enabled(s, a) && Storing(a) && !a.Clear? && Placed(s, a)
    requires var b := s.log[Touched(s, a)]; Slot(s.n, b.start) <= x < Slot(s.n, b.start) + b.len
    ensures Covered(RingStep(s, a), x)
  {
    hide Slot, Apply, RawApply;
    StoreKeepsOthers(s, a);
    assert Written(RingStep(s, a).stages[Touched(s, a)]);
  }

  /** Clearing leaves nothing in the column but zeros. */
  lemma ClearedColumn(s: State, a: Action, g: RingSize, x: nat)
    requires HEADER_SIZE <= g && Enabled(s, a) && a.Clear? && Placed(s, a) && Live(s)
    requires Slot(g, Slot(s.n, s.log[Touched(s, a)].start)) == 0 && Slot(g, x) == 17
    requires var b := s.log[Touched(s, a)]; Slot(s.n, b.start) <= x < Slot(s.n, b.start) + b.len
    ensures x < |s.bytes| && RingStep(s, a).bytes[x] == 0
  {
    hide Slot, HeaderIn, ClearStores, Waiters;
    var b := s.log[s.retired];
    var p := Slot(s.n, b.start);
    Cleared(s.bytes, p, b.PayloadLen());
    if x < p + 17 { SlotAdvance(g, p, x - p); }
  }

  lemma ColumnByte(s: State, a: Action, g: RingSize, x: nat)
    requires HEADER_SIZE <= g && Enabled(s, a) && Storing(a) && Placed(s, a) && Effect(s, a) && Live(s)
    requires Slot(g, Slot(s.n, s.log[Touched(s, a)].start)) == 0
    requires ColumnClear(s, g) && x < s.n && Slot(g, x) == 17 && !Covered(RingStep(s, a), x)
    ensures |RingStep(s, a).bytes| == s.n && RingStep(s, a).bytes[x] == 0
  {
    hide Slot, Apply, RawApply, Enabled, Touched, Covered, Effect, RingStep;
    EffectSize(s, a);
    var b := s.log[Touched(s, a)];
    if Slot(s.n, b.start) <= x < Slot(s.n, b.start) + b.len {
      if !a.Clear? { TouchedCovers(s, a, x); } else { ClearedColumn(s, a, g, x); }
    } else {
      if Covered(s, x) { CoveredStays(s, a, x); }
      UntouchedByte(s, a, x);
    }
  }

  lemma UntouchedByte(s: State, a: Action, x: nat)
    requires Enabled(s, a) && Touched(s, a) < |s.log| && Effect(s, a) && x < |s.bytes|
    requires var b := s.log[Touched(s, a)]; !(Slot(s.n, b.start) <= x < Slot(s.n, b.start) + b.len)
    ensures |RingStep(s, a).bytes| == |s.bytes| && RingStep(s, a).bytes[x] == s.bytes[x]
  {
    hide Slot, Apply, RawApply;
  }

  lemma ColumnStep(s: State, a: Action, g: RingSize)
    requires HEADER_SIZE <= g && Enabled(s, a) && Aligned(s, g) && ColumnClear(s, g) && Live(s) && Inv(s)
    ensures ColumnClear(RingStep(s, a), g)
  {
    hide Inv, Apply, RawApply, Enabled, Covered, Effect, Placed, Live, Aligned;
    InvLayout(s);
    SameRingSize(s, a);
    if Storing(a) {
      StoreEffect(s, a);
      InLog(s, a);
      TouchedOnGrid(s, g, a);
      EffectSize(s, a);
      forall x: nat | x < s.n && Slot(g, x) == 17 && !Covered(RingStep(s, a), x)
        ensures RingStep(s, a).bytes[x] == 0
      {
        ColumnByte(s, a, g, x);
      }
    } else {
      QuietBytes(s, a);
      QuietCovers(s, a);
    }
  }

  lemma QuietCovers(s: State, a: Action)
    requires Enabled(s, a) && !Storing(a) && Inv(s)
    ensures forall x: nat :: Covered(s, x) ==> Covered(RingStep(s, a), x)
  {
    hide Inv, Apply, RawApply, Slot;
    QuietKeeps(s, a);
    forall x: nat | Covered(s, x) ensures Covered(RingStep(s, a), x) {
      var i :| s.wiped <= i < |s.log| && i < |s.stages| && Written(s.stages[i])
        && Slot(s.n, s.log[i].start) <= x < Slot(s.n, s.log[i].start) + s.log[i].len;
      assert Written(RingStep(s, a).stages[i]);
    }
  }

  /** The flag byte of a position on the grid is in the column. */
  lemma InColumn(g: RingSize, p: nat)
    requires HEADER_SIZE <= g && Slot(g, p) == 0
    ensures Slot(g, p + 17) == 17
  {
    SlotAdvance(g, p, 17);
  }

  lemma WriterFindsZero(s: State, a: Action, g: RingSize)
    requires HEADER_SIZE <= g && Enabled(s, a) && a.WriteHeader?
    requires Aligned(s, g) && ColumnClear(s, g) && Inv(s)
    ensures Clean(s, a)
  {
    hide Layout, Window, Claims, Cursors, Accounting, Headers, Payloads, Slot, HeaderIn, Aligned;
    StepIsPlaced(s, a);
    TouchedOnGrid(s, g, a);
    var j := Touched(s, a);
    var p := Slot(s.n, s.log[j].start);
    InColumn(g, p);
    FlagByte(s.bytes, p);
    if Covered(s, p + 17) {
      var i :| s.wiped <= i < |s.log| && i < |s.stages| && Written(s.stages[i])
        && Slot(s.n, s.log[i].start) <= p + 17 < Slot(s.n, s.log[i].start) + s.log[i].len;
      OtherApart(s, a, i);
    }
  }

  /** A reader less than a lap ahead of the watermark looks at no other block's payload. */
  lemma PollerFindsZero(s: State, r: nat, g: RingSize)
    requires HEADER_SIZE <= g && Enabled(s, PollLoad(r)) && FreshLoad(s, r)
    requires Aligned(s, g) && ColumnClear(s, g) && Inv(s)
    ensures Clean(s, PollLoad(r))
  {
    hide Layout, Window, Claims, Cursors, Accounting, Headers, Payloads, Slot, HeaderIn, Aligned, Covered, WrittenAt;
    CursorOnGrid(s, g, r);
    var p := Slot(s.n, s.readers[r].cursor);
    InColumn(g, p);
    FlagByte(s.bytes, p);
    if Covered(s, p + 17) { CoverStartsHere(s, r, g); }
  }

  lemma CoverStartsHere(s: State, r: nat, g: RingSize)
    requires HEADER_SIZE <= g && Enabled(s, PollLoad(r)) && FreshLoad(s, r) && Aligned(s, g) && Inv(s)
    requires Covered(s, Slot(s.n, s.readers[r].cursor) + 17)
    requires Slot(g, Slot(s.n, s.readers[r].cursor)) == 0 && Slot(s.n, s.readers[r].cursor) + HEADER_SIZE <= s.n
    ensures WrittenAt(s, Slot(s.n, s.readers[r].cursor))
  {
    hide Layout, Window, Claims, Cursors, Accounting, Headers, Payloads, Slot, Aligned;
    var p := Slot(s.n, s.readers[r].cursor);
    var i :| s.wiped <= i < |s.log| && i < |s.stages| && Written(s.stages[i])
      && Slot(s.n, s.log[i].start) <= p + 17 < Slot(s.n, s.log[i].start) + s.log[i].len;
    var q := Slot(s.n, s.log[i].start);
    BlocksOnGrid(s, g, i);
    if p < q {
      SameSlotApart(g, p, q);
    } else if q < p {
      InsideLap(s, r, i);
    }
  }

  lemma LiveWindow(s: State, i: nat)
    requires LayoutOk(s) && WindowOk(s) && s.wiped <= i < |s.log| && Written(s.stages[i])
    ensures s.readOffset <= s.log[i].start && s.log[i].End() <= s.readOffset + s.n
    ensures Slot(s.n, s.log[i].start) + s.log[i].len <= s.n
  {
    assert BlockShape(s.n, s.log[i]);
    if s.retired < i { StartsIncrease(s.log, s.offset, s.n, s.retired, i); }
  }

  /** No live block reaches around a fresh cursor. */
  lemma InsideLap(s: State, r: nat, i: nat)
    requires Enabled(s, PollLoad(r)) && FreshLoad(s, r) && Inv(s)
    requires s.wiped <= i < |s.log| && i < |s.stages| && Written(s.stages[i])
    requires Slot(s.n, s.readers[r].cursor) + HEADER_SIZE <= s.n
    ensures var p := Slot(s.n, s.readers[r].cursor); var q := Slot(s.n, s.log[i].start);
      !(q < p < q + s.log[i].len)
  {
    hide Layout, Window, Claims, Cursors, Accounting, Headers, Payloads, Slot;
    var c, b := s.readers[r].cursor, s.log[i];
    var next := s.readers[r].next;
    ReaderFacts(s, r);
    NextAhead(s, r);
    LiveWindow(s, i);
    if i < next {
      StartsIncrease(s.log, s.offset, s.n, i, next);
      WindowDisjoint(s.n, b.start, b.len, c, 1);
    } else if next < i {
      StartsIncrease(s.log, s.offset, s.n, next, i);
      WindowDisjoint(s.n, c, 1, b.start, b.len);
    }
  }

  /** A step that an agent can vouch for by itself: it makes the tests of a cautious one, or
      there is only one reader. */
  predicate Careful(s: State, a: Action)
    requires Enabled(s, a)
  {
    Cautious(s, a) || (|s.readers| <= 1 && LoneStep(s, a))
  }

  lemma CarefulIsCautious(s: State, a: Action)
    requires Enabled(s, a) && Careful(s, a) && Inv(s)
    ensures Cautious(s, a)
  {
    hide Inv;
    if !Cautious(s, a) { LoneIsCautious(s, a); }
  }

  /** With aligned totals every careful step is clean. */
  lemma AlignedIsClean(s: State, a: Action, g: RingSize)
    requires HEADER_SIZE <= g && Enabled(s, a) && Cautious(s, a) && AllNear(s)
    requires Aligned(s, g) && ColumnClear(s, g) && Inv(s)
    ensures Clean(s, a)
  {
    hide Layout, Window, Claims, Cursors, Accounting, Headers, Payloads, Slot, HeaderIn, Aligned, ColumnClear;
    if a.WriteHeader? {
      WriterFindsZero(s, a, g);
    } else if a.PollLoad? {
      PollerFindsZero(s, a.r, g);
    } else if a.PollDecide? {
      NearIsWritten(s, a.r);
    }
  }

  lemma NearIsWritten(s: State, r: nat)
    requires Enabled(s, PollDecide(r)) && AllNear(s) && Inv(s)
    ensures WrittenAt(s, Slot(s.n, s.readers[r].cursor))
  {
    hide Layout, Window, Claims, Cursors, Accounting, Headers, Payloads, Slot;
    ReaderFacts(s, r);
    NextNotWiped(s, r);
    assert Written(s.stages[s.readers[r].next]);
  }

  /** A run of the machine in which every agent is careful and every total is a multiple of
      g. No step of it depends on what any header or flag byte holds. */
  ghost predicate AlignedRun(t: State, g: RingSize, acts: seq<Action>)
    decreases |acts|
  {
    acts == [] || (&& Enabled(t, acts[0]) && Careful(t, acts[0])
                   && (acts[0].Begin? ==> Slot(g, acts[0].size + HEADER_SIZE) == 0)
                   && AlignedRun(RawStep(t, acts[0]), g, acts[1..]))
  }

  lemma SameCare(t: State, s: State, a: Action)
    requires Enabled(t, a) && Careful(t, a) && Same(t, s)
    ensures Enabled(s, a) && Careful(s, a)
  {
    hide Slot, BumpLength;
  }

  lemma NearStays(s: State, a: Action)
    requires Enabled(s, a) && AllNear(Apply(s, a))
    ensures AllNear(RingStep(s, a))
  {
    hide Apply, RawApply;
  }

  lemma {:induction false} AlignedRunIsClean(t: State, s: State, g: RingSize, acts: seq<Action>)
    requires HEADER_SIZE <= g && AlignedRun(t, g, acts) && Same(t, s) && Aligned(s, g)
    requires ColumnClear(s, g) && AllNear(s) && Live(s) && Inv(s)
    ensures RingRun(s, acts) && AllClean(s, acts)
    decreases |acts|
  {
    hide Inv, Live, Clean, RingStep, RawStep, Enabled, Assumed, ReadBack, Same, Aligned, ColumnClear, AllNear, Cautious,
         Careful, Apply;
    if acts != [] {
      var a := acts[0];
      SameCare(t, s, a);
      CarefulIsCautious(s, a);
      CautiousStep(s, a);
      NearStays(s, a);
      AlignedIsClean(s, a, g);
      AgreesIff(s, a);
      StaysLive(s, a);
      SameSteps(t, s, a);
      RingStepInv(s, a);
      KeepsAligned(s, g, a);
      ColumnStep(s, a, g);
      AlignedRunIsClean(RawStep(t, a), RingStep(s, a), g, acts[1..]);
    }
  }

  /** If every total is a multiple of one length that holds a header, the machine is an
      ordered broadcast log for careful agents. */
  lemma AlignedBroadcast(t: State, g: RingSize, acts: seq<Action>)
    requires Init(t) && HEADER_SIZE <= g && AlignedRun(t, g, acts)
    ensures RawCanRun(t, acts)
    ensures var t' := RawAfter(t, acts);
      && |t'.stages| == |t'.log| == |t'.contents|
      && (exists steps :: FeedRun(EMPTY_FEED, steps) && FeedOf(t') == FeedAfter(EMPTY_FEED, steps))
      && Faithful(FeedOf(t'))
  {
    hide Inv, Live, Keyed, RawCanRun, RawAfter, RingRun, AllClean, FeedRun, FeedAfter, Faithful, AlignedRun;
    FreshFile(t);
    FreshColumn(t, g);
    EmptyFeed(t);
    AlignedRunIsClean(t, t, g, acts);
    TwinIsFaithful(t, t, acts);
  }

  lemma FreshColumn(t: State, g: RingSize)
    requires Init(t)
    ensures Aligned(t, g) && ColumnClear(t, g) && AllNear(t)
  {
  }
}
