/** Every reader step keeps the invariant, under the assumption made about polls. */
module ReaderSteps {
  import opened RingGeometry
  import opened Broadcast
  import opened RingModel
  import opened RingInvariant
  import opened BlockSteps

  // ---------------------------------------------------------------- steps that move no count

  lemma CursorsReader(s: State, r: nat, rd: Reader)
    requires CursorsOk(s) && r < |s.readers| && rd.join == s.readers[r].join
    requires ReaderOk(s.n, s.log, s.offset, s.stages, s.contents, s.retired, rd)
    ensures CursorsOk(s.(readers := s.readers[r := rd]))
  {
  }

  lemma SameNext(s: State, r: nat, rd: Reader)
    requires r < |s.readers| && rd.next == s.readers[r].next
    requires AccountingOk(s)
    ensures forall i {:trigger s.log[i].quorum} :: 0 <= i < |s.log| ==>
              Waiters(s.readers[r := rd], s.log[i].quorum, i) == Waiters(s.readers, s.log[i].quorum, i)
  {
    forall i | 0 <= i < |s.log|
      ensures Waiters(s.readers[r := rd], s.log[i].quorum, i) == Waiters(s.readers, s.log[i].quorum, i)
    {
      WaitersFrame(s.readers, s.readers[r := rd], s.log[i].quorum, i);
    }
  }

  lemma AccountingReader(s: State, r: nat, rd: Reader)
    requires AccountingOk(s) && r < |s.readers| && rd.next == s.readers[r].next
    requires !Closing(s.readers[r]) && !Closing(rd)
    ensures AccountingOk(s.(readers := s.readers[r := rd]))
  {
    SameNext(s, r, rd);
  }

  lemma HeadersReader(s: State, r: nat, rd: Reader)
    requires HeadersOk(s) && AccountingOk(s) && r < |s.readers| && rd.next == s.readers[r].next
    ensures HeadersOk(s.(readers := s.readers[r := rd]))
  {
    SameNext(s, r, rd);
  }

  lemma ReaderLocalInv(s: State, r: nat, rd: Reader)
    requires Inv(s) && r < |s.readers|
    requires rd.join == s.readers[r].join && rd.next == s.readers[r].next
    requires !Closing(s.readers[r]) && !Closing(rd)
    requires |s.stages| == |s.log| == |s.contents|
    requires ReaderOk(s.n, s.log, s.offset, s.stages, s.contents, s.retired, rd)
    ensures Inv(s.(readers := s.readers[r := rd]))
  {
    hide Layout, Window, Claims, Cursors, Accounting, Headers, Payloads, ReaderOk;
    CursorsReader(s, r, rd);
    AccountingReader(s, r, rd);
    HeadersReader(s, r, rd);
  }

  // ---------------------------------------------------------------- what a poll sees

  lemma ReaderFacts(s: State, r: nat)
    requires CursorsOk(s) && r < |s.readers|
    ensures |s.stages| == |s.log| == |s.contents|
    ensures ReaderOk(s.n, s.log, s.offset, s.stages, s.contents, s.retired, s.readers[r])
  {
  }

  /** A set flag belongs to a live final block at that ring position. */
  lemma TenantFacts(s: State, p: nat) returns (i: nat)
    requires LayoutOk(s) && WindowOk(s) && HeadersOk(s) && HeaderAt(s.headers, p).flag != NotReady
    ensures s.retired <= s.wiped <= i < |s.log| && |s.stages| == |s.log|
    ensures Slot(s.n, s.log[i].start) == p && s.stages[i].Final()
    ensures HeaderAt(s.headers, p) == HeaderOf(s.log[i], s.stages[i], Waiters(s.readers, s.log[i].quorum, i))
    ensures s.readOffset <= s.log[i].start && s.log[i].End() <= s.readOffset + s.n
    ensures HEADER_SIZE <= s.log[i].len
  {
    i := s.tenant[p];
    assert BlockShape(s.n, s.log[i]);
    if s.retired < i { StartsIncrease(s.log, s.offset, s.n, s.retired, i); }
  }

  lemma NextBound(s: State, r: nat)
    requires CursorsOk(s) && r < |s.readers|
    ensures s.readers[r].next <= |s.log|
  {
  }

  /** A set flag whose header carries the reader's own offset is the flag of the block
      the reader is due next. */
  lemma OwnHeader(s: State, r: nat)
    requires LayoutOk(s) && WindowOk(s) && HeadersOk(s) && CursorsOk(s) && r < |s.readers|
    requires s.readers[r].cursor == StartAt(s.log, s.offset, s.readers[r].next)
    requires PolledHeader(s, r).flag != NotReady
    requires PolledHeader(s, r).absOffset == s.readers[r].cursor
    ensures var i := s.readers[r].next;
      && s.wiped <= i < |s.log| && |s.stages| == |s.log| && s.stages[i].Final()
      && Slot(s.n, s.log[i].start) == Slot(s.n, s.readers[r].cursor)
      && PolledHeader(s, r) == HeaderOf(s.log[i], s.stages[i], Waiters(s.readers, s.log[i].quorum, i))
      && HEADER_SIZE <= s.log[i].len
  {
    hide Headers, Waiters, Cursors, Window, Layout;
    NextBound(s, r);
    var i := TenantFacts(s, Slot(s.n, s.readers[r].cursor));
    var next := s.readers[r].next;
    assert s.log[i].start == s.readers[r].cursor;
    if i < next {
      StartsIncrease(s.log, s.offset, s.n, i, next);
    } else if next < i {
      StartsIncrease(s.log, s.offset, s.n, next, i);
    }
  }

  /** A poll that finds a set flag has found the flag of its own block exactly when the
      cursor is less than a lap ahead of the watermark. One lap or more ahead, the flag
      is that of an older block which a slower reader still owes. */
  lemma FreshIffOwn(s: State, r: nat)
    requires LayoutOk(s) && WindowOk(s) && HeadersOk(s) && CursorsOk(s) && r < |s.readers|
    requires s.readers[r].cursor == StartAt(s.log, s.offset, s.readers[r].next)
    requires PolledHeader(s, r).flag != NotReady
    ensures FreshLoad(s, r) <==> PolledHeader(s, r).absOffset == s.readers[r].cursor
  {
    hide Headers, Waiters, Cursors;
    var cursor := s.readers[r].cursor;
    var next := s.readers[r].next;
    NextAhead(s, r);
    var i := TenantFacts(s, Slot(s.n, cursor));
    if s.log[i].start < cursor {
      SameSlotApart(s.n, s.log[i].start, cursor);
    } else if cursor < s.log[i].start {
      SameSlotApart(s.n, cursor, s.log[i].start);
    }
  }

  /** The watermark never passes a reader. */
  lemma NextAhead(s: State, r: nat)
    requires LayoutOk(s) && WindowOk(s) && CursorsOk(s) && r < |s.readers|
    ensures s.readOffset <= StartAt(s.log, s.offset, s.readers[r].next)
  {
    ReaderFacts(s, r);
    if s.retired < s.readers[r].next { StartsIncrease(s.log, s.offset, s.n, s.retired, s.readers[r].next); }
  }

  lemma PollLoadInv(s: State, r: nat)
    requires Inv(s) && Enabled(s, PollLoad(r))
    ensures Inv(Apply(s, PollLoad(r)))
  {
    hide Layout, Window, Claims, Cursors, Accounting, Headers, Payloads, Waiters;
    ReaderFacts(s, r);
    var s' := ApplyPollLoad(s, r);
    if PolledHeader(s, r).flag == NotReady {
      assert s' == s;
    } else {
      FreshIffOwn(s, r);
      if FreshLoad(s, r) { OwnHeader(s, r); }
      ReaderLocalInv(s, r, s'.readers[r]);
    }
  }

  // ---------------------------------------------------------------- giving back a block

  lemma BodiesNext(s: State, a: nat, i: nat)
    requires a <= i < |s.log| && |s.stages| == |s.log| == |s.contents|
    ensures Bodies(Entries(s.log, s.stages, s.contents), a, i + 1)
            == Bodies(Entries(s.log, s.stages, s.contents), a, i)
               + (if s.stages[i] == Committed && s.log[i].kind == Normal then [s.contents[i]] else [])
  {
  }

  /** A decision acts on the right block and in the right way. */
  lemma DecideOk(s: State, r: nat)
    requires Inv(s) && Enabled(s, PollDecide(r)) && Assumed(s, PollDecide(r))
    ensures |s.stages| == |s.log| == |s.contents|
    ensures ReaderOk(s.n, s.log, s.offset, s.stages, s.contents, s.retired, Apply(s, PollDecide(r)).readers[r])
  {
    hide Layout, Window, Claims, Cursors, Accounting, Headers, Payloads, Waiters;
    ReaderFacts(s, r);
    if PolledHeader(s, r).absOffset == s.readers[r].cursor {
      OwnHeader(s, r);
      BodiesNext(s, s.readers[r].join, s.readers[r].next);
      DroppedIsNormal(s, s.readers[r].next);
    }
  }

  lemma DroppedIsNormal(s: State, i: nat)
    requires WindowOk(s) && i < |s.log|
    ensures s.stages[i] == Dropped ==> s.log[i].kind == Normal
  {
  }

  lemma PollDecideInv(s: State, r: nat)
    requires Inv(s) && Enabled(s, PollDecide(r)) && Assumed(s, PollDecide(r))
    ensures Inv(Apply(s, PollDecide(r)))
  {
    hide Layout, Window, Claims, Cursors, Accounting, Headers, Payloads, ReaderOk;
    DecideOk(s, r);
    ReaderLocalInv(s, r, ApplyPollDecide(s, r).readers[r]);
  }

  lemma MarkInv(s: State, r: nat)
    requires Inv(s) && Enabled(s, MarkAsRead(r))
    ensures Inv(Apply(s, MarkAsRead(r)))
  {
    hide Layout, Window, Claims, Cursors, Accounting, Headers, Payloads;
    ReaderFacts(s, r);
    ReaderLocalInv(s, r, s.readers[r].(phase := Resting));
  }

  /** A block that a reader has not given back still has its header. */
  lemma LiveHeader(s: State, r: nat)
    requires WindowOk(s) && CursorsOk(s) && AccountingOk(s) && HeadersOk(s) && LayoutOk(s)
    requires r < |s.readers| && s.readers[r].next < |s.log| && s.stages[s.readers[r].next].Final()
    ensures var i := s.readers[r].next;
      && s.retired <= s.wiped <= i && HEADER_SIZE <= s.log[i].len
      && BlockShape(s.n, s.log[i])
      && HeaderAt(s.headers, Slot(s.n, s.log[i].start))
         == HeaderOf(s.log[i], s.stages[i], Waiters(s.readers, s.log[i].quorum, i))
  {
    NextNotWiped(s, r);
    assert BlockShape(s.n, s.log[s.readers[r].next]);
  }

  lemma LivePayload(s: State, i: nat)
    requires PayloadsOk(s) && s.wiped <= i < |s.log| && Written(s.stages[i]) && s.log[i].kind == Normal
    ensures s.contents[i] == Slice(s.bytes, Slot(s.n, s.log[i].start) + HEADER_SIZE, s.log[i].PayloadLen())
  {
  }

  lemma ReleaseInv(s: State, r: nat)
    requires Inv(s) && Enabled(s, Release(r))
    ensures Inv(Apply(s, Release(r)))
  {
    hide Layout, Window, Claims, Cursors, Accounting, Headers, Payloads, Waiters;
    ReaderFacts(s, r);
    LiveHeader(s, r);
    LivePayload(s, s.readers[r].next);
    BodiesNext(s, s.readers[r].join, s.readers[r].next);
    ReaderLocalInv(s, r, ApplyRelease(s, r).readers[r]);
  }

  // ---------------------------------------------------------------- fetch_sub

  /** The block a reader is giving back: final, not cleared, and with a header whose
      counter is the number of readers, this one included, that still owe it. */
  ghost predicate Owing(s: State, r: nat) {
    && r < |s.readers| && s.readers[r].phase.Bumped? && |s.stages| == |s.log|
    && var i := s.readers[r].next;
    && s.wiped <= i < |s.log| && s.stages[i].Final() && BlockShape(s.n, s.log[i])
    && s.readers[r].phase.pos == Slot(s.n, s.log[i].start)
    && r < s.log[i].quorum <= |s.readers|
    && HeaderAt(s.headers, s.readers[r].phase.pos)
       == HeaderOf(s.log[i], s.stages[i], Waiters(s.readers, s.log[i].quorum, i))
    && 1 <= Waiters(s.readers, s.log[i].quorum, i) < READER_LIMIT
  }

  lemma SubCount(s: State, r: nat)
    requires Inv(s) && Enabled(s, Sub(r))
    ensures Owing(s, r)
  {
    hide Layout, Window, Claims, Accounting, Headers, Payloads, Waiters;
    ReaderFacts(s, r);
    LiveHeader(s, r);
    var i := s.readers[r].next;
    WaitersBound(s.readers, s.log[i].quorum, i);
    OneWaiter(s.readers, s.log[i].quorum, i, r);
    QuorumBound(s, i);
  }

  lemma QuorumBound(s: State, i: nat)
    requires AccountingOk(s) && i < |s.log|
    ensures s.log[i].quorum <= |s.readers| < READER_LIMIT
  {
  }

  /** The last fetch_sub on a block finds every earlier block given back. */
  lemma LastIsOldest(s: State, r: nat)
    requires CursorsOk(s) && AccountingOk(s) && WindowOk(s) && r < |s.readers| && s.readers[r].phase.Bumped?
    requires s.readers[r].next < |s.log|
    requires Waiters(s.readers, s.log[s.readers[r].next].quorum, s.readers[r].next) == 1
    ensures s.readers[r].next == s.retired && s.closer == None
    ensures forall k :: 0 <= k < |s.readers| && k != r ==> s.retired < s.readers[k].next
  {
    var i := s.readers[r].next;
    ReaderFacts(s, r);
    forall k | 0 <= k < |s.readers| && k != r
      ensures i < s.readers[k].next
    {
      ReaderFacts(s, k);
      if k < s.log[i].quorum && s.readers[k].next <= i {
        TwoWaiters(s.readers, s.log[i].quorum, i, r, k);
      }
    }
    if s.closer == None && s.retired < i {
      WaitersZero(s.readers, s.log[s.retired].quorum, s.retired);
    }
  }

  lemma {:induction false} TwoWaiters(readers: seq<Reader>, q: nat, i: nat, a: nat, b: nat)
    requires a != b && a < q && b < q && a < |readers| && b < |readers|
    requires readers[a].next <= i && readers[b].next <= i
    ensures Waiters(readers, q, i) >= 2
  {
    if a == q - 1 {
      OneWaiter(readers, q - 1, i, b);
    } else if b == q - 1 {
      OneWaiter(readers, q - 1, i, a);
    } else {
      TwoWaiters(readers, q - 1, i, a, b);
    }
  }

  lemma OneWaiter(readers: seq<Reader>, q: nat, i: nat, a: nat)
    requires a < q && a < |readers| && readers[a].next <= i
    ensures Waiters(readers, q, i) >= 1
  {
    WaitersZero(readers, q, i);
  }

  lemma NextStart(s: State, i: nat)
    requires LayoutOk(s) && i < |s.log|
    ensures s.log[i].End() == StartAt(s.log, s.offset, i + 1)
  {
  }

  lemma SubCursors(s: State, r: nat)
    requires CursorsOk(s) && LayoutOk(s) && Enabled(s, Sub(r))
    ensures CursorsOk(Apply(s, Sub(r)))
  {
    hide Cursors, Layout;
    ReaderFacts(s, r);
    NextStart(s, s.readers[r].next);
    CursorsReader(s, r, ApplySub(s, r).readers[r]);
  }

  lemma SubMove(s: State, r: nat)
    requires Enabled(s, Sub(r))
    ensures forall q, i {:trigger Waiters(Apply(s, Sub(r)).readers, q, i)} ::
              Waiters(Apply(s, Sub(r)).readers, q, i)
              == Waiters(s.readers, q, i) - (if r < q && s.readers[r].next == i then 1 else 0)
  {
    forall q: nat, i: nat
      ensures Waiters(Apply(s, Sub(r)).readers, q, i)
              == Waiters(s.readers, q, i) - (if r < q && s.readers[r].next == i then 1 else 0)
    {
      WaitersMove(s.readers, r, ApplySub(s, r).readers[r], q, i);
    }
  }

  lemma SubAccounting(s: State, r: nat)
    requires Inv(s) && Enabled(s, Sub(r))
    ensures AccountingOk(Apply(s, Sub(r)))
  {
    hide Layout, Window, Claims, Cursors, Headers, Payloads, Waiters;
    SubCount(s, r);
    SubMove(s, r);
    var i := s.readers[r].next;
    var prev := Waiters(s.readers, s.log[i].quorum, i);
    if prev == 1 {
      LastIsOldest(s, r);
    } else if s.closer == None && s.retired == i {
      assert Waiters(Apply(s, Sub(r)).readers, s.log[i].quorum, i) == prev - 1;
    }
  }

  lemma SubHeaders(s: State, r: nat)
    requires Inv(s) && Enabled(s, Sub(r))
    ensures HeadersOk(Apply(s, Sub(r)))
  {
    hide Layout, Window, Claims, Cursors, Accounting, Payloads;
    SubCount(s, r);
    SubMove(s, r);
    NotClaimed(s, s.readers[r].next);
    OtherSlots(s, s.readers[r].next);
  }

  lemma NotClaimed(s: State, i: nat)
    requires WindowOk(s) && i < |s.log| && s.stages[i].Final()
    ensures s.stages[i] != Claimed && s.retired <= s.wiped
  {
  }

  lemma SubInv(s: State, r: nat)
    requires Inv(s) && Enabled(s, Sub(r))
    ensures Inv(Apply(s, Sub(r)))
  {
    hide Layout, Window, Claims, Cursors, Accounting, Headers, Payloads;
    SubCursors(s, r);
    SubAccounting(s, r);
    SubHeaders(s, r);
  }

  // ---------------------------------------------------------------- the last release

  /** The reader past its last fetch_sub is giving back the oldest block. */
  lemma CloserFacts(s: State, r: nat)
    requires LayoutOk(s) && WindowOk(s) && CursorsOk(s) && AccountingOk(s)
    requires r < |s.readers| && Closing(s.readers[r])
    ensures s.closer == Some(r) && s.retired < |s.log| && s.readers[r].next == s.retired + 1
    ensures s.stages[s.retired].Final() || s.wiped == s.retired
    ensures s.wiped == s.retired + (if s.readers[r].phase.Wiped? then 1 else 0)
    ensures BlockShape(s.n, s.log[s.retired])
    ensures s.readers[r].phase.total == s.log[s.retired].len
    ensures s.readers[r].phase.Last? ==> s.readers[r].phase.pos == Slot(s.n, s.log[s.retired].start)
    ensures s.readers[r].join <= s.retired + 1
    ensures s.readers[r].cursor == s.log[s.retired].End()
  {
    ReaderFacts(s, r);
    assert s.log[s.retired].End() == StartAt(s.log, s.offset, s.retired + 1);
  }

  /** The oldest block is final when its last reader has counted down. */
  lemma OldestFinal(s: State, r: nat)
    requires CursorsOk(s) && AccountingOk(s) && WindowOk(s) && LayoutOk(s)
    requires r < |s.readers| && s.readers[r].phase.Last?
    ensures s.retired < |s.log| == |s.stages| && s.stages[s.retired].Final()
  {
    CloserFacts(s, r);
    assert 0 < s.log[s.retired].quorum;
    ReaderFacts(s, 0);
  }

  lemma ClearCursors(s: State, r: nat)
    requires CursorsOk(s) && Enabled(s, Clear(r))
    ensures CursorsOk(Apply(s, Clear(r)))
  {
    ReaderFacts(s, r);
    CursorsReader(s, r, ApplyClear(s, r).readers[r]);
  }

  lemma ClearAccounting(s: State, r: nat)
    requires Enabled(s, Clear(r))
    requires LayoutOk(s) && WindowOk(s) && CursorsOk(s) && AccountingOk(s)
    ensures AccountingOk(Apply(s, Clear(r)))
  {
    CloserFacts(s, r);
  }

  lemma ClearWindow(s: State, r: nat)
    requires WindowOk(s) && Enabled(s, Clear(r))
    requires s.wiped == s.retired < |s.log| && s.stages[s.retired].Final()
    ensures WindowOk(Apply(s, Clear(r)))
  {
  }

  lemma ClearHeaders(s: State, r: nat)
    requires HeadersOk(s) && AccountingOk(s) && Enabled(s, Clear(r))
    requires s.wiped == s.retired < |s.log|
    requires s.readers[r].phase.pos == Slot(s.n, s.log[s.retired].start)
    requires forall j :: s.wiped <= j < |s.log| && j != s.retired && Written(s.stages[j]) ==>
               Slot(s.n, s.log[j].start) != Slot(s.n, s.log[s.retired].start)
    ensures HeadersOk(Apply(s, Clear(r)))
  {
    SameNext(s, r, ApplyClear(s, r).readers[r]);
  }

  lemma ClearPayloads(s: State, r: nat)
    requires Enabled(s, Clear(r)) && |s.stages| == |s.log|
    requires s.wiped == s.retired < |s.log| && s.stages[s.retired].Final()
    requires s.readers[r].phase.pos == Slot(s.n, s.log[s.retired].start)
    requires LayoutOk(s) && WindowOk(s) && HeadersOk(s) && PayloadsOk(s)
    ensures PayloadsOk(Apply(s, Clear(r)))
  {
    hide Layout, Window, Splice, Slice;
    var i := s.retired;
    var size := HeaderAt(s.headers, s.readers[r].phase.pos).size;
    assert size == s.log[i].PayloadLen();
    forall j | s.wiped <= j < |s.log| && j != i && Written(s.stages[j])
      ensures var from := Slot(s.n, s.log[j].start) + HEADER_SIZE;
        Slice(ApplyClear(s, r).bytes, from, s.log[j].PayloadLen()) == Slice(s.bytes, from, s.log[j].PayloadLen())
    {
      PayloadsSplice(s, i, Zeros(size), j);
    }
  }

  lemma ClearInv(s: State, r: nat)
    requires Inv(s) && Enabled(s, Clear(r))
    ensures Inv(Apply(s, Clear(r)))
  {
    hide Layout, Window, Claims, Cursors, Accounting, Headers, Payloads;
    CloserFacts(s, r);
    OldestFinal(s, r);
    OtherSlots(s, s.retired);
    ClearCursors(s, r);
    ClearAccounting(s, r);
    ClearWindow(s, r);
    ClearHeaders(s, r);
    ClearPayloads(s, r);
  }

  lemma AdvanceCursors(s: State, r: nat)
    requires Enabled(s, Advance(r))
    requires LayoutOk(s) && WindowOk(s) && CursorsOk(s) && AccountingOk(s)
    ensures CursorsOk(Apply(s, Advance(r)))
  {
    CloserFacts(s, r);
    ReaderFacts(s, r);
    CursorsReader(s, r, s.readers[r].(phase := Resting));
    var s' := ApplyAdvance(s, r);
    forall k | 0 <= k < |s.readers|
      ensures ReaderOk(s'.n, s'.log, s'.offset, s'.stages, s'.contents, s'.retired, s'.readers[k])
    {
      assert s.retired < s.readers[k].next;
    }
  }

  lemma QuorumIff(s: State, r: nat, i: nat)
    requires CursorsOk(s) && r < |s.readers|
    ensures i < |s.log| ==> (s.readers[r].join <= i <==> r < s.log[i].quorum)
  {
  }

  lemma AdvanceAccounting(s: State, r: nat)
    requires Enabled(s, Advance(r))
    requires LayoutOk(s) && WindowOk(s) && CursorsOk(s) && AccountingOk(s)
    ensures AccountingOk(Apply(s, Advance(r)))
  {
    hide Layout, Window, Cursors;
    CloserFacts(s, r);
    QuorumIff(s, r, s.retired + 1);
    var i := s.retired + 1;
    if i < |s.log| {
      OneWaiter(ApplyAdvance(s, r).readers, s.log[i].quorum, i, r);
    }
  }

  lemma AdvanceHeaders(s: State, r: nat)
    requires HeadersOk(s) && AccountingOk(s) && Enabled(s, Advance(r))
    ensures HeadersOk(Apply(s, Advance(r)))
  {
    SameNext(s, r, s.readers[r].(phase := Resting));
  }

  lemma AdvanceWindow(s: State, r: nat)
    requires Enabled(s, Advance(r))
    requires LayoutOk(s) && WindowOk(s) && CursorsOk(s) && AccountingOk(s)
    ensures WindowOk(Apply(s, Advance(r)))
  {
    CloserFacts(s, r);
    assert s.log[s.retired].End() == StartAt(s.log, s.offset, s.retired + 1);
  }

  lemma AdvanceInv(s: State, r: nat)
    requires Inv(s) && Enabled(s, Advance(r))
    ensures Inv(Apply(s, Advance(r)))
  {
    hide Layout, Window, Claims, Cursors, Accounting, Headers, Payloads;
    AdvanceCursors(s, r);
    AdvanceAccounting(s, r);
    AdvanceHeaders(s, r);
    AdvanceWindow(s, r);
  }
}
