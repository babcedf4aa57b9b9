/** What holds in every state that a run from a fresh file can reach. */
module RingTheorems {
  import opened RingGeometry
  import opened Broadcast
  import opened RingModel
  import opened RingInvariant
  import opened BlockSteps
  import opened ReaderSteps
  import opened RingSafety
  import opened Runs

  ghost predicate RunsTo(s0: State, acts: seq<Action>, s: State) {
    Init(s0) && RunsFrom(s0, acts, s)
  }

  ghost predicate Reached(s: State) {
    exists s0, acts :: RunsTo(s0, acts, s)
  }

  lemma ReachedInv(s: State)
    requires Reached(s)
    ensures Inv(s)
  {
    var s0, acts :| RunsTo(s0, acts, s);
    Reachable(s0, acts);
  }

  // ---------------------------------------------------------------- the log and the ring

  ghost predicate Holds(log: seq<Block>, i: nat, x: nat) {
    i < |log| && log[i].start <= x < log[i].End()
  }

  /** The claims tile the log: an offset lies below the write offset exactly when it lies
      in a claimed block, and then in only one. */
  lemma ClaimsTile(s: State, x: nat)
    requires Reached(s)
    ensures x < s.offset <==> exists i :: Holds(s.log, i, x)
    ensures forall i, j :: Holds(s.log, i, x) && Holds(s.log, j, x) ==> i == j
  {
    hide Layout, Window, Claims, Payloads, Cursors, Accounting, Headers, Slot;
    ReachedInv(s);
    if x < s.offset {
      FirstStart(s);
      var i := Locate(s, |s.log|, x);
    }
    if exists i :: Holds(s.log, i, x) {
      var i :| Holds(s.log, i, x);
      StartsIncrease(s.log, s.offset, s.n, i, |s.log|);
    }
    forall i: nat, j: nat | Holds(s.log, i, x) && Holds(s.log, j, x)
      ensures i == j
    {
      if i < j {
        StartsIncrease(s.log, s.offset, s.n, i, j);
      } else if j < i {
        StartsIncrease(s.log, s.offset, s.n, j, i);
      }
    }
  }

  lemma FirstStart(s: State)
    requires LayoutOk(s)
    ensures StartAt(s.log, s.offset, 0) == 0
  {
  }

  lemma {:induction false} Locate(s: State, k: nat, x: nat) returns (i: nat)
    requires LayoutOk(s) && 0 < k <= |s.log| && x < StartAt(s.log, s.offset, k)
    ensures Holds(s.log, i, x)
  {
    assert s.log[k - 1].End() == StartAt(s.log, s.offset, k);
    if s.log[k - 1].start <= x {
      i := k - 1;
    } else {
      i := Locate(s, k - 1, x);
    }
  }

  lemma Shaped(s: State, i: nat)
    requires LayoutOk(s) && i < |s.log|
    ensures BlockShape(s.n, s.log[i])
  {
  }

  lemma RoomForHeader(s: State)
    requires LayoutOk(s)
    ensures Slot(s.n, s.offset) + HEADER_SIZE <= s.n
  {
  }

  /** Lap geometry. There is always room for one more header before the ring end, so the
      size of a skip never underflows; no block crosses the ring end; a message leaves
      that room behind it and a skip ends exactly on a lap boundary. */
  lemma LapGeometry(s: State, i: nat)
    requires Reached(s)
    ensures Remaining(s.n, s.offset) >= HEADER_SIZE
    ensures i < |s.log| ==>
              && Remaining(s.n, s.log[i].start) >= HEADER_SIZE
              && Slot(s.n, s.log[i].start) + s.log[i].len <= s.n
              && (s.log[i].kind == Normal ==>
                    && s.log[i].len == s.log[i].want + HEADER_SIZE
                    && Slot(s.n, s.log[i].start) + s.log[i].len + HEADER_SIZE <= s.n)
              && (s.log[i].kind == Padding ==> Slot(s.n, s.log[i].End()) == 0)
  {
    hide Layout, Window, Claims, Payloads, Cursors, Accounting, Headers, Slot;
    ReachedInv(s);
    RoomForHeader(s);
    if i < |s.log| {
      Shaped(s, i);
      ClaimShape(s.n, s.log[i].start, s.log[i].want + HEADER_SIZE);
    }
  }

  /** The bytes reserved by the compare-and-swap and the header written after the wait
      describe the same block, for messages and for skips, on every interleaving. */
  lemma LengthMatchesDecision(s: State, w: nat)
    requires Enabled(s, WriteHeader(w)) && Reached(s)
    ensures s.producers[w].ticket.idx < |s.log|
    ensures var b := s.log[s.producers[w].ticket.idx];
      var header := HeaderAt(Apply(s, WriteHeader(w)).headers, Slot(s.n, b.start));
      && header.absOffset == b.start && header.size + HEADER_SIZE == b.len
      && header.kind == b.kind && header.numReaders == b.quorum && header.flag == NotReady
      && (b.kind == Normal ==> header.size == s.producers[w].size)
  {
    hide Layout, Window, Claims, Cursors, Accounting, Headers, Payloads, Waiters, Slot;
    ReachedInv(s);
    TicketFacts(s, w);
    NewHeader(s, w);
    NobodyYet(s, s.producers[w].ticket.idx);
  }

  /** No lapping: blocks past the wait and not yet retired are pairwise disjoint in the
      ring, so nothing written for one can touch bytes of another. */
  lemma NoLapping(s: State)
    requires Reached(s)
    ensures |s.stages| == |s.log|
    ensures forall i, j :: s.retired <= i < j < |s.log| && s.stages[i] != Claimed && s.stages[j] != Claimed ==>
              Disjoint(Slot(s.n, s.log[i].start), s.log[i].len, Slot(s.n, s.log[j].start), s.log[j].len)
  {
    ReachedInv(s);
    forall i, j | s.retired <= i < j < |s.log| && s.stages[i] != Claimed && s.stages[j] != Claimed
      ensures Disjoint(Slot(s.n, s.log[i].start), s.log[i].len, Slot(s.n, s.log[j].start), s.log[j].len)
    {
      LiveDisjoint(s, i, j);
    }
  }

  // ---------------------------------------------------------------- reader accounting

  /** Readers that joined before block i was claimed and have not done their fetch_sub
      on it. */
  ghost function Owers(readers: seq<Reader>, i: nat): set<nat> {
    set r | 0 <= r < |readers| && readers[r].join <= i && readers[r].next <= i
  }

  ghost function FirstOwers(readers: seq<Reader>, q: nat, i: nat): set<nat> {
    set r | 0 <= r < |readers| && r < q && readers[r].next <= i
  }

  lemma {:induction false} WaitersAreOwers(readers: seq<Reader>, q: nat, i: nat)
    ensures Waiters(readers, q, i) == |FirstOwers(readers, q, i)|
  {
    if q > 0 {
      WaitersAreOwers(readers, q - 1, i);
      if q - 1 < |readers| && readers[q - 1].next <= i {
        assert FirstOwers(readers, q, i) == FirstOwers(readers, q - 1, i) + {q - 1};
      } else {
        assert FirstOwers(readers, q, i) == FirstOwers(readers, q - 1, i);
      }
    } else {
      assert FirstOwers(readers, q, i) == {};
    }
  }

  lemma OwersCounted(s: State, i: nat)
    requires CursorsOk(s) && AccountingOk(s) && i < |s.log|
    ensures Waiters(s.readers, s.log[i].quorum, i) == |Owers(s.readers, i)|
  {
    WaitersAreOwers(s.readers, s.log[i].quorum, i);
    assert FirstOwers(s.readers, s.log[i].quorum, i) == Owers(s.readers, i);
  }

  /** Exact reader accounting: the counter in the header of every block that is written
      and not cleared is the number of readers that still owe it. */
  lemma CounterIsExact(s: State, i: nat)
    requires Reached(s) && s.wiped <= i < |s.log|
    ensures |s.stages| == |s.log|
    ensures Written(s.stages[i]) ==>
              HeaderAt(s.headers, Slot(s.n, s.log[i].start)).numReaders == |Owers(s.readers, i)|
  {
    hide Layout, Claims, Payloads, Cursors, Accounting, Waiters, Slot;
    ReachedInv(s);
    OwersCounted(s, i);
  }

  /** A fetch_sub never underflows, and it reads one exactly when it is the last. */
  lemma LastReleaseIsUnique(s: State, r: nat)
    requires Enabled(s, Sub(r)) && Reached(s)
    ensures var prev := HeaderAt(s.headers, s.readers[r].phase.pos).numReaders;
      var i := s.readers[r].next;
      && 1 <= prev < READER_LIMIT && r in Owers(s.readers, i)
      && (prev == 1 <==> Owers(s.readers, i) == {r})
      && Owers(Apply(s, Sub(r)).readers, i) == Owers(s.readers, i) - {r}
  {
    hide Layout, Window, Claims, Payloads, Cursors, Accounting, Headers, Waiters, Slot;
    ReachedInv(s);
    SubCount(s, r);
    ReaderFacts(s, r);
    var i := s.readers[r].next;
    OwersCounted(s, i);
    SingletonIff(Owers(s.readers, i), r);
  }

  lemma SingletonIff(xs: set<nat>, x: nat)
    requires x in xs
    ensures |xs| == 1 <==> xs == {x}
  {
    assert |xs - {x}| == |xs| - 1;
    if |xs| == 1 { assert xs - {x} == {}; }
  }

  // ---------------------------------------------------------------- the watermark

  /** The watermark never passes a cursor, and while no release is in progress it is the
      smallest of them. */
  lemma WatermarkIsMinimum(s: State)
    requires Reached(s)
    ensures forall r :: 0 <= r < |s.readers| ==> s.readOffset <= s.readers[r].cursor
    ensures |s.readers| > 0
            && (forall r :: 0 <= r < |s.readers| ==> !s.readers[r].phase.Bumped? && !Closing(s.readers[r]))
            ==> exists r :: 0 <= r < |s.readers| && s.readers[r].cursor == s.readOffset
  {
    hide Layout, Window, Claims, Payloads, Cursors, Accounting, Headers, Waiters, Slot;
    ReachedInv(s);
    forall r | 0 <= r < |s.readers| ensures s.readOffset <= s.readers[r].cursor {
      NextAhead(s, r);
      ReaderFacts(s, r);
    }
    if |s.readers| > 0
       && (forall r :: 0 <= r < |s.readers| ==> !s.readers[r].phase.Bumped? && !Closing(s.readers[r]))
    {
      var r := OldestReader(s);
      ReaderFacts(s, r);
      WatermarkStart(s);
      assert s.readers[r].cursor == s.readOffset;
    }
  }

  /** Outside a last release, some reader is still at the watermark. */
  lemma OldestReader(s: State) returns (r: nat)
    requires WindowOk(s) && CursorsOk(s) && AccountingOk(s) && |s.readers| > 0
    requires forall r :: 0 <= r < |s.readers| ==> !Closing(s.readers[r])
    ensures r < |s.readers| && s.readers[r].next == s.retired
  {
    hide Window, Cursors, Accounting, Waiters;
    OldestOwed(s);
    r := 0;
    if s.retired < |s.log| {
      WaitersZero(s.readers, s.log[s.retired].quorum, s.retired);
      r :| 0 <= r < |s.readers| && s.readers[r].next <= s.retired;
    }
    ReaderFacts(s, r);
    WatermarkStart(s);
  }

  lemma OldestOwed(s: State)
    requires AccountingOk(s) && forall r :: 0 <= r < |s.readers| ==> !Closing(s.readers[r])
    ensures s.retired < |s.log| ==> Waiters(s.readers, s.log[s.retired].quorum, s.retired) > 0
  {
    hide Waiters;
  }

  /** Blocks retire one at a time, in claim order: a step either leaves the watermark or
      moves it over the oldest block, which is final and owed by nobody. */
  lemma RetireInOrder(s: State, a: Action)
    requires Enabled(s, a) && Reached(s)
    ensures var s' := Apply(s, a);
      || (s'.retired == s.retired && s'.readOffset == s.readOffset)
      || (&& s'.retired == s.retired + 1 && s.retired < |s.log| == |s.stages|
          && s.readOffset == s.log[s.retired].start && s'.readOffset == s.log[s.retired].End()
          && s.stages[s.retired].Final() && Owers(s.readers, s.retired) == {})
  {
    hide Layout, Window, Claims, Payloads, Cursors, Accounting, Headers, Waiters, Slot, Apply;
    ReachedInv(s);
    if a.Advance? {
      CloserFacts(s, a.r);
      AdvanceMoves(s, a.r);
      assert s.retired < s.wiped;
      SameLengths(s);
      WipedAreFinal(s);
      WatermarkStart(s);
      NobodyBehind(s);
    } else {
      WatermarkStays(s, a);
    }
  }

  lemma AdvanceMoves(s: State, r: nat)
    requires Enabled(s, Advance(r))
    ensures var s' := Apply(s, Advance(r));
      s'.retired == s.retired + 1 && s'.readOffset == s.readOffset + s.readers[r].phase.total
  {
  }

  lemma WatermarkStays(s: State, a: Action)
    requires Enabled(s, a) && !a.Advance?
    ensures Apply(s, a).retired == s.retired && Apply(s, a).readOffset == s.readOffset
  {
    hide Slot, Slice, Splice, HeaderAt;
  }

  lemma WipedAreFinal(s: State)
    requires WindowOk(s)
    ensures |s.stages| == |s.log| && forall i :: 0 <= i < s.wiped && i < |s.log| ==> s.stages[i].Final()
  {
  }

  lemma NobodyBehind(s: State)
    requires AccountingOk(s) && s.closer.Some?
    ensures Owers(s.readers, s.retired) == {}
  {
  }

  /** What the last reader of a block leaves behind: of the header only its old offset, a
      zeroed payload, and nothing changed outside the block. */
  lemma ClearedBlock(s: State, r: nat)
    requires Enabled(s, Clear(r)) && Reached(s)
    ensures s.retired < |s.log| && |s.bytes| == s.n
    ensures var b := s.log[s.retired]; var pos := Slot(s.n, b.start); var s' := Apply(s, Clear(r));
      && HEADER_SIZE <= b.len && pos + b.len <= s.n == |s'.bytes|
      && (forall p: nat :: HeaderAt(s'.headers, p)
                           == if p == pos then Header(b.start, 0, Normal, 0, NotReady) else HeaderAt(s.headers, p))
      && (forall x :: 0 <= x < s.n ==>
            s'.bytes[x] == if pos + HEADER_SIZE <= x < pos + b.len then 0 else s.bytes[x])
  {
    hide Layout, Window, Claims, Payloads, Cursors, Accounting, Headers, Waiters, Slot;
    ReachedInv(s);
    CloserFacts(s, r);
    OldestFinal(s, r);
    CounterIsExact(s, s.retired);
    NobodyBehind(s);
    OldestHeader(s);
    BytesSize(s);
  }

  lemma OldestHeader(s: State)
    requires HeadersOk(s) && s.wiped <= s.retired < |s.log| == |s.stages| && s.stages[s.retired].Final()
    ensures var b := s.log[s.retired];
      HeaderAt(s.headers, Slot(s.n, b.start))
      == HeaderOf(b, s.stages[s.retired], Waiters(s.readers, b.quorum, s.retired))
  {
  }

  /** Every header in the ring, of whatever block and cleared or not, describes bytes that
      fit the ring. */
  ghost predicate SizesFit(s: State) {
    forall p :: p in s.headers ==> s.headers[p].size + HEADER_SIZE <= s.n
  }

  lemma SizesStep(s: State, a: Action)
    requires Enabled(s, a) && SizesFit(s) && Inv(s)
    ensures SizesFit(Apply(s, a))
  {
    hide Layout, Window, Claims, Payloads, Cursors, Accounting, Headers, Slot, Slice, Splice;
    RoomForHeader(s);
    if a.WriteHeader? {
      TicketFacts(s, a.w);
      WrittenSize(s, a.w);
    }
  }

  /** The header written after the wait fits, whether it is a message or a skip. */
  lemma WrittenSize(s: State, w: nat)
    requires Enabled(s, WriteHeader(w)) && Inv(s)
    ensures var p := s.producers[w]; var pos := Slot(s.n, p.ticket.at);
      && p.size % SIZE_LIMIT + HEADER_SIZE <= s.n && pos + HEADER_SIZE <= s.n
      && (s.n - pos - HEADER_SIZE) % SIZE_LIMIT + HEADER_SIZE <= s.n
  {
    hide Layout, Window, Claims, Payloads, Cursors, Accounting, Headers, Slot;
    TicketFacts(s, w);
  }

  lemma {:induction false} SizesRun(s: State, acts: seq<Action>)
    requires Run(s, acts) && SizesFit(s) && Inv(s)
    ensures SizesFit(After(s, acts))
    decreases |acts|
  {
    hide Inv, SizesFit, Enabled, Assumed, Apply;
    if acts != [] {
      SizesStep(s, acts[0]);
      StepInv(s, acts[0]);
      SizesRun(Apply(s, acts[0]), acts[1..]);
    }
  }

  lemma ReachedSizes(s: State)
    requires Reached(s)
    ensures SizesFit(s) && HEADER_SIZE <= s.n
  {
    hide Inv, Run, After;
    var s0, acts :| RunsTo(s0, acts, s);
    InitInv(s0);
    SizesRun(s0, acts);
    ReachedInv(s);
    RoomForHeader(s);
  }

  /** The assertions in the code hold on every interleaving: a released header is at the
      cursor's ring position and fits the ring (262, 263), what a poll looks at fits the
      ring whatever header it is (231, and 263 for the release of a skip or an aborted
      block), the watermark lands on the releasing reader's cursor (288), and a skip has
      room for its header (318). */
  lemma CodeAssertions(s: State, a: Action)
    requires Enabled(s, a) && Reached(s)
    ensures a.Release? ==>
              && s.readers[a.r].phase.pos == Slot(s.n, s.readers[a.r].cursor)
              && HeaderAt(s.headers, s.readers[a.r].phase.pos).size + HEADER_SIZE
                 == s.readers[a.r].phase.span <= s.n
    ensures a.PollDecide? ==> PolledHeader(s, a.r).size + HEADER_SIZE <= s.n
    ensures a.Advance? ==> s.readOffset + s.readers[a.r].phase.total == s.readers[a.r].cursor
    ensures a.WriteHeader? ==> Slot(s.n, s.producers[a.w].ticket.at) + HEADER_SIZE <= s.n
  {
    hide Layout, Window, Claims, Payloads, Cursors, Accounting, Headers, Waiters, Slot, ReaderOk;
    ReachedInv(s);
    match a
    case Release(r) => ReleaseFits(s, r);
    case PollDecide(_) => ReachedSizes(s);
    case Advance(r) =>
      CloserFacts(s, r);
      WatermarkStart(s);
    case WriteHeader(w) => TicketFacts(s, w);
    case _ =>
  }

  lemma ReleaseFits(s: State, r: nat)
    requires r < |s.readers| && s.readers[r].phase.Holding? && Inv(s)
    ensures s.readers[r].phase.pos == Slot(s.n, s.readers[r].cursor)
    ensures HeaderAt(s.headers, s.readers[r].phase.pos).size + HEADER_SIZE == s.readers[r].phase.span <= s.n
  {
    hide Layout, Window, Claims, Payloads, Cursors, Accounting, Headers, Waiters, Slot;
    ReaderFacts(s, r);
    LiveHeader(s, r);
  }

  // ---------------------------------------------------------------- what readers see

  /** Head of line: a reader stays at or before the earliest unfinished block claimed
      after it joined, however many later blocks are already committed. */
  lemma HeadOfLine(s: State, r: nat, i: nat)
    requires Reached(s) && r < |s.readers| && s.readers[r].join <= i < |s.log|
    ensures |s.stages| == |s.log|
    ensures !s.stages[i].Final() ==> s.readers[r].next <= i && s.readers[r].cursor <= s.log[i].start
  {
    hide Window, Claims, Payloads, Cursors, Accounting, Headers, Waiters, Slot;
    ReachedInv(s);
    ReaderFacts(s, r);
    if !s.stages[i].Final() && s.readers[r].next < i {
      StartsIncrease(s.log, s.offset, s.n, s.readers[r].next, i);
    }
  }

  /** What a wrapper stands for and shows, wherever the invariant holds. */
  lemma HeldIsDue(s: State, r: nat)
    requires r < |s.readers| && s.readers[r].phase.Holding? && Inv(s)
    ensures |s.stages| == |s.log| == |s.contents|
    ensures var rd := s.readers[r]; var i := rd.next;
      && i < |s.log| && s.stages[i] == Committed && s.log[i].kind == Normal
      && rd.cursor == s.log[i].start && rd.phase.pos == Slot(s.n, s.log[i].start) && rd.phase.span == s.log[i].len
      && HeaderAt(s.headers, rd.phase.pos)
         == HeaderOf(s.log[i], s.stages[i], Waiters(s.readers, s.log[i].quorum, i))
      && View(s, rd.phase.pos, rd.phase.span) == s.contents[i]
      && |s.contents[i]| == s.log[i].want == rd.phase.span - HEADER_SIZE
  {
    hide Layout, Window, Claims, Payloads, Cursors, Accounting, Headers, Waiters, Slot;
    ReaderFacts(s, r);
    LiveHeader(s, r);
    LivePayload(s, s.readers[r].next);
    BytesSize(s);
  }

  /** A wrapper that a poll has returned is the block due next: committed, a message, at
      the cursor's own absolute offset, and showing the committed bytes. */
  lemma HeldMessage(s: State, r: nat)
    requires Reached(s) && r < |s.readers| && s.readers[r].phase.Holding?
    ensures |s.stages| == |s.log| == |s.contents|
    ensures var rd := s.readers[r]; var i := rd.next;
      var header := HeaderAt(s.headers, rd.phase.pos);
      && i < |s.log| && s.stages[i] == Committed && s.log[i].kind == Normal
      && header.absOffset == rd.cursor == s.log[i].start
      && header.flag == Ready && header.kind == Normal
      && View(s, rd.phase.pos, rd.phase.span) == s.contents[i]
      && |s.contents[i]| == s.log[i].want
  {
    hide Inv, Waiters, Slot, View;
    ReachedInv(s);
    HeldIsDue(s, r);
  }

  lemma BytesSize(s: State)
    requires PayloadsOk(s)
    ensures |s.bytes| == s.n
  {
  }

  /** A poll whose flag is set is looking at the block due next exactly when the cursor
      is less than a lap ahead of the watermark. */
  lemma PollSeesOwnIff(s: State, r: nat)
    requires Reached(s) && Enabled(s, PollLoad(r)) && PolledHeader(s, r).flag != NotReady
    ensures s.readers[r].cursor < s.readOffset + s.n
            <==> PolledHeader(s, r).absOffset == s.readers[r].cursor
  {
    hide Layout, Window, Claims, Payloads, Cursors, Accounting, Headers, Waiters, Slot;
    ReachedInv(s);
    ReaderFacts(s, r);
    FreshIffOwn(s, r);
  }

  /** What a decision may do: nothing, hand out the next block if it is a committed
      message, or give it back unseen if it is a committed skip or an aborted message. */
  ghost predicate RightDecision(s: State, r: nat)
    requires Enabled(s, PollDecide(r)) && |s.stages| == |s.log|
  {
    var i := s.readers[r].next;
    match Apply(s, PollDecide(r)).readers[r].phase
    case Resting => true
    case Holding(pos, span) =>
      && i < |s.log| && s.stages[i] == Committed && s.log[i].kind == Normal
      && pos == Slot(s.n, s.log[i].start) && span == s.log[i].len
    case Bumped(pos, total) =>
      && i < |s.log| && (s.stages[i] == Dropped || (s.stages[i] == Committed && s.log[i].kind == Padding))
      && pos == Slot(s.n, s.log[i].start) && total == s.log[i].len
    case _ => false
  }

  /** In every reachable state a poll decides rightly exactly when the header passes the
      test in `Assumed`, of which the code makes only a part. */
  lemma DecisionRightIff(s: State, r: nat)
    requires Enabled(s, PollDecide(r)) && Reached(s)
    ensures |s.stages| == |s.log|
    ensures RightDecision(s, r) <==> Assumed(s, PollDecide(r))
  {
    hide Layout, Window, Claims, Payloads, Cursors, Accounting, Headers, Waiters, Slot;
    ReachedInv(s);
    ReaderFacts(s, r);
    var i := s.readers[r].next;
    if i < |s.log| && s.stages[i].Final() {
      LiveHeader(s, r);
      DroppedIsNormal(s, i);
    }
    if Assumed(s, PollDecide(r)) { RightIfAssumed(s, r); }
  }

  lemma RightIfAssumed(s: State, r: nat)
    requires Enabled(s, PollDecide(r)) && Assumed(s, PollDecide(r)) && Inv(s)
    ensures |s.stages| == |s.log| && RightDecision(s, r)
  {
    hide Layout, Window, Claims, Payloads, Cursors, Accounting, Headers, Waiters, Slot;
    DecideOk(s, r);
    ReaderFacts(s, r);
    if !Apply(s, PollDecide(r)).readers[r].phase.Resting? { LiveHeader(s, r); }
  }

  /** The test made before the call. A poll that decides right after it has loaded a set
      flag is sound exactly when the cursor is less than a lap ahead of the watermark or
      the flag is READY, since READY is checked against the cursor. */
  lemma PromptPollIff(s: State, r: nat)
    requires Enabled(s, PollLoad(r)) && PolledHeader(s, r).flag != NotReady && Reached(s)
    ensures var s' := Apply(s, PollLoad(r));
      && Enabled(s', PollDecide(r))
      && (Assumed(s', PollDecide(r)) <==> FreshLoad(s, r) || PolledHeader(s, r).flag == Ready)
  {
    hide Layout, Window, Claims, Payloads, Cursors, Accounting, Headers, Waiters, Slot;
    ReachedInv(s);
    ReaderFacts(s, r);
    FreshIffOwn(s, r);
    if FreshLoad(s, r) { OwnHeader(s, r); }
  }

  /** The invariant survives a step from a reachable state exactly when the step meets
      its assumption. */
  lemma AssumptionsAreExact(s: State, a: Action)
    requires Enabled(s, a) && Reached(s)
    ensures Inv(Apply(s, a)) <==> Assumed(s, a)
  {
    hide Inv;
    ReachedInv(s);
    StepInvIff(s, a);
  }

  /** A new claim is owed by every reader, and so by somebody exactly when a reader is
      counted. One that nobody owes is never given back: later joins are not counted. */
  lemma ClaimIsOwedIff(s: State, w: nat)
    requires Enabled(s, Cas(w)) && Reached(s)
    ensures forall r :: 0 <= r < |s.readers| ==> r in Owers(Apply(s, Cas(w)).readers, |s.log|)
    ensures Owers(Apply(s, Cas(w)).readers, |s.log|) != {} <==> s.count >= 1
  {
    hide Layout, Window, Claims, Payloads, Cursors, Headers, Waiters, Slot;
    ReachedInv(s);
    var owers := Owers(Apply(s, Cas(w)).readers, |s.log|);
    forall r | 0 <= r < |s.readers| ensures r in owers {
      ReaderFacts(s, r);
    }
    if s.count >= 1 { assert 0 in owers; }
  }

  /** A step that takes block i from one stage to the next. */
  predicate MovesBlock(s: State, a: Action, i: nat)
    requires Enabled(s, a)
  {
    match a
    case Grant(w) => s.producers[w].ticket.idx == i
    case WriteHeader(w) => s.producers[w].ticket.idx == i
    case CommitSkip(w) => s.producers[w].ticket.idx == i
    case Commit(k) => k == i
    case Abort(k) => k == i
    case _ => false
  }

  lemma BlockFrame(s: State, a: Action, i: nat)
    requires Enabled(s, a) && i < |s.log| == |s.stages| == |s.contents| && !MovesBlock(s, a, i)
    ensures var s' := Apply(s, a);
      && i < |s'.log| && |s.log| <= |s'.stages| && |s.log| <= |s'.contents|
      && s'.log[i] == s.log[i] && s'.stages[i] == s.stages[i]
      && ((a.Fill? ==> a.i != i) ==> s'.contents[i] == s.contents[i])
  {
    hide Slot, Slice, Splice, HeaderAt, SetFlag, BumpLength, NeedsSkip;
  }

  /** Only the producer of an unfinished block moves it. */
  lemma NotMoved(s: State, a: Action, i: nat)
    requires Enabled(s, a) && i < |s.log| == |s.stages| && Inv(s)
    requires s.stages[i] == Committed || (s.stages[i] == Open && s.log[i].kind == Normal && !a.Commit? && !a.Abort?)
    ensures !MovesBlock(s, a, i)
  {
    hide Layout, Window, Claims, Payloads, Cursors, Accounting, Headers, Waiters, Slot, Apply;
    if a.Grant? || a.WriteHeader? || a.CommitSkip? { TicketFacts(s, a.w); }
  }

  /** A committed block's payload never changes again. */
  lemma CommittedStep(s: State, a: Action, i: nat)
    requires Enabled(s, a) && i < |s.log| && Inv(s)
    requires |s.stages| == |s.log| == |s.contents| && s.stages[i] == Committed
    ensures var s' := Apply(s, a);
      && i < |s'.log| && |s.log| <= |s'.stages| && |s.log| <= |s'.contents|
      && s'.log[i] == s.log[i] && s'.stages[i] == Committed && s'.contents[i] == s.contents[i]
  {
    hide Inv, Apply;
    NotMoved(s, a, i);
    BlockFrame(s, a, i);
  }

  lemma {:induction false} CommittedForever(s: State, acts: seq<Action>, i: nat)
    requires Run(s, acts) && i < |s.log| && Inv(s)
    requires |s.stages| == |s.log| == |s.contents| && s.stages[i] == Committed
    ensures var s' := After(s, acts);
      && i < |s'.log| && i < |s'.stages| && i < |s'.contents|
      && s'.log[i] == s.log[i] && s'.stages[i] == Committed && s'.contents[i] == s.contents[i]
    decreases |acts|
  {
    hide Layout, Window, Claims, Payloads, Cursors, Accounting, Headers, Waiters, Slot;
    if acts != [] {
      var s1 := Apply(s, acts[0]);
      CommittedStep(s, acts[0], i);
      StepInv(s, acts[0]);
      SameLengths(s1);
      CommittedForever(s1, acts[1..], i);
    }
  }

  lemma ReachedRun(s: State, acts: seq<Action>)
    requires Reached(s) && Run(s, acts)
    ensures Reached(After(s, acts))
  {
    var s0, before :| RunsTo(s0, before, s);
    RunAppend(s0, before, s, acts, After(s, acts));
    assert RunsTo(s0, before + acts, After(s, acts));
  }

  /** An outstanding message stays so until it is committed or aborted. */
  lemma OutstandingStays(s: State, a: Action, i: nat)
    requires Enabled(s, a) && a != Commit(i) && a != Abort(i) && Outstanding(s, i)
    requires Inv(s)
    ensures Outstanding(Apply(s, a), i) && Apply(s, a).log[i] == s.log[i]
  {
    hide Layout, Window, Claims, Cursors, Accounting, Headers, Payloads, Apply;
    SameLengths(s);
    if !a.Commit? && !a.Abort? { NotMoved(s, a, i); }
    BlockFrame(s, a, i);
  }

  /** A step that leaves message i to itself. */
  predicate SparesMessage(a: Action, i: nat) {
    a != Commit(i) && a != Abort(i) && (a.Fill? ==> a.i != i)
  }

  lemma BodyStays(s: State, a: Action, i: nat)
    requires Enabled(s, a) && SparesMessage(a, i) && Outstanding(s, i)
    requires Inv(s)
    ensures i < |Apply(s, a).contents| && Apply(s, a).contents[i] == s.contents[i]
  {
    hide Layout, Window, Claims, Cursors, Accounting, Headers, Payloads, Apply;
    SameLengths(s);
    if !a.Commit? && !a.Abort? { NotMoved(s, a, i); }
    BlockFrame(s, a, i);
  }

  lemma {:induction false} MessageStays(s: State, acts: seq<Action>, i: nat)
    requires Run(s, acts) && (forall a :: a in acts ==> SparesMessage(a, i)) && Outstanding(s, i) && Inv(s)
    ensures var s' := After(s, acts);
      Inv(s') && Outstanding(s', i) && s'.log[i] == s.log[i] && s'.contents[i] == s.contents[i]
    decreases |acts|
  {
    hide Inv, Apply, Enabled, Assumed, Outstanding;
    if acts != [] {
      assert acts[0] in acts;
      assert forall a :: a in acts[1..] ==> a in acts;
      OutstandingStays(s, acts[0], i);
      BodyStays(s, acts[0], i);
      StepInv(s, acts[0]);
      OutstandingIndex(s, i);
      MessageStays(Apply(s, acts[0]), acts[1..], i);
    } else {
      OutstandingIndex(s, i);
    }
  }

  lemma OutstandingIndex(s: State, i: nat)
    requires Outstanding(s, i)
    ensures i < |s.log| && i < |s.contents|
  {
  }

  /** A producer's write and, after whatever else happens, its commit. */
  function Sending(i: nat, data: Bytes, between: seq<Action>): seq<Action> {
    [Fill(i, data)] + between + [Commit(i)]
  }

  /** End to end: the bytes a producer writes and commits are the bytes that any reader's
      wrapper on that block shows, whatever all the agents do between the write and the
      commit, short of touching that message, and after the commit. */
  lemma WriteReachesReader(s: State, i: nat, data: Bytes, between: seq<Action>, acts: seq<Action>, r: nat)
    requires Outstanding(s, i) && Enabled(s, Fill(i, data)) && Reached(s)
    requires forall a :: a in between ==> SparesMessage(a, i)
    requires Run(s, Sending(i, data, between) + acts)
    requires var s' := After(s, Sending(i, data, between) + acts);
      r < |s'.readers| && s'.readers[r].phase.Holding? && s'.readers[r].next == i
    ensures var s' := After(s, Sending(i, data, between) + acts);
      var view := View(s', s'.readers[r].phase.pos, s'.readers[r].phase.span);
      && |view| == s.log[i].want
      && data <= view
      && view == Splice(s.contents[i], 0, data)
  {
    hide Inv, Run, After, Apply, Assumed, Slice;
    var all := Sending(i, data, between) + acts;
    ReachedInv(s);
    assert all == [Fill(i, data)] + (between + ([Commit(i)] + acts));
    RunCons(s, Fill(i, data), between + ([Commit(i)] + acts));
    var s1 := Apply(s, Fill(i, data));
    FillInv(s, i, data);
    Filled(s, i, data);
    RunParts(s1, between, [Commit(i)] + acts);
    var s2 := After(s1, between);
    MessageStays(s1, between, i);
    RunCons(s2, Commit(i), acts);
    var s3 := Apply(s2, Commit(i));
    CommitInv(s2, i);
    Committing(s2, i);
    CommittedForever(s3, acts, i);
    ReachedRun(s, all);
    HeldMessage(After(s, all), r);
  }

  lemma Filled(s: State, i: nat, data: Bytes)
    requires Outstanding(s, i) && Enabled(s, Fill(i, data)) && Inv(s)
    ensures var s1 := Apply(s, Fill(i, data));
      && Outstanding(s1, i) && s1.log[i] == s.log[i]
      && s1.contents[i] == Splice(s.contents[i], 0, data) && data <= s1.contents[i]
  {
    hide Layout, Window, Claims, Cursors, Accounting, Headers, Payloads, Slot, Waiters;
    OutstandingFacts(s, i);
  }

  lemma Committing(s: State, i: nat)
    requires Enabled(s, Commit(i)) && Inv(s)
    ensures var s1 := Apply(s, Commit(i));
      && |s1.stages| == |s1.log| == |s1.contents| && i < |s1.log|
      && s1.stages[i] == Committed && s1.log[i] == s.log[i] && s1.contents[i] == s.contents[i]
  {
    hide Layout, Window, Claims, Cursors, Accounting, Headers, Payloads, Slot;
    SameLengths(s);
  }

  // ---------------------------------------------------------------- padding

  /** A skip made for a claim that fits beside two headers follows a message. */
  lemma SkipFollowsMessage(s: State, i: nat)
    requires LayoutOk(s) && i < |s.log|
    requires s.log[i].kind == Padding && s.log[i].want + 2 * HEADER_SIZE <= s.n
    ensures i > 0 && s.log[i - 1].kind == Normal
  {
    hide Layout, Slot;
    var b := s.log[i];
    Shaped(s, i);
    FirstStart(s);
    ZeroSlot(s.n);
    assert Slot(s.n, b.start) > 0;
    if i > 0 {
      var before := s.log[i - 1];
      NextStart(s, i - 1);
      Shaped(s, i - 1);
      ClaimShape(s.n, before.start, before.want + HEADER_SIZE);
    }
  }

  lemma ZeroSlot(n: RingSize)
    ensures Slot(n, 0) == 0
  {
    SlotUnique(n, 0, 0, 0);
  }

  function Count(log: seq<Block>, k: nat, kind: Kind): nat
    requires k <= |log|
  {
    if k == 0 then 0 else Count(log, k - 1, kind) + if log[k - 1].kind == kind then 1 else 0
  }

  /** Padding is amortised: when every claim fits beside two headers, skips never
      outnumber messages, and are strictly fewer unless a skip came last. */
  lemma {:induction false} PaddingAmortised(s: State, k: nat)
    requires LayoutOk(s) && k <= |s.log|
    requires forall i :: 0 <= i < |s.log| ==> s.log[i].want + 2 * HEADER_SIZE <= s.n
    ensures Count(s.log, k, Padding) <= Count(s.log, k, Normal)
    ensures k > 0 && s.log[k - 1].kind == Normal ==> Count(s.log, k, Padding) < Count(s.log, k, Normal)
  {
    if k > 0 {
      PaddingAmortised(s, k - 1);
      if s.log[k - 1].kind == Padding { SkipFollowsMessage(s, k - 1); }
    }
  }

  lemma SkipsNeverOutnumber(s: State)
    requires Reached(s)
    requires forall i :: 0 <= i < |s.log| ==> s.log[i].want + 2 * HEADER_SIZE <= s.n
    ensures Count(s.log, |s.log|, Padding) <= Count(s.log, |s.log|, Normal)
    ensures |s.log| > 0 ==> s.log[0].kind == Normal
    ensures forall i :: 0 < i < |s.log| ==> s.log[i - 1].kind == Normal || s.log[i].kind == Normal
  {
    hide Layout, Window, Claims, Payloads, Cursors, Accounting, Headers, Slot;
    ReachedInv(s);
    PaddingAmortised(s, |s.log|);
    forall i | 0 <= i < |s.log| && s.log[i].kind == Padding
      ensures i > 0 && s.log[i - 1].kind == Normal
    {
      SkipFollowsMessage(s, i);
    }
  }
}
