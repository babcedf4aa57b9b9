/** What single-agent sequences of steps amount to. */
module QueueFacts {
  import opened RingGeometry
  import opened RingModel
  import opened RingInvariant
  import opened ReaderSteps
  import opened RingSafety
  import opened Runs
  import opened RingTheorems

  // ---------------------------------------------------------------- reader results

  /** An outstanding reader wrapper: where its header is and how many bytes it spans. */
  datatype PollResult =
    | NotAReader
    | NoMessage
    | Wrapper(pos: nat, span: nat)

  /** A skip or an aborted message. */
  predicate Passed(b: Block, stage: Stage) {
    stage == Dropped || (stage == Committed && b.kind == Padding)
  }

  /** The first block from index i on that a poll does not pass over. */
  function NextDue(log: seq<Block>, stages: seq<Stage>, i: nat): (k: nat)
    requires |stages| == |log| && i <= |log|
    ensures i <= k <= |log|
    ensures forall j :: i <= j < k ==> Passed(log[j], stages[j])
    ensures k < |log| ==> !Passed(log[k], stages[k])
    decreases |log| - i
  {
    if i < |log| && Passed(log[i], stages[i]) then NextDue(log, stages, i + 1) else i
  }

  /** The first block from index i on that is not committed. */
  function NextUnready(stages: seq<Stage>, i: nat): (k: nat)
    requires i <= |stages|
    ensures i <= k <= |stages|
    ensures forall j :: i <= j < k ==> stages[j] == Committed
    ensures k < |stages| ==> stages[k] != Committed
    decreases |stages| - i
  {
    if i < |stages| && stages[i] == Committed then NextUnready(stages, i + 1) else i
  }

  /** The steps of one release, begun by a wrapper or by a poll that passes over. */
  function ReleaseActs(s: State, r: nat, start: Action, pos: nat): seq<Action> {
    [start, Sub(r)] + if HeaderAt(s.headers, pos).numReaders > 1 then [] else [Clear(r), Advance(r)]
  }

  lemma NextUnreadySteps(stages: seq<Stage>, i: nat)
    requires i <= |stages|
    ensures NextUnready(stages, i)
            == if i < |stages| && stages[i] == Committed then NextUnready(stages, i + 1) else i
  {
  }

  lemma FreshOwn(s: State, r: nat)
    requires Enabled(s, PollLoad(r)) && PolledHeader(s, r).flag != NotReady && FreshLoad(s, r) && Inv(s)
    ensures PolledHeader(s, r).absOffset == s.readers[r].cursor
  {
    hide Layout, Window, Claims, Cursors, Accounting, Headers, Payloads, Slot;
    ReaderFacts(s, r);
    FreshIffOwn(s, r);
  }

  // ---------------------------------------------------------------- facts about draining

  /** The drain looks at no offset. That is sound for the only reader, and for any reader if
      the first block that is not committed starts less than a lap ahead of the watermark. */
  ghost predicate DrainsOwn(s: State, r: nat) {
    || |s.readers| == 1
    || (r < |s.readers| && s.readers[r].next <= |s.stages|
        && StartAt(s.log, s.offset, NextUnready(s.stages, s.readers[r].next)) < s.readOffset + s.n)
  }

  /** Reader r has given back the blocks from its own on up to the first one that is not
      committed, each once; if it is the only one, the watermark has followed it. */
  ghost predicate Drained(s: State, r: nat, s': State) {
    && |s.stages| == |s.log| && OnlyReader(s, r, s') && s.readers[r].next <= |s.stages|
    && s'.readers[r].phase == Resting
    && s'.readers[r].next == NextUnready(s.stages, s.readers[r].next)
    && s'.readers[r].cursor == StartAt(s.log, s.offset, s'.readers[r].next)
    && (|s.readers| == 1 ==> s'.retired == s'.readers[r].next && s'.readOffset == s'.readers[r].cursor)
  }

  /** A reader between releases. */
  lemma DrainFacts(s: State, r: nat)
    requires r < |s.readers| && s.readers[r].phase == Resting && DrainsOwn(s, r) && Inv(s)
    ensures |s.stages| == |s.log| && s.readers[r].next <= |s.stages|
    ensures s.readers[r].cursor == StartAt(s.log, s.offset, s.readers[r].next) <= s.offset
    ensures FreshLoad(s, r) || s.readers[r].next == NextUnready(s.stages, s.readers[r].next)
    ensures PolledHeader(s, r).flag == Ready
            <==> s.readers[r].next < |s.log| && s.stages[s.readers[r].next] == Committed
    ensures PolledHeader(s, r).flag == Ready ==> FreshLoad(s, r)
    ensures |s.readers| == 1 ==> s.retired == s.readers[r].next && s.readOffset == s.readers[r].cursor
  {
    hide Layout, Window, Claims, Cursors, Accounting, Headers, Payloads, Slot, Waiters;
    ReaderFacts(s, r);
    var next := s.readers[r].next;
    if next < |s.log| { StartsIncrease(s.log, s.offset, s.n, next, |s.log|); }
    if next < NextUnready(s.stages, next) {
      StartsIncrease(s.log, s.offset, s.n, next, NextUnready(s.stages, next));
    }
    if |s.readers| == 1 {
      AloneIsFresh(s, r);
      LoneOldest(s);
    }
    if PolledHeader(s, r).flag != NotReady && FreshLoad(s, r) {
      FreshOwn(s, r);
      OwnHeader(s, r);
    }
    if next < |s.log| && s.stages[next].Final() { LiveHeader(s, r); }
  }

  lemma LoneOldest(s: State)
    requires |s.readers| == 1 && s.readers[0].phase == Resting
    requires WindowOk(s) && CursorsOk(s) && AccountingOk(s)
    ensures s.retired == s.readers[0].next
  {
    hide Window, Cursors, Accounting;
    var r := OldestReader(s);
  }

  /** When every remaining block was committed, the only reader leaves nothing behind:
      cursor, watermark and write offset agree and every header in the ring reads
      NOT_READY. */
  lemma DrainedCompletely(s: State, s': State)
    requires |s.readers| == 1 && Drained(s, 0, s') && Inv(s')
    requires forall i :: s.readers[0].next <= i < |s.stages| ==> s.stages[i] == Committed
    ensures s'.readers[0].cursor == s'.readOffset == s'.offset && s'.retired == |s'.log|
    ensures forall p :: HeaderAt(s'.headers, p).flag == NotReady
  {
    hide Layout, Window, Claims, Cursors, Accounting, Headers, Payloads, Slot, Waiters;
    forall p: nat ensures HeaderAt(s'.headers, p).flag == NotReady {
      if HeaderAt(s'.headers, p).flag != NotReady {
        var i := TenantFacts(s', p);
      }
    }
  }

  // ---------------------------------------------------------------- facts about polls

  /** An aborted message is skipped without a look at its offset, which is sound when this
      is the only reader, when no aborted message is still in the ring, or when the block
      that the poll comes to starts less than a lap ahead of the watermark. */
  ghost predicate AbortsAreOwn(s: State, r: nat) {
    || |s.readers| == 1
    || (forall i :: s.retired <= i < |s.stages| ==> s.stages[i] != Dropped)
    || (r < |s.readers| && |s.stages| == |s.log| && s.readers[r].next <= |s.log|
        && StartAt(s.log, s.offset, NextDue(s.log, s.stages, s.readers[r].next)) < s.readOffset + s.n)
  }

  /** Blocks a reader has before it. */
  ghost function Pending(s: State, r: nat): nat {
    if r < |s.readers| && s.readers[r].next <= |s.log| then |s.log| - s.readers[r].next else 0
  }

  /** The outcome of a poll. */
  ghost predicate Polled(s: State, r: nat, result: PollResult, s': State) {
    && OnlyReader(s, r, s') && |s.stages| == |s.log| && s.readers[r].next <= |s.log|
    && s'.readers[r].inbox == s.readers[r].inbox
    && var k := s'.readers[r].next;
    && k == NextDue(s.log, s.stages, s.readers[r].next)
    && match result
       case NotAReader => false
       case NoMessage => (k < |s.log| ==> !s.stages[k].Final()) && s'.readers[r].phase == Resting
       case Wrapper(pos, span) =>
         && k < |s.log| && s.stages[k] == Committed && s.log[k].kind == Normal
         && s'.readers[r].phase == Holding(pos, span)
         && pos == Slot(s.n, s.log[k].start) && span == s.log[k].len
  }

  /** What the header at the cursor tells about the block due next. */
  lemma PollCases(s: State, r: nat)
    requires Enabled(s, PollLoad(r)) && (AbortsAreOwn(s, r) || PolledHeader(s, r).flag != Aborted) && Inv(s)
    ensures |s.stages| == |s.log| && s.readers[r].next <= |s.log|
    ensures var i := s.readers[r].next; var header := PolledHeader(s, r);
      && (i < |s.log| && s.stages[i].Final()
          <==> header.flag != NotReady && header.absOffset == s.readers[r].cursor)
      && (header.flag == Aborted ==> header.absOffset == s.readers[r].cursor)
      && (i < |s.log| && s.stages[i].Final() ==>
            && header.flag == FlagOf(s.stages[i]) && header.kind == s.log[i].kind
            && header.size + HEADER_SIZE == s.log[i].len
            && Slot(s.n, s.log[i].start) == Slot(s.n, s.readers[r].cursor))
  {
    hide Layout, Window, Claims, Cursors, Accounting, Headers, Payloads, Slot, Waiters;
    ReaderFacts(s, r);
    if s.readers[r].next < |s.log| && s.stages[s.readers[r].next].Final() { LiveHeader(s, r); }
    if PolledHeader(s, r).flag != NotReady {
      FreshIffOwn(s, r);
      if PolledHeader(s, r).absOffset == s.readers[r].cursor {
        OwnHeader(s, r);
      } else if |s.readers| == 1 {
        AloneIsFresh(s, r);
      } else {
        var i := TenantFacts(s, Slot(s.n, s.readers[r].cursor));
        var due := NextDue(s.log, s.stages, s.readers[r].next);
        if s.readers[r].next < due { StartsIncrease(s.log, s.offset, s.n, s.readers[r].next, due); }
      }
    }
  }

  /** After the flag, the decision is safe and goes the way the header says. */
  lemma PollLoaded(s: State, r: nat)
    requires Enabled(s, PollLoad(r)) && PolledHeader(s, r).flag != NotReady
    requires (AbortsAreOwn(s, r) || PolledHeader(s, r).flag != Aborted) && Inv(s)
    ensures var s1 := Apply(s, PollLoad(r)); var header := PolledHeader(s, r);
      var pos := Slot(s.n, s.readers[r].cursor);
      && OnlyReader(s, r, s1) && s1 == s.(readers := s1.readers)
      && s1.readers[r].next == s.readers[r].next && s1.readers[r].cursor == s.readers[r].cursor
      && s1.readers[r].inbox == s.readers[r].inbox
      && Enabled(s1, PollDecide(r)) && Assumed(s1, PollDecide(r))
      && var s2 := Apply(s1, PollDecide(r));
      && OnlyReader(s, r, s2) && s2.readers[r].next == s.readers[r].next
      && s2.readers[r].inbox == s.readers[r].inbox
      && s2.readers[r].phase ==
           (if header.flag == Ready && header.absOffset != s.readers[r].cursor then Resting
            else if header.flag == Ready && header.kind == Normal then Holding(pos, header.size + HEADER_SIZE)
            else Bumped(pos, header.size + HEADER_SIZE))
      && s2 == s.(readers := s2.readers)
      && s2.readers[r].cursor ==
           (if s2.readers[r].phase.Bumped? then s.readers[r].cursor + header.size + HEADER_SIZE
            else s.readers[r].cursor)
  {
    hide Inv;
    PollCases(s, r);
    var s1 := Apply(s, PollLoad(r));
    assert PolledHeader(s1, r) == PolledHeader(s, r);
    var s2 := Apply(s1, PollDecide(r));
    assert s2.readers == s.readers[r := s2.readers[r]];
  }

  /** A poll that does not pass over the block due next ends there. */
  lemma PollEnds(s: State, r: nat)
    requires Enabled(s, PollLoad(r)) && (AbortsAreOwn(s, r) || PolledHeader(s, r).flag != Aborted) && Inv(s)
    requires var header := PolledHeader(s, r);
      header.flag == NotReady || (header.flag == Ready
        && (header.absOffset != s.readers[r].cursor || header.kind == Normal))
    ensures |s.stages| == |s.log| && s.readers[r].next <= |s.log|
    ensures NextDue(s.log, s.stages, s.readers[r].next) == s.readers[r].next
    ensures OnlyReader(s, r, s)
  {
    hide Inv;
    PollCases(s, r);
    assert s.readers[r := s.readers[r]] == s.readers;
  }

  /** A poll that passes over the block due next goes on from the one after. */
  lemma PollGoesOn(s: State, r: nat, s1: State, s2: State)
    requires Enabled(s, PollLoad(r)) && OnlyReader(s, r, s1) && s1.readers[r].next == s.readers[r].next
    requires GivenBack(s1, r, s2)
    requires var header := PolledHeader(s, r);
      header.flag == Aborted || (header.flag == Ready && header.absOffset == s.readers[r].cursor
                                 && header.kind == Padding)
    requires AbortsAreOwn(s, r) && Inv(s)
    ensures |s.stages| == |s.log| && s.readers[r].next < |s.log|
    ensures Passed(s.log[s.readers[r].next], s.stages[s.readers[r].next])
    ensures OnlyReader(s, r, s2) && s2.readers[r].next == s.readers[r].next + 1
    ensures Enabled(s2, PollLoad(r)) && AbortsAreOwn(s2, r) && Pending(s2, r) < Pending(s, r)
  {
    hide Inv;
    PollCases(s, r);
  }

  lemma PolledLater(s: State, r: nat, s2: State, result: PollResult, s': State)
    requires Polled(s2, r, result, s') && OnlyReader(s, r, s2)
    requires |s.stages| == |s.log| && s.readers[r].next < |s.log|
    requires Passed(s.log[s.readers[r].next], s.stages[s.readers[r].next])
    requires s2.readers[r].next == s.readers[r].next + 1 && s2.readers[r].inbox == s.readers[r].inbox
    ensures Polled(s, r, result, s')
  {
  }

  /** A step that starts to give a block back, with its header at `pos`. */
  ghost predicate StartsAt(s: State, r: nat, start: Action, pos: nat)
    requires Enabled(s, start)
  {
    var s' := Apply(s, start);
    r < |s'.readers| && s'.readers[r].phase.Bumped? && s'.readers[r].phase.pos == pos
  }

  lemma StartKeepsHeaders(s: State, r: nat, start: Action)
    requires Enabled(s, start) && (start == Action.Release(r) || start == PollDecide(r))
    ensures Apply(s, start).headers == s.headers
  {
  }

  predicate ReaderAct(a: Action, r: nat) {
    a == PollLoad(r) || a == PollDecide(r) || a == Action.Release(r) || a == Sub(r) || a == Clear(r) || a == Advance(r)
  }

  /** Reader r has moved on by itself: the log and every other agent are as they were. */
  ghost predicate OnlyReader(s: State, r: nat, s': State) {
    && s.retired <= s'.retired && s.readOffset <= s'.readOffset
    && s'.n == s.n && s'.count == s.count && s'.offset == s.offset
    && s'.log == s.log && s'.stages == s.stages && s'.contents == s.contents && s'.producers == s.producers
    && r < |s.readers| == |s'.readers| && s'.readers == s.readers[r := s'.readers[r]]
    && s'.readers[r].join == s.readers[r].join
  }

  lemma {:induction false} ReaderRun(s: State, acts: seq<Action>, r: nat)
    requires Run(s, acts) && r < |s.readers| && forall a :: a in acts ==> ReaderAct(a, r)
    ensures OnlyReader(s, r, After(s, acts))
    decreases |acts|
  {
    if acts != [] {
      assert acts[0] in acts;
      assert forall a :: a in acts[1..] ==> a in acts;
      ReaderActFrame(s, acts[0], r);
      ReaderRun(Apply(s, acts[0]), acts[1..], r);
    }
  }

  lemma ReaderActFrame(s: State, a: Action, r: nat)
    requires Enabled(s, a) && ReaderAct(a, r) && r < |s.readers|
    ensures OnlyReader(s, r, Apply(s, a))
  {
    hide Slot, Slice, Splice;
    assert s.readers[r := s.readers[r]] == s.readers;
  }

  /** Reader r has given one block back and done nothing else. */
  ghost predicate GivenBack(s: State, r: nat, s': State) {
    OnlyReader(s, r, s') && s'.readers[r].phase.Resting? && s'.readers[r].next == s.readers[r].next + 1
  }

  lemma ReleaseEffect(s: State, r: nat, start: Action, pos: nat, s': State)
    requires start == Action.Release(r) || start == PollDecide(r)
    requires Enabled(s, start) && Assumed(s, start) && StartsAt(s, r, start, pos)
    requires RunsFrom(s, ReleaseActs(s, r, start, pos), s')
    ensures GivenBack(s, r, s')
    ensures s'.readers[r].inbox == Apply(s, start).readers[r].inbox
  {
    hide Run, After, Slot, Slice, Splice, View;
    var acts := ReleaseActs(s, r, start, pos);
    ReaderRun(s, acts, r);
    var s1 := Apply(s, start);
    var tail := if HeaderAt(s.headers, pos).numReaders > 1 then [] else [Clear(r), Advance(r)];
    assert acts == [start] + ([Sub(r)] + tail);
    RunCons(s, start, [Sub(r)] + tail);
    TailEffect(s1, r, pos, tail);
  }

  lemma SubMoves(s: State, r: nat)
    requires Enabled(s, Sub(r))
    ensures var s' := Apply(s, Sub(r)); var rd := s.readers[r];
      && |s'.readers| == |s.readers|
      && s'.readers[r].next == rd.next + 1 && s'.readers[r].inbox == rd.inbox
      && s'.readers[r].phase == if HeaderAt(s.headers, rd.phase.pos).numReaders > 1 then Resting
                                else Phase.Last(rd.phase.pos, rd.phase.total)
  {
  }

  lemma TailMoves(s: State, r: nat, a: Action)
    requires Enabled(s, a) && (a == Clear(r) || a == Advance(r))
    ensures var s' := Apply(s, a); var rd := s.readers[r];
      && |s'.readers| == |s.readers|
      && s'.readers[r].next == rd.next && s'.readers[r].inbox == rd.inbox
      && (a.Advance? ==> s'.readers[r].phase == Resting)
  {
    hide Splice;
  }

  lemma TailEffect(s: State, r: nat, pos: nat, tail: seq<Action>)
    requires r < |s.readers| && s.readers[r].phase.Bumped? && s.readers[r].phase.pos == pos
    requires tail == if HeaderAt(s.headers, pos).numReaders > 1 then [] else [Clear(r), Advance(r)]
    requires Run(s, [Sub(r)] + tail)
    ensures var s' := After(s, [Sub(r)] + tail);
      && r < |s'.readers| && s'.readers[r].phase.Resting?
      && s'.readers[r].next == s.readers[r].next + 1 && s'.readers[r].inbox == s.readers[r].inbox
  {
    hide Apply, Assumed, HeaderAt;
    RunCons(s, Sub(r), tail);
    var s1 := Apply(s, Sub(r));
    SubMoves(s, r);
    if tail != [] {
      assert tail == [Clear(r)] + [Advance(r)];
      RunCons(s1, Clear(r), [Advance(r)]);
      TailMoves(s1, r, Clear(r));
      assert [Advance(r)] == [Advance(r)] + [];
      RunCons(Apply(s1, Clear(r)), Advance(r), []);
      TailMoves(Apply(s1, Clear(r)), r, Advance(r));
    }
  }

  /** The payload that a release is about to clear lies inside the ring. */
  lemma BumpedFits(s: State, r: nat)
    requires r < |s.readers| && s.readers[r].phase.Bumped? && Inv(s)
    ensures var header := HeaderAt(s.headers, s.readers[r].phase.pos);
      && s.readers[r].phase.pos + HEADER_SIZE + header.size <= |s.bytes|
      && s.readers[r].phase.total == header.size + HEADER_SIZE
  {
    hide Layout, Window, Claims, Cursors, Accounting, Headers, Payloads, Slot, Waiters;
    SubCount(s, r);
    ReaderFacts(s, r);
    BytesSize(s);
  }

  lemma LastFits(s: State, r: nat)
    requires r < |s.readers| && s.readers[r].phase.Last? && Inv(s)
    ensures var header := HeaderAt(s.headers, s.readers[r].phase.pos);
      && s.readers[r].phase.pos + HEADER_SIZE + header.size <= |s.bytes|
      && s.readers[r].phase.total == header.size + HEADER_SIZE
  {
    hide Layout, Window, Claims, Cursors, Accounting, Payloads, Slot, Waiters;
    CloserFacts(s, r);
    OldestFinal(s, r);
    BytesSize(s);
  }

  lemma AdvanceLands(s: State, r: nat)
    requires r < |s.readers| && s.readers[r].phase.Wiped? && Inv(s)
    ensures s.readOffset + s.readers[r].phase.total == s.readers[r].cursor
  {
    hide Layout, Window, Claims, Cursors, Accounting, Headers, Payloads, Slot, Waiters;
    CloserFacts(s, r);
    WatermarkStart(s);
  }
}
