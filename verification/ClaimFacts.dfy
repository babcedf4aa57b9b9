/** What a producer's claim, made without interference, amounts to. */
module ClaimFacts {
  import opened RingGeometry
  import opened Broadcast
  import opened RingModel
  import opened RingInvariant
  import opened BlockSteps
  import opened ReaderSteps
  import opened RingSafety
  import opened RingTheorems

  /** `Refused` and `EmptyMessage` are the two exceptions. `StillWaiting` means that the
      offset is won but the watermark has not made room in the checks allowed. `Claimed` is
      a writer wrapper: where its header is and how many bytes it spans. */
  datatype ClaimResult =
    | Refused
    | EmptyMessage
    | StillWaiting
    | Claimed(pos: nat, span: nat)

  /** After the compare-and-swap. */
  function Won(s: State, w: nat, size: nat): State
    requires w < |s.producers|
  {
    ApplyCas(s.(producers := s.producers[w := Loaded(size, s.count, s.offset)]), w)
  }

  /** Nothing but producer w's claims has changed: blocks were appended, all of them
      committed skips except perhaps the last. */
  ghost predicate Grown(s: State, w: nat, s': State) {
    && |s.stages| == |s.log| == |s.contents| && |s'.stages| == |s'.log| == |s'.contents|
    && |s.log| <= |s'.log|
    && s'.log[..|s.log|] == s.log && s'.stages[..|s.log|] == s.stages && s'.contents[..|s.log|] == s.contents
    && s'.n == s.n && s'.count == s.count && s'.readOffset == s.readOffset && s'.readers == s.readers
    && s'.bytes == s.bytes && s'.retired == s.retired
    && w < |s.producers| == |s'.producers| && s'.producers == s.producers[w := s'.producers[w]]
    && (forall i :: |s.log| <= i < |s'.log| - 1 ==> s'.log[i].kind == Padding && s'.stages[i] == Committed)
  }

  /** The outcome of a claim of `size` bytes. */
  ghost predicate ClaimOutcome(s: State, w: nat, size: nat, result: ClaimResult, s': State) {
    && Grown(s, w, s')
    && match result
       case Refused => s' == s
       case EmptyMessage => s' == s
       case StillWaiting =>
         && |s.log| < |s'.log|
         && var b := s'.log[|s'.log| - 1];
         && b.want == size && b.owner == w && s'.stages[|s'.log| - 1] == RingModel.Claimed
         && s'.producers[w].Waiting? && b.End() > s.readOffset + s.n
       case Claimed(pos, span) =>
         && |s.log| < |s'.log|
         && var i := |s'.log| - 1;
         && Outstanding(s', i) && s'.log[i].want == size && s'.log[i].owner == w
         && s'.log[i].End() <= s.readOffset + s.n
         && pos == Slot(s.n, s'.log[i].start) && span == s'.log[i].len == size + HEADER_SIZE
         && s'.producers[w] == Idle
  }

  /** Room for the claims that one call can make. */
  ghost predicate OffsetsToSpare(s: State) {
    s.count >= 1 && s.offset + s.n < OFFSET_LIMIT && s.readOffset + 2 * s.n < OFFSET_LIMIT
  }

  ghost function Headroom(s: State): nat {
    if s.offset <= s.readOffset + s.n then s.readOffset + s.n - s.offset else 0
  }

  lemma WonFacts(s: State, w: nat, size: nat)
    requires Enabled(s, Load(w)) && s.producers[w] == Trying(size) && OffsetsToSpare(s)
    requires Inv(s)
    ensures var s1 := Apply(s, Load(w));
      && Enabled(s1, Cas(w)) && Assumed(s1, Cas(w)) && Apply(s1, Cas(w)) == Won(s, w, size)
    ensures var bump := BumpLength(s.n, s.offset, size + HEADER_SIZE);
      && Won(s, w, size).offset == s.offset + bump && HEADER_SIZE <= bump <= s.n
      && Slot(s.n, s.offset) + HEADER_SIZE <= s.n < SIZE_LIMIT
      && 1 <= size && size + HEADER_SIZE <= s.n
  {
    hide Layout, Window, Claims, Cursors, Accounting, Headers, Payloads, Slot;
    SizeBound(s, w);
    RoomForHeader(s);
    RingBound(s);
    ClaimShape(s.n, s.offset, size + HEADER_SIZE);
    var s1 := Apply(s, Load(w));
    assert s1.producers[w := Waiting(size, Ticket(s.count, s.offset,
             BumpLength(s.n, s.offset, size + HEADER_SIZE), |s.log|))]
           == s.producers[w := Waiting(size, Ticket(s.count, s.offset,
             BumpLength(s.n, s.offset, size + HEADER_SIZE), |s.log|))];
  }

  /** The won claim while it waits. */
  lemma WonGrown(s: State, w: nat, size: nat)
    requires Enabled(s, Load(w)) && s.producers[w] == Trying(size) && OffsetsToSpare(s)
    requires Inv(s)
    ensures var s1 := Won(s, w, size);
      Grown(s, w, s1) && (!Enabled(s1, Grant(w)) ==> ClaimOutcome(s, w, size, StillWaiting, s1))
    ensures Enabled(Won(s, w, size), Grant(w))
            <==> s.offset + BumpLength(s.n, s.offset, size + HEADER_SIZE) <= s.readOffset + s.n
  {
    hide Layout, Window, Claims, Cursors, Accounting, Headers, Payloads, Slot, BumpLength, NeedsSkip;
    WonFacts(s, w, size);
    SameLengths(s);
    WatermarkBelow(s);
  }

  lemma WatermarkBelow(s: State)
    requires Inv(s)
    ensures s.readOffset <= s.offset
  {
    hide Claims, Cursors, Accounting, Headers, Payloads, Slot;
    if s.retired < |s.log| { StartsIncrease(s.log, s.offset, s.n, s.retired, |s.log|); }
  }

  /** A granted message and its header. */
  lemma MessageGrown(s: State, w: nat, size: nat, s': State)
    requires Enabled(s, Load(w)) && s.producers[w] == Trying(size) && OffsetsToSpare(s)
    requires !NeedsSkip(s.n, s.offset, size + HEADER_SIZE)
    requires Enabled(Won(s, w, size), Grant(w))
    requires Enabled(Apply(Won(s, w, size), Grant(w)), WriteHeader(w))
    requires s' == Apply(Apply(Won(s, w, size), Grant(w)), WriteHeader(w))
    requires Inv(s)
    ensures ClaimOutcome(s, w, size, ClaimResult.Claimed(Slot(s.n, s.offset), size + HEADER_SIZE), s')
    ensures |s'.log| == |s.log| + 1
  {
    hide Layout, Window, Claims, Cursors, Accounting, Headers, Payloads, Slot;
    WonFacts(s, w, size);
    SameLengths(s);
  }

  /** A granted skip, committed: the producer is back where it began, on a lap boundary. */
  lemma SkipGrown(s: State, w: nat, size: nat, s2: State, s': State)
    requires Enabled(s, Load(w)) && s.producers[w] == Trying(size) && OffsetsToSpare(s)
    requires NeedsSkip(s.n, s.offset, size + HEADER_SIZE)
    requires Enabled(Won(s, w, size), Grant(w))
    requires Enabled(Apply(Won(s, w, size), Grant(w)), WriteHeader(w))
    requires s2 == Apply(Apply(Won(s, w, size), Grant(w)), WriteHeader(w))
    requires Enabled(s2, CommitSkip(w)) && s' == Apply(s2, CommitSkip(w))
    requires Inv(s)
    ensures Grown(s, w, s') && |s'.log| == |s.log| + 1
    ensures s'.log[|s.log|].kind == Padding && s'.stages[|s.log|] == Committed
    ensures Enabled(s', Load(w)) && s'.producers[w] == Trying(size)
    ensures OffsetsToSpare(s') && Headroom(s') < Headroom(s)
    ensures Slot(s'.n, s'.offset) == 0
  {
    hide Layout, Window, Claims, Cursors, Accounting, Headers, Payloads, Slot;
    WonFacts(s, w, size);
    SameLengths(s);
    ClaimShape(s.n, s.offset, size + HEADER_SIZE);
  }

  lemma OutcomeLater(s: State, w: nat, size: nat, s1: State, result: ClaimResult, s': State)
    requires Grown(s, w, s1) && |s1.log| == |s.log| + 1
    requires s1.log[|s.log|].kind == Padding && s1.stages[|s.log|] == Committed
    requires ClaimOutcome(s1, w, size, result, s') && !result.Refused? && !result.EmptyMessage?
    ensures ClaimOutcome(s, w, size, result, s')
  {
    forall i | |s.log| <= i < |s'.log| - 1
      ensures s'.log[i].kind == Padding && s'.stages[i] == Committed
    {
      if i == |s.log| {
        assert s'.log[i] == s'.log[..|s1.log|][i];
        assert s'.stages[i] == s'.stages[..|s1.log|][i];
      }
    }
    assert s'.log[..|s.log|] == s'.log[..|s1.log|][..|s.log|];
    assert s'.stages[..|s.log|] == s'.stages[..|s1.log|][..|s.log|];
    assert s'.contents[..|s.log|] == s'.contents[..|s1.log|][..|s.log|];
  }

  // ---------------------------------------------------------------- facts the methods use

  lemma LoadEnabled(s: State, w: nat)
    requires Enabled(s, Load(w))
    ensures Assumed(s, Load(w))
  {
  }

  lemma BumpBound(n: RingSize, offset: nat, total: nat)
    ensures BumpLength(n, offset, total) <= total + HEADER_SIZE
  {
  }

  lemma WonTicket(s: State, w: nat, size: nat)
    requires w < |s.producers|
    ensures var s1 := Won(s, w, size);
      && w < |s1.producers| && s1.readOffset == s.readOffset && |s1.log| == |s.log| + 1
      && s1.producers[w] == Waiting(size, Ticket(s.count, s.offset,
                                                 BumpLength(s.n, s.offset, size + HEADER_SIZE), |s.log|))
      && s1.n == s.n && s1.count == s.count && s1.headers == s.headers && s1.bytes == s.bytes
  {
  }

  /** The header that producer w writes next. */
  ghost predicate WritesHeader(s: State, w: nat, at: nat, size: nat, kind: Kind, count: nat)
    requires Enabled(s, WriteHeader(w))
  {
    var p := s.producers[w];
    && p.ticket.at == at && p.ticket.count == count
    && (kind == Padding <==> NeedsSkip(s.n, at, p.size + HEADER_SIZE))
    && size == if kind == Padding then (s.n - Slot(s.n, at) - HEADER_SIZE) % SIZE_LIMIT else p.size
  }

  lemma HeaderWritten(s: State, w: nat, at: nat, size: nat, kind: Kind, count: nat)
    requires Enabled(s, WriteHeader(w)) && WritesHeader(s, w, at, size, kind, count)
    ensures var s1 := Apply(s, WriteHeader(w)); var pos := Slot(s.n, at);
      && s1.headers == s.headers[pos := Header(at, size % SIZE_LIMIT, kind, count % READER_LIMIT,
                                               HeaderAt(s.headers, pos).flag)]
      && s1.n == s.n && s1.count == s.count && s1.offset == s.offset && s1.readOffset == s.readOffset
      && s1.bytes == s.bytes && |s1.producers| == |s.producers|
  {
    hide Slot, NeedsSkip, Slice;
  }

  lemma GrantedWrites(s: State, w: nat, size: nat)
    requires Enabled(s, Load(w)) && s.producers[w] == Trying(size) && OffsetsToSpare(s)
    requires Enabled(Won(s, w, size), Grant(w))
    requires Inv(s)
    ensures var s2 := Apply(Won(s, w, size), Grant(w));
      && Enabled(s2, WriteHeader(w)) && s2.producers[w].ticket.at == s.offset && s2.n == s.n
      && (if NeedsSkip(s.n, s.offset, size + HEADER_SIZE)
          then WritesHeader(s2, w, s.offset, s.n - Slot(s.n, s.offset) - HEADER_SIZE, Padding, s.count)
          else WritesHeader(s2, w, s.offset, size, Normal, s.count))
    ensures size + 2 * HEADER_SIZE > s.n ==> NeedsSkip(s.n, s.offset, size + HEADER_SIZE)
    ensures size + 2 * HEADER_SIZE <= s.n && Slot(s.n, s.offset) == 0 ==>
              !NeedsSkip(s.n, s.offset, size + HEADER_SIZE)
  {
    hide Layout, Window, Claims, Cursors, Accounting, Headers, Payloads, Slot;
    WonFacts(s, w, size);
    SameLengths(s);
  }

  lemma SmallRing(s: State)
    requires Inv(s)
    ensures HEADER_SIZE <= s.n <= MAX_QUEUE_SIZE
  {
  }

  lemma BeginFacts(s: State, w: nat, size: nat)
    requires Enabled(s, Begin(w, size)) && OffsetsToSpare(s) && Inv(s)
    ensures var s1 := Apply(s, Begin(w, size));
      && Enabled(s1, Load(w)) && s1.producers[w] == Trying(size) && OffsetsToSpare(s1)
      && s1 == s.(producers := s1.producers) && s1.producers == s.producers[w := Trying(size)]
    ensures |s.stages| == |s.log| == |s.contents|
  {
    hide Layout, Window, Claims, Cursors, Accounting, Headers, Payloads;
    SameLengths(s);
  }

  lemma OutcomeFromBegin(s: State, w: nat, size: nat, s1: State, result: ClaimResult, s': State)
    requires w < |s.producers| && |s.stages| == |s.log| == |s.contents|
    requires s1 == s.(producers := s.producers[w := Trying(size)])
    requires ClaimOutcome(s1, w, size, result, s') && !result.Refused? && !result.EmptyMessage?
    ensures ClaimOutcome(s, w, size, result, s')
  {
    assert s1.producers[w := s'.producers[w]] == s.producers[w := s'.producers[w]];
  }

  lemma PayloadInRing(s: State, i: nat)
    requires Outstanding(s, i) && Inv(s)
    ensures Slot(s.n, s.log[i].start) + s.log[i].len <= s.n == |s.bytes| && HEADER_SIZE <= s.log[i].len
    ensures HeaderAt(s.headers, Slot(s.n, s.log[i].start)).size == s.log[i].PayloadLen()
  {
    hide Layout, Window, Claims, Cursors, Accounting, Headers, Payloads, Slot;
    OutstandingFacts(s, i);
  }

  lemma FilledBody(s: State, i: nat, data: Bytes)
    requires Enabled(s, Fill(i, data)) && Inv(s)
    ensures Outstanding(Apply(s, Fill(i, data)), i) && BodyWritten(s, i, data, Apply(s, Fill(i, data)))
    ensures Slot(s.n, Apply(s, Fill(i, data)).log[i].start) == Slot(s.n, s.log[i].start)
  {
    hide Layout, Window, Claims, Cursors, Accounting, Headers, Payloads, Slot;
    OutstandingFacts(s, i);
    assert Splice(s.contents[i], 0, data) == data + s.contents[i][|data|..];
  }

  lemma SplicePlaces(bytes: Bytes, at: nat, data: Bytes)
    requires at + |data| <= |bytes|
    ensures Placed(bytes, at, data, Splice(bytes, at, data))
  {
  }

  /** The header at pos reads `flag`; its other fields and all other headers are as before. */
  ghost predicate FlagSet(before: map<nat, Header>, pos: nat, flag: Flag, after: map<nat, Header>) {
    forall p: nat :: HeaderAt(after, p) == if p == pos then HeaderAt(before, p).(flag := flag) else HeaderAt(before, p)
  }

  /** Block i has come to a final stage. No other block has, no other payload has changed, and
      no agent, offset or count has. */
  ghost predicate Finished(s: State, i: nat, stage: Stage, s': State) {
    && i < |s.stages| && s'.stages == s.stages[i := stage] && s'.log == s.log
    && |s'.contents| == |s.contents|
    && (forall k :: 0 <= k < |s.contents| && k != i ==> s'.contents[k] == s.contents[k])
    && s'.producers == s.producers && s'.readers == s.readers
    && s'.n == s.n && s'.count == s.count && s'.offset == s.offset && s'.readOffset == s.readOffset
  }

  /** One step. */
  ghost predicate Steps(s: State, a: Action, s': State) {
    Enabled(s, a) && s' == Apply(s, a)
  }

  /** The bytes from `at` on are `data`; all others are as before. */
  ghost predicate Placed(before: Bytes, at: nat, data: Bytes, after: Bytes) {
    && at + |data| <= |before| == |after|
    && forall x :: 0 <= x < |after| ==> after[x] == if at <= x < at + |data| then data[x - at] else before[x]
  }

  /** The payload of block i is zero; no other byte has changed. */
  ghost predicate Blanked(s: State, i: nat, before: Bytes, after: Bytes) {
    i < |s.log| && Placed(before, Slot(s.n, s.log[i].start) + HEADER_SIZE, Zeros(s.log[i].PayloadLen()), after)
  }

  /** The message of block i begins with `data` and goes on as before. */
  ghost predicate BodyWritten(s: State, i: nat, data: Bytes, s': State) {
    && i < |s.contents| && |data| <= |s.contents[i]|
    && s'.contents == s.contents[i := data + s.contents[i][|data|..]]
  }

  /** The committed bytes of the block due to reader r next. */
  ghost predicate DueBody(s: State, r: nat, body: Bytes) {
    && r < |s.readers|
    && var i := s.readers[r].next;
    && i < |s.stages| && i < |s.contents| && s.stages[i] == Committed && s.contents[i] == body
  }

  /** Reader r holds no wrapper any more and is otherwise as it was, like everything else. */
  ghost predicate PutBack(s: State, r: nat, s': State) {
    && r < |s.readers|
    && var rd := s.readers[r];
    s' == s.(readers := s.readers[r := Reader(rd.join, rd.next, rd.cursor, Resting, rd.inbox)])
  }

  lemma HeldFits(s: State, r: nat)
    requires r < |s.readers| && s.readers[r].phase.Holding? && Inv(s)
    ensures s.readers[r].phase.pos + s.readers[r].phase.span <= |s.bytes|
  {
    hide Layout, Window, Claims, Cursors, Accounting, Headers, Payloads, Slot, Waiters;
    ReaderFacts(s, r);
    LiveHeader(s, r);
    BytesSize(s);
  }
}
