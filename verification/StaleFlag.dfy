/**
 What the machine that has nothing but bytes does when sizes are mixed: runs with one
 producer and one reader, in a ring of 512 bytes, in which a byte of an old offset is taken
 for a commit flag. Release leaves the offset of a cleared header behind and a claim does
 not write the flag.
 */
module StaleFlag {
  import opened RingGeometry
  import opened Broadcast
  import opened RingModel
  import opened HeaderBytes
  import opened RawRing
  import opened RawMachine
  import opened RawRuns
  import opened SizeGrids

  /** A state that the machine reaches from a fresh file. */
  ghost predicate RawReached(s: State) {
    exists s0, acts :: RawRunsTo(s0, acts, s)
  }

  ghost predicate RawRunsTo(s0: State, acts: seq<Action>, s: State) {
    RingModel.Init(s0) && RawCanRun(s0, acts) && RawAfter(s0, acts) == s
  }

  lemma {:induction false} RawExtend(s: State, acts: seq<Action>, a: Action)
    requires RawCanRun(s, acts) && Enabled(RawAfter(s, acts), a)
    ensures RawCanRun(s, acts + [a]) && RawAfter(s, acts + [a]) == RawStep(RawAfter(s, acts), a)
    decreases |acts|
  {
    hide Enabled, RawStep;
    if acts == [] {
      assert acts + [a] == [a];
      assert [a][1..] == [];
    } else {
      assert (acts + [a])[1..] == acts[1..] + [a];
      RawExtend(RawStep(s, acts[0]), acts[1..], a);
    }
  }

  lemma Next(s: State, a: Action) returns (s': State)
    requires Enabled(s, a) && RawReached(s)
    ensures s' == RawStep(s, a) && RawReached(s')
  {
    hide Enabled, RawStep, RawCanRun, RawAfter;
    var s0, acts :| RawRunsTo(s0, acts, s);
    RawExtend(s0, acts, a);
    s' := RawStep(s, a);
    assert RawRunsTo(s0, acts + [a], s');
  }

  /** A step that loads no header. */
  lemma Blind(s: State, a: Action) returns (s': State)
    requires Enabled(s, a) && !Loading(a) && RawReached(s)
    ensures RawReached(s') && s' == Apply(s, a).(bytes := RawApply(s.bytes, s, a), headers := s'.headers)
  {
    hide Enabled, Apply, RawApply, RawStep, RawReached;
    s' := Next(s, a);
    SameUnloaded(s, a);
  }

  /** One producer, and one reader that has given back every block. */
  ghost predicate Calm(s: State, p: Producer) {
    && s.n == 512 == |s.bytes| && s.count == 1 && s.producers == [p]
    && |s.readers| == 1 && s.readers[0].phase == Resting && s.readers[0].next == |s.log|
    && s.readers[0].cursor == s.readOffset == s.offset < 1024
    && |s.stages| == |s.log| == |s.contents|
  }

  /** The last block has its header, and the reader is due to read it. */
  ghost predicate Due(s: State, at: nat, payload: nat, kind: Kind, stage: Stage, producer: Producer) {
    && s.n == 512 == |s.bytes| && s.count == 1 && s.producers == [producer]
    && Slot(512, at) + HEADER_SIZE + payload <= 512
    && s.readOffset == at && s.offset == at + payload + HEADER_SIZE < 1024
    && |s.stages| == |s.log| == |s.contents| && |s.log| > 0
    && s.log[|s.log| - 1].start == at && s.log[|s.log| - 1].kind == kind && s.stages[|s.log| - 1] == stage
    && |s.readers| == 1 && s.readers[0].cursor == at && s.readers[0].next == |s.log| - 1
    && s.readers[0].phase == Resting
    && HeaderIn(s.bytes, Slot(512, at)).(flag := NotReady) == Header(at, payload, kind, 1, NotReady)
    && (stage == Committed ==> HeaderIn(s.bytes, Slot(512, at)).flag == Ready)
  }

  // ---------------------------------------------------------------- claiming

  lemma Win(s: State, size: nat) returns (s': State)
    requires RawReached(s) && Calm(s, Trying(size)) && 1 <= size <= 494
    ensures RawReached(s')
    ensures var bump := BumpLength(512, s.offset, size + HEADER_SIZE);
      var skip := NeedsSkip(512, s.offset, size + HEADER_SIZE);
      s' == s.(headers := s'.headers,
               offset := s.offset + bump,
               producers := [Granted(size, Ticket(1, s.offset, bump, |s.log|))],
               log := s.log + [Block(s.offset, bump, if skip then Padding else Normal, size, 1, 0)],
               stages := s.stages + [Admitted],
               contents := s.contents + [[]])
  {
    BumpFits(s.offset, size);
    hide Slot, BumpLength, NeedsSkip, Slice, Splice, RawReached;
    var s1 := Blind(s, Load(0));
    var s2 := Blind(s1, Cas(0));
    assert s2.producers == [Waiting(size, Ticket(1, s.offset, BumpLength(512, s.offset, size + HEADER_SIZE), |s.log|))];
    s' := Blind(s2, Grant(0));
    assert s'.stages == s.stages + [Admitted];
  }

  lemma BumpFits(offset: nat, size: nat)
    ensures 0 < BumpLength(512, offset, size + HEADER_SIZE) <= 512
    ensures BumpLength(512, offset, size + HEADER_SIZE)
            == if NeedsSkip(512, offset, size + HEADER_SIZE) then 512 - Slot(512, offset) else size + HEADER_SIZE
  {
  }

  /** The offset's bytes lie at the start of the header, all else is as it was, but for the
      rest of the header. */
  ghost predicate Stamped(b: Bytes, b': Bytes, p: nat, at: nat) {
    && |b| == |b'| == 512 && p + HEADER_SIZE <= 512
    && (forall k :: 0 <= k < 8 ==> b'[p + k] == LittleEndian(at, 8)[k])
    && forall x :: 0 <= x < 512 && !(p <= x < p + 17) ==> b'[x] == b[x]
  }

  lemma StoresStamp(b: Bytes, p: nat, at: nat, size: nat, kind: Kind)
    requires |b| == 512 && p + HEADER_SIZE <= 512 && at < OFFSET_LIMIT && size < SIZE_LIMIT
    ensures Stamped(b, HeaderStores(b, p, at, size, kind, 1), p, at)
  {
    HeaderStored(b, p, at, size, kind, 1);
    hide Splice, HeaderIn;
    var b1 := Splice(b, p + 0, LittleEndian(at, 8));
    var b2 := Splice(b1, p + 8, LittleEndian(size, 4));
    var b3 := Splice(b2, p + 12, LittleEndian(KindCode(kind), 4));
    forall k | 0 <= k < 8 ensures HeaderStores(b, p, at, size, kind, 1)[p + k] == LittleEndian(at, 8)[k] {
      SplicedByte(b, p + 0, LittleEndian(at, 8), p + k);
      SplicedByte(b1, p + 8, LittleEndian(size, 4), p + k);
      SplicedByte(b2, p + 12, LittleEndian(KindCode(kind), 4), p + k);
      SplicedByte(b3, p + 16, [1], p + k);
    }
  }

  lemma PutHeader(s: State, at: nat, size: nat) returns (s': State)
    requires RawReached(s) && |s.log| > 0 && |s.stages| == |s.log| == |s.contents|
    requires s.n == 512 && 1 <= size <= 494 && Slot(512, at) + HEADER_SIZE <= 512
    requires s.producers == [Granted(size, Ticket(1, at, BumpLength(512, at, size + HEADER_SIZE), |s.log| - 1))]
    ensures RawReached(s')
    ensures var skip := NeedsSkip(512, at, size + HEADER_SIZE);
      var p := Slot(512, at);
      var payload := if skip then 512 - p - HEADER_SIZE else size;
      && s' == s.(headers := s'.headers,
                  bytes := HeaderStores(s.bytes, p, at, payload, if skip then Padding else Normal, 1),
                  producers := [if skip then Skipping(size, s.producers[0].ticket) else Idle],
                  stages := s.stages[|s.log| - 1 := Open],
                  contents := s'.contents)
      && |s'.contents| == |s.log|
  {
    hide Slot, BumpLength, NeedsSkip, Slice, Splice, HeaderStores, RawReached;
    s' := Blind(s, WriteHeader(0));
  }

  /** The producer's claim up to its written header. */
  lemma Claim(s: State, size: nat) returns (s': State)
    requires RawReached(s) && Calm(s, Trying(size)) && 1 <= size <= 494
    requires Slot(512, s.offset) + HEADER_SIZE <= 512 && s.offset + BumpLength(512, s.offset, size + HEADER_SIZE) < 1024
    ensures RawReached(s') && |s'.log| == |s.log| + 1 && Stamped(s.bytes, s'.bytes, Slot(512, s.offset), s.offset)
    ensures if NeedsSkip(512, s.offset, size + HEADER_SIZE) then
              var payload := 512 - Slot(512, s.offset) - HEADER_SIZE;
              Due(s', s.offset, payload, Padding, Open,
                  Skipping(size, Ticket(1, s.offset, payload + HEADER_SIZE, |s.log|)))
            else
              Due(s', s.offset, size, Normal, Open, Idle)
  {
    BumpFits(s.offset, size);
    FitsBeside(s.offset, size);
    hide Slot, BumpLength, NeedsSkip, HeaderStores, HeaderIn, RawReached, Stamped;
    var s1 := Win(s, size);
    s' := PutHeader(s1, s.offset, size);
    var skip := NeedsSkip(512, s.offset, size + HEADER_SIZE);
    var payload := if skip then 512 - Slot(512, s.offset) - HEADER_SIZE else size;
    HeaderStored(s.bytes, Slot(512, s.offset), s.offset, payload, if skip then Padding else Normal, 1);
    StoresStamp(s.bytes, Slot(512, s.offset), s.offset, payload, if skip then Padding else Normal);
  }

  lemma FitsBeside(offset: nat, size: nat)
    ensures !NeedsSkip(512, offset, size + HEADER_SIZE) <==> Slot(512, offset) + size + 2 * HEADER_SIZE <= 512
  {
  }

  // ---------------------------------------------------------------- committing, reading, giving back

  lemma MessageFlag(s: State, i: nat) returns (s': State)
    requires RawReached(s) && Enabled(s, Commit(i))
    ensures RawReached(s')
    ensures s' == s.(headers := s'.headers, tenant := s'.tenant,
                     bytes := Splice(s.bytes, Slot(s.n, s.log[i].start) + 17, [FlagCode(Ready)]),
                     stages := s.stages[i := Committed])
  {
    hide Slot, Splice, RawReached;
    s' := Blind(s, Commit(i));
  }

  lemma CommitDue(s: State, at: nat, payload: nat) returns (s': State)
    requires RawReached(s) && Due(s, at, payload, Normal, Open, Idle)
    ensures RawReached(s') && Due(s', at, payload, Normal, Committed, Idle) && |s'.log| == |s.log|
    ensures forall x :: 0 <= x < 512 && x != Slot(512, at) + 17 ==> s'.bytes[x] == s.bytes[x]
  {
    hide Slot, Splice, HeaderIn, RawReached;
    FlagStored(s.bytes, Slot(512, at));
    s' := MessageFlag(s, |s.log| - 1);
  }

  lemma SkipFlag(s: State, at: nat, size: nat) returns (s': State)
    requires RawReached(s) && |s.log| == |s.stages| > 0 && |s.producers| == 1
    requires s.producers[0].Skipping? && s.producers[0].size == size
    requires s.producers[0].ticket.at == at && s.producers[0].ticket.idx == |s.log| - 1
    ensures RawReached(s')
    ensures s' == s.(headers := s'.headers, tenant := s'.tenant, producers := [Trying(size)],
                     bytes := Splice(s.bytes, Slot(s.n, at) + 17, [FlagCode(Ready)]),
                     stages := s.stages[|s.log| - 1 := Committed])
  {
    hide Slot, Splice, RawReached;
    s' := Blind(s, CommitSkip(0));
    assert s'.producers == [Trying(size)];
  }

  lemma CommitDueSkip(s: State, at: nat, payload: nat, size: nat) returns (s': State)
    requires |s.log| > 0 && RawReached(s)
    requires Due(s, at, payload, Padding, Open, Skipping(size, Ticket(1, at, payload + HEADER_SIZE, |s.log| - 1)))
    ensures RawReached(s') && Due(s', at, payload, Padding, Committed, Trying(size)) && |s'.log| == |s.log|
    ensures forall x :: 0 <= x < 512 && x != Slot(512, at) + 17 ==> s'.bytes[x] == s.bytes[x]
  {
    hide Slot, Splice, HeaderIn, RawReached;
    FlagStored(s.bytes, Slot(512, at));
    s' := SkipFlag(s, at, size);
  }

  lemma FlagStored(b: Bytes, p: nat)
    requires p + HEADER_SIZE <= |b|
    ensures HeaderIn(Splice(b, p + 17, [FlagCode(Ready)]), p) == HeaderIn(b, p).(flag := Ready)
    ensures forall x :: 0 <= x < |b| && x != p + 17 ==> Splice(b, p + 17, [FlagCode(Ready)])[x] == b[x]
  {
    hide Splice, HeaderIn;
    StoreFlag(b, p, Ready);
    forall x | 0 <= x < |b| && x != p + 17 ensures Splice(b, p + 17, [FlagCode(Ready)])[x] == b[x] {
      SplicedByte(b, p + 17, [FlagCode(Ready)], x);
    }
  }

  /** A step that looks at the header at p. */
  lemma Looking(s: State, a: Action, p: nat) returns (s': State)
    requires Enabled(s, a) && Loading(a) && p == LoadedAt(s, a) && RawReached(s)
    ensures RawReached(s') && Enabled(ReadBack(s), a)
    ensures s' == Apply(ReadBack(s), a).(bytes := RawApply(s.bytes, s, a))
    ensures HeaderAt(ReadBack(s).headers, p) == HeaderIn(s.bytes, p)
  {
    hide Enabled, Apply, RawApply, RawReached, LoadedAt, HeaderIn, HeadersIn;
    StillEnabled(s, a);
    RawIgnoresRecords(s, a);
    DecodedAt(s.bytes, p);
    s' := Next(s, a);
    assert ReadBack(s).bytes == s.bytes;
  }

  lemma SeesFlag(s: State, p: nat) returns (s': State)
    requires RawReached(s) && |s.readers| == 1 && s.readers[0].phase == Resting
    requires p == Slot(s.n, s.readers[0].cursor) && HeaderIn(s.bytes, p).flag != NotReady
    ensures RawReached(s') && s'.bytes == s.bytes
    ensures s' == s.(headers := s'.headers,
                     readers := [s.readers[0].(phase := Seen(HeaderIn(s.bytes, p).flag, FreshLoad(s, 0)))])
  {
    hide Slot, HeaderIn, HeaderAt, HeadersIn, RawReached, ApplyPollDecide, ApplyRelease, ApplySub, ApplyClear,
         ApplyAbort;
    s' := Looking(s, PollLoad(0), p);
    assert s'.readers == [s'.readers[0]];
  }

  lemma Decides(s: State, p: nat) returns (s': State)
    requires RawReached(s) && |s.readers| == 1 && s.readers[0].phase.Seen? && p == Slot(s.n, s.readers[0].cursor)
    ensures RawReached(s') && s'.bytes == s.bytes
    ensures var h := HeaderIn(s.bytes, p); var rd := s.readers[0];
      s' == s.(headers := s'.headers, readers := [
                 if rd.phase.flag == Aborted then StartRelease(rd, h, p)
                 else if h.absOffset != rd.cursor then rd.(phase := Resting)
                 else if h.kind == Padding then StartRelease(rd, h, p)
                 else rd.(phase := Holding(p, h.size + HEADER_SIZE))])
  {
    hide Slot, HeaderIn, HeaderAt, HeadersIn, RawReached, ApplyPollLoad, ApplyRelease, ApplySub, ApplyClear, ApplyAbort;
    s' := Looking(s, PollDecide(0), p);
    assert s'.readers == [s'.readers[0]];
  }

  lemma Releases(s: State, p: nat, size: nat) returns (s': State)
    requires RawReached(s) && |s.readers| == 1 && s.readers[0].phase == Holding(p, size + HEADER_SIZE)
    requires HeaderIn(s.bytes, p).size == size
    ensures RawReached(s') && s'.bytes == s.bytes
    ensures |s'.readers| == 1 && s' == s.(headers := s'.headers, readers := s'.readers)
    ensures s'.readers[0].phase == Bumped(p, size + HEADER_SIZE) && s'.readers[0].next == s.readers[0].next
    ensures s'.readers[0].cursor == s.readers[0].cursor + size + HEADER_SIZE
  {
    hide Slot, HeaderIn, HeaderAt, HeadersIn, RawReached, ApplyPollLoad, ApplyPollDecide, ApplySub, ApplyClear,
         ApplyAbort, View;
    s' := Looking(s, Release(0), p);
  }

  /** The reader polls the committed block and starts to give it back. */
  lemma ReadDue(s: State, at: nat, payload: nat, kind: Kind, p: Producer) returns (s': State)
    requires RawReached(s) && Due(s, at, payload, kind, Committed, p)
    ensures RawReached(s') && s'.bytes == s.bytes && s' == s.(headers := s'.headers, readers := s'.readers)
    ensures |s'.readers| == 1 && s'.readers[0].phase == Bumped(Slot(512, at), payload + HEADER_SIZE)
    ensures s'.readers[0].next == |s.log| - 1 && s'.readers[0].cursor == at + payload + HEADER_SIZE
  {
    hide Slot, HeaderIn, RawReached;
    var pos := Slot(512, at);
    var s1 := SeesFlag(s, pos);
    s' := Decides(s1, pos);
    if kind == Normal { s' := Releases(s', pos, payload); }
  }

  /** The last fetch_sub. */
  lemma Counts(s: State, p: nat, total: nat) returns (s': State)
    requires RawReached(s) && |s.readers| == 1 && s.readers[0].phase == Bumped(p, total)
    requires HeaderIn(s.bytes, p).numReaders <= 1 && p + HEADER_SIZE <= |s.bytes|
    ensures RawReached(s') && |s'.bytes| == |s.bytes|
    ensures s' == s.(headers := s'.headers, bytes := s'.bytes, closer := Some(0),
                     readers := [s.readers[0].(next := s.readers[0].next + 1, phase := Last(p, total))])
    ensures HeaderIn(s'.bytes, p).size == HeaderIn(s.bytes, p).size
    ensures forall x :: 0 <= x < |s.bytes| && x != p + 16 ==> s'.bytes[x] == s.bytes[x]
  {
    hide Slot, HeaderIn, HeaderAt, HeadersIn, SubStores, RawReached, ApplyPollLoad, ApplyPollDecide, ApplyRelease,
         ApplyClear, ApplyAbort;
    SubStored(s.bytes, p);
    s' := Looking(s, Sub(0), p);
    assert s'.readers == [s'.readers[0]];
  }

  /** Clearing and the watermark bump. */
  lemma Wipes(s: State, p: nat, size: nat) returns (s': State)
    requires RawReached(s) && |s.readers| == 1 && s.readers[0].phase == Last(p, size + HEADER_SIZE)
    requires HeaderIn(s.bytes, p).size == size && p + HEADER_SIZE + size <= |s.bytes|
    ensures RawReached(s') && |s'.bytes| == |s.bytes|
    ensures s'.readers == [s.readers[0].(phase := Resting)] && s'.readOffset == s.readOffset + size + HEADER_SIZE
    ensures s'.n == s.n && s'.count == s.count && s'.offset == s.offset && s'.producers == s.producers
    ensures s'.log == s.log && s'.stages == s.stages && s'.contents == s.contents && s'.retired == s.retired + 1
    ensures forall x :: p + HEADER_SIZE <= x < p + HEADER_SIZE + size ==> s'.bytes[x] == 0
    ensures forall x :: 0 <= x < |s.bytes| && !(p + 8 <= x < p + HEADER_SIZE + size) ==> s'.bytes[x] == s.bytes[x]
  {
    hide Slot, HeaderIn, HeaderAt, HeadersIn, ClearStores, Splice, RawReached, ApplyPollLoad, ApplyPollDecide,
         ApplyRelease, ApplySub, ApplyAbort;
    Cleared(s.bytes, p, size);
    var s1 := Looking(s, Clear(0), p);
    assert s1.readers == [s1.readers[0]];
    s' := Blind(s1, Advance(0));
    assert s'.readers == [s'.readers[0]];
  }

  /** The bytes of a block that has come and gone: its offset stays behind, its payload is
      zero, and nothing outside it has changed. */
  ghost predicate Passed(b: Bytes, b': Bytes, p: nat, at: nat, size: nat) {
    && |b| == |b'| == 512 && p + HEADER_SIZE + size <= 512
    && (forall k :: 0 <= k < 8 ==> b'[p + k] == LittleEndian(at, 8)[k])
    && (forall x :: p + HEADER_SIZE <= x < p + HEADER_SIZE + size ==> b'[x] == 0)
    && forall x :: 0 <= x < 512 && !(p <= x < p + HEADER_SIZE + size) ==> b'[x] == b[x]
  }

  lemma GivesBack(s: State, p: nat, size: nat) returns (s': State)
    requires RawReached(s) && |s.readers| == 1 && s.readers[0].phase == Bumped(p, size + HEADER_SIZE)
    requires HeaderIn(s.bytes, p).numReaders <= 1 && HeaderIn(s.bytes, p).size == size
    requires p + HEADER_SIZE + size <= |s.bytes|
    ensures RawReached(s') && |s'.bytes| == |s.bytes|
    ensures s'.readers == [s.readers[0].(next := s.readers[0].next + 1, phase := Resting)]
    ensures s'.readOffset == s.readOffset + size + HEADER_SIZE && s'.retired == s.retired + 1
    ensures s'.n == s.n && s'.count == s.count && s'.offset == s.offset && s'.producers == s.producers
    ensures s'.log == s.log && s'.stages == s.stages && s'.contents == s.contents
    ensures forall x :: p + HEADER_SIZE <= x < p + HEADER_SIZE + size ==> s'.bytes[x] == 0
    ensures forall x :: 0 <= x < |s.bytes| && !(p + 8 <= x < p + HEADER_SIZE + size) ==> s'.bytes[x] == s.bytes[x]
  {
    hide HeaderIn, RawReached;
    var s1 := Counts(s, p, size + HEADER_SIZE);
    s' := Wipes(s1, p, size);
  }

  // ---------------------------------------------------------------- one block after another

  lemma SendAndRead(s: State, size: nat) returns (s': State)
    requires RawReached(s) && Calm(s, Trying(size)) && 1 <= size <= 494
    requires Slot(512, s.offset) + size + 2 * HEADER_SIZE <= 512 && s.offset + size + HEADER_SIZE < 1024
    ensures RawReached(s') && Calm(s', Idle) && s'.offset == s.offset + size + HEADER_SIZE
    ensures Passed(s.bytes, s'.bytes, Slot(512, s.offset), s.offset, size)
  {
    BumpFits(s.offset, size);
    FitsBeside(s.offset, size);
    hide Slot, BumpLength, NeedsSkip, HeaderIn, RawReached;
    var p := Slot(512, s.offset);
    var s1 := Claim(s, size);
    var s2 := CommitDue(s1, s.offset, size);
    var s3 := ReadDue(s2, s.offset, size, Normal, Idle);
    s' := GivesBack(s3, p, size);
  }

  lemma SkipAndPass(s: State, size: nat) returns (s': State)
    requires RawReached(s) && Calm(s, Trying(size)) && 1 <= size <= 494
    requires Slot(512, s.offset) + HEADER_SIZE <= 512 < Slot(512, s.offset) + size + 2 * HEADER_SIZE
    requires s.offset + 512 < 1024 + Slot(512, s.offset)
    ensures RawReached(s') && Calm(s', Trying(size)) && s'.offset == s.offset + 512 - Slot(512, s.offset)
    ensures forall x :: 0 <= x < Slot(512, s.offset) ==> s'.bytes[x] == s.bytes[x]
  {
    BumpFits(s.offset, size);
    FitsBeside(s.offset, size);
    hide Slot, BumpLength, NeedsSkip, HeaderIn, RawReached;
    var p := Slot(512, s.offset);
    var payload := 512 - p - HEADER_SIZE;
    var s1 := Claim(s, size);
    var s2 := CommitDueSkip(s1, s.offset, payload, size);
    var s3 := ReadDue(s2, s.offset, payload, Padding, Trying(size));
    s' := GivesBack(s3, p, payload);
  }

  lemma Begun(s: State, size: nat) returns (s': State)
    requires RawReached(s) && Calm(s, Idle) && 1 <= size <= 494
    ensures RawReached(s') && Calm(s', Trying(size)) && s'.offset == s.offset && s'.bytes == s.bytes
    ensures s'.log == s.log && s'.retired == s.retired
  {
    hide RawReached;
    s' := Blind(s, Begin(0, size));
  }

  lemma Empty() returns (s: State)
    ensures RawReached(s)
    ensures s == State(512, 0, 0, 0, map[], Zeros(512), [Idle], [], [], [], [], 0, 0, None, map[])
  {
    s := State(512, 0, 0, 0, map[], Zeros(512), [Idle], [], [], [], [], 0, 0, None, map[]);
    assert RawCanRun(s, []) && RawAfter(s, []) == s;
    hide RawCanRun, RawAfter;
    assert RawRunsTo(s, [], s);
  }

  /** A fresh file of 512 bytes that one reader has joined. */
  lemma Fresh() returns (s: State)
    ensures RawReached(s) && Calm(s, Idle) && s.offset == 0 && s.bytes == Zeros(512)
  {
    hide RawReached;
    var s0 := Empty();
    s := Blind(s0, Join);
  }

  lemma InFirstLap(x: nat)
    requires x < 512
    ensures Slot(512, x) == x
  {
  }

  lemma LapBoundary()
    ensures Slot(512, 512) == 0
  {
  }

  lemma CalmBytes(s: State, p: Producer)
    requires Calm(s, p)
    ensures |s.bytes| == 512
  {
  }

  /** The ring is zero from c to q, and at q lies the offset q. */
  ghost predicate Residue(b: Bytes, c: nat, q: nat) {
    && |b| == 512 && c <= q && q + 8 <= 512
    && (forall x :: c <= x < q ==> b[x] == 0)
    && forall k :: 0 <= k < 8 ==> b[q + k] == LittleEndian(q, 8)[k]
  }

  /** A message that ends at q, and one of a single byte, both read. */
  lemma FirstTwo(q: nat) returns (s: State)
    requires 2 * HEADER_SIZE < q <= 300
    ensures RawReached(s) && Calm(s, Idle) && s.offset == q + 19 && Residue(s.bytes, HEADER_SIZE, q)
  {
    hide Slot, BumpLength, NeedsSkip, RawReached, LittleEndian, Passed, Residue, Calm;
    InFirstLap(0);
    InFirstLap(q);
    var s0 := Fresh();
    var s1 := Begun(s0, q - HEADER_SIZE);
    var s2 := SendAndRead(s1, q - HEADER_SIZE);
    var s3 := Begun(s2, 1);
    s := SendAndRead(s3, 1);
    ResidueLeft(s0.bytes, s2.bytes, s.bytes, q);
  }

  lemma ResidueLeft(b: Bytes, b1: Bytes, b2: Bytes, q: nat)
    requires HEADER_SIZE < q <= 300
    requires Passed(b, b1, 0, 0, q - HEADER_SIZE) && Passed(b1, b2, q, q, 1)
    ensures Residue(b2, HEADER_SIZE, q)
  {
    hide LittleEndian;
    forall x | HEADER_SIZE <= x < q ensures b2[x] == 0 {
      assert b1[x] == 0;
    }
  }

  lemma ResidueStays(b: Bytes, b1: Bytes, b2: Bytes, q: nat, c: nat)
    requires HEADER_SIZE < c <= q && q + 19 <= 512 && Residue(b, HEADER_SIZE, q) && |b1| == 512
    requires forall x :: 0 <= x < q + 19 ==> b1[x] == b[x]
    requires Passed(b1, b2, 0, 512, c - HEADER_SIZE)
    ensures Residue(b2, c, q)
  {
    hide LittleEndian;
    forall k | 0 <= k < 8 ensures b2[q + k] == LittleEndian(q, 8)[k] {
      assert b1[q + k] == b[q + k];
    }
  }

  /** Then a skip, and a message that ends at c on the next lap, read too. */
  lemma SecondLap(q: nat, c: nat) returns (s: State)
    requires 2 * HEADER_SIZE < c <= q <= 300 && c + q + 19 + HEADER_SIZE > 512
    ensures RawReached(s) && Calm(s, Idle) && s.offset == 512 + c && Residue(s.bytes, c, q)
  {
    hide Slot, BumpLength, NeedsSkip, RawReached, LittleEndian, Passed, Residue, Calm;
    InFirstLap(q + 19);
    LapBoundary();
    var s0 := FirstTwo(q);
    var s1 := Begun(s0, c - HEADER_SIZE);
    var s2 := SkipAndPass(s1, c - HEADER_SIZE);
    CalmBytes(s2, Trying(c - HEADER_SIZE));
    s := SendAndRead(s2, c - HEADER_SIZE);
    ResidueStays(s0.bytes, s2.bytes, s.bytes, q, c);
  }

  // ---------------------------------------------------------------- three failures

  /** Messages of 238, 1 and 222 bytes, and one more of one byte that is claimed and not
      committed: the poll returns a wrapper on it. */
  lemma PollReturnsUnfinished() returns (s: State)
    ensures RawReached(s) && s.n == 512 && |s.producers| == |s.readers| == 1
    ensures s.readers[0].phase == Holding(240, 19)
    ensures var i := s.readers[0].next;
      && i < |s.log| == |s.stages| && s.log[i].kind == Normal && s.log[i].start == s.readers[0].cursor
      && s.stages[i] == Open
  {
    assert Slot(512, 752) == 240;
    SecondByte();
    BumpFits(752, 1);
    FitsBeside(752, 1);
    hide Slot, RawReached, LittleEndian, HeaderIn, BumpLength, NeedsSkip;
    var s0 := SecondLap(256, 240);
    assert s0.bytes[256 + 1] == 1;
    var s1 := Begun(s0, 1);
    var s2 := Claim(s1, 1);
    FlagByte(s2.bytes, 240);
    var s3 := SeesFlag(s2, 240);
    s := Decides(s3, 240);
  }

  lemma SecondByte()
    ensures LittleEndian(256, 8)[1] == 1
  {
    assert LittleEndian(256, 8) == [0] + LittleEndian(1, 7);
    assert LittleEndian(1, 7)[0] == 1;
  }

  /** The drain's test: its loop goes on and it finds a READY flag. */
  predicate DrainGoesOn(s: State)
    requires |s.readers| > 0
  {
    s.readers[0].cursor <= s.offset && HeaderIn(s.bytes, Slot(s.n, s.readers[0].cursor)).flag == Ready
  }

  /** Messages of 238, 1 and 222 bytes, all given back: nothing is left to drain, and the
      drain goes on. */
  lemma DrainReleasesNothing() returns (s: State)
    ensures RawReached(s) && Calm(s, Idle) && DrainGoesOn(s)
  {
    assert Slot(512, 752) == 240;
    SecondByte();
    hide Slot, RawReached, LittleEndian, HeaderIn;
    s := SecondLap(256, 240);
    assert s.bytes[256 + 1] == 1;
    FlagByte(s.bytes, 240);
  }

  lemma EmptyHeader(b: Bytes, p: nat)
    requires p + HEADER_SIZE <= |b| && forall x :: p <= x < p + 17 ==> b[x] == 0
    ensures var h := HeaderIn(b, p); h.size == 0 && h.numReaders == 0 && h.flag == FlagOfByte(b[p + 17])
  {
    var d := b[p..p + HEADER_SIZE];
    assert forall x :: 0 <= x < 17 ==> d[x] == b[p + x];
    ZeroBytes(d[8..12]);
  }

  /** Messages of 240, 1 and 223 bytes, all given back, none aborted. The idle reader's next
      poll finds an ABORTED flag where there is no message, gives back the 18 bytes of a
      header that nobody wrote, and takes cursor and watermark past the write offset: the
      next message is claimed behind the reader and never seen. */
  lemma IdlePollPassesWriter() returns (s: State, s': State)
    ensures RawReached(s) && Calm(s, Idle)
    ensures RawReached(s') && s'.log == s.log && s'.offset == s.offset && |s'.readers| == 1
    ensures s'.readers[0].phase.Resting? && s'.readers[0].cursor == s'.readOffset == s'.offset + HEADER_SIZE
  {
    assert Slot(512, 753) == 241;
    assert LittleEndian(258, 8)[0] == 2;
    hide Slot, RawReached, LittleEndian, HeaderIn;
    s := SecondLap(258, 241);
    assert s.bytes[258 + 0] == 2;
    EmptyHeader(s.bytes, 241);
    var s1 := SeesFlag(s, 241);
    var s2 := Decides(s1, 241);
    s' := GivesBack(s2, 241, 0);
  }
}
