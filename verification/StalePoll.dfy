/**
 Two reachable states in which a poll goes wrong. `poll_buffer` loads the commit flag and
 then, separately, the header. On a full ring the flag at a reader's position is that of
 an older block, and what follows the load is not always caught.
 */
module StalePoll {
  import opened RingGeometry
  import opened RingModel
  import opened Runs
  import opened RingTheorems
  import opened Overruns

  lemma Next(s: State, a: Action) returns (s': State)
    requires Reached(s) && Enabled(s, a) && Assumed(s, a)
    ensures s' == Apply(s, a) && Reached(s')
  {
    hide Enabled, Assumed, Apply;
    s' := Apply(s, a);
    RunOne(s, a);
    ReachedRun(s, [a]);
  }

  /** A ring of 64 bytes, two producers, two readers that have joined. */
  lemma TwoReaders() returns (s: State)
    ensures Reached(s) && s.n == 64 && s.count == 2 && s.offset == 0 && s.readOffset == 0
    ensures s.headers == map[] && s.producers == [Idle, Idle]
    ensures s.readers == [Reader(0, 0, 0, Resting, []), Reader(0, 0, 0, Resting, [])]
    ensures s.log == [] && s.stages == [] && s.contents == [] && s.retired == 0
  {
    var s0 := State(64, 0, 0, 0, map[], Zeros(64), [Idle, Idle], [], [], [], [], 0, 0, None, map[]);
    assert RunsTo(s0, [], s0);
    var s1 := Next(s0, Join);
    s := Next(s1, Join);
  }

  /** One producer's claim, up to its written header. */
  lemma ClaimOne(s: State, w: nat, size: nat) returns (s': State)
    requires Reached(s) && Enabled(s, Begin(w, size)) && |s.stages| == |s.log| == |s.contents|
    requires s.count >= 1 && s.offset + s.n < OFFSET_LIMIT
    requires var end := s.offset + BumpLength(s.n, s.offset, size + HEADER_SIZE);
      s.readOffset <= end <= s.readOffset + s.n && end <= s.offset + s.n
    ensures Reached(s')
    ensures var bump := BumpLength(s.n, s.offset, size + HEADER_SIZE);
      var skip := NeedsSkip(s.n, s.offset, size + HEADER_SIZE);
      var pos := Slot(s.n, s.offset);
      && s'.n == s.n && s'.count == s.count && s'.offset == s.offset + bump && s'.readOffset == s.readOffset
      && s'.readers == s.readers && s'.retired == s.retired
      && s'.log == s.log + [Block(s.offset, bump, if skip then Padding else Normal, size, s.count, w)]
      && s'.stages == s.stages + [Open]
      && s'.producers == s.producers[w :=
           if skip then Skipping(size, Ticket(s.count, s.offset, bump, |s.log|)) else Idle]
      && s'.headers == s.headers[pos := Header(s.offset,
           if skip then (s.n - pos - HEADER_SIZE) % SIZE_LIMIT else size % SIZE_LIMIT,
           if skip then Padding else Normal, s.count % READER_LIMIT, HeaderAt(s.headers, pos).flag)]
      && |s'.contents| == |s'.log|
  {
    var s1 := WinOne(s, w, size);
    hide Slot, BumpLength, NeedsSkip, Slice, Splice;
    var s2 := Next(s1, Grant(w));
    s' := Next(s2, WriteHeader(w));
    assert s'.producers == s.producers[w := s'.producers[w]];
  }

  /** Up to its compare-and-swap. */
  lemma WinOne(s: State, w: nat, size: nat) returns (s': State)
    requires Reached(s) && Enabled(s, Begin(w, size))
    requires s.count >= 1 && s.offset + s.n < OFFSET_LIMIT
    requires s.offset + BumpLength(s.n, s.offset, size + HEADER_SIZE) <= s.offset + s.n
    ensures Reached(s')
    ensures var bump := BumpLength(s.n, s.offset, size + HEADER_SIZE);
      var skip := NeedsSkip(s.n, s.offset, size + HEADER_SIZE);
      s' == s.(offset := s.offset + bump,
               producers := s.producers[w := Waiting(size, Ticket(s.count, s.offset, bump, |s.log|))],
               log := s.log + [Block(s.offset, bump, if skip then Padding else Normal, size, s.count, w)],
               stages := s.stages + [Claimed],
               contents := s.contents + [[]])
  {
    hide Slot, BumpLength, NeedsSkip, Slice, Splice;
    var s1 := Next(s, Begin(w, size));
    var s2 := Next(s1, Load(w));
    s' := Next(s2, Cas(w));
    assert s'.producers == s.producers[w := s'.producers[w]];
  }

  lemma StartPass(s: State, r: nat, header: Header) returns (s': State)
    requires Reached(s) && Enabled(s, PollLoad(r)) && PolledHeader(s, r) == header
    requires header.absOffset == s.readers[r].cursor
    requires header.flag == Aborted || (header.flag == Ready && header.kind == Padding)
    ensures Reached(s')
    ensures s' == s.(readers := s.readers[r := StartRelease(s.readers[r], header, Slot(s.n, s.readers[r].cursor))])
  {
    hide Slot, ApplySub, ApplyClear, ApplyAdvance, ApplyRelease, Slice, Splice;
    var s1 := Next(s, PollLoad(r));
    assert PolledHeader(s1, r) == header;
    s' := Next(s1, PollDecide(r));
    assert s'.readers == s.readers[r := s'.readers[r]];
  }

  /** A reader takes a skip or an aborted block off its hands; others still owe it. */
  lemma PassOver(s: State, r: nat, header: Header) returns (s': State)
    requires Reached(s) && Enabled(s, PollLoad(r)) && PolledHeader(s, r) == header
    requires header.absOffset == s.readers[r].cursor && header.numReaders > 1
    requires header.flag == Aborted || (header.flag == Ready && header.kind == Padding)
    ensures Reached(s')
    ensures var rd := s.readers[r]; var pos := Slot(s.n, rd.cursor);
      && s' == s.(headers := s.headers[pos :=
                    header.(numReaders := (header.numReaders + READER_LIMIT - 1) % READER_LIMIT)],
                  readers := s.readers[r := rd.(next := rd.next + 1, phase := Resting,
                                               cursor := rd.cursor + header.size + HEADER_SIZE)])
  {
    var s1 := StartPass(s, r, header);
    hide Slot, ApplyPollDecide, ApplyPollLoad, ApplyClear, ApplyAdvance, ApplyRelease, Slice, Splice;
    s' := Next(s1, Sub(r));
    assert s'.readers == s.readers[r := s'.readers[r]];
  }

  /** One skip of 64 bytes, owed by both readers. */
  lemma SkipCommitted() returns (s: State)
    ensures Reached(s) && s.n == 64 && s.count == 2 && s.offset == 64 && s.readOffset == 0
    ensures s.headers == map[0 := Header(0, 46, Padding, 2, Ready)]
    ensures s.producers == [Trying(46), Idle]
    ensures s.readers == [Reader(0, 0, 0, Resting, []), Reader(0, 0, 0, Resting, [])]
    ensures s.log == [Block(0, 64, Padding, 46, 2, 0)] && s.stages == [Committed] && |s.contents| == 1
  {
    var s0 := TwoReaders();
    var s1 := ClaimOne(s0, 0, 46);
    s := Next(s1, CommitSkip(0));
  }

  /** The full ring: one skip of 64 bytes, passed over by reader 1, still owed by
      reader 0. Reader 1 has loaded the skip's READY flag as if it were its next block's. */
  lemma StaleReady() returns (s: State)
    ensures Reached(s) && s.n == 64 && s.count == 2 && s.offset == 64 && s.readOffset == 0
    ensures s.headers == map[0 := Header(0, 46, Padding, 1, Ready)]
    ensures s.producers == [Trying(46), Idle]
    ensures s.readers == [Reader(0, 0, 0, Resting, []), Reader(0, 1, 64, Seen(Ready, false), [])]
    ensures s.log == [Block(0, 64, Padding, 46, 2, 0)] && s.stages == [Committed] && |s.contents| == 1
  {
    Slots();
    hide Slot, Slice, Splice;
    var s0 := SkipCommitted();
    var s1 := PassOver(s0, 1, Header(0, 46, Padding, 2, Ready));
    s := Next(s1, PollLoad(1));
  }

  /** Reader 0 retires the skip; producer 1 claims the same ring position and has written
      its header, but has committed nothing. */
  lemma HeaderReplaced() returns (s: State)
    ensures Reached(s) && s.n == 64
    ensures s.headers == map[0 := Header(64, 10, Normal, 2, NotReady)]
    ensures |s.readers| == 2 && s.readers[1] == Reader(0, 1, 64, Seen(Ready, false), [])
    ensures |s.log| == 2 && s.log[1] == Block(64, 28, Normal, 10, 2, 1) && s.stages == [Committed, Open]
  {
    var s0 := SkipRetired();
    Slots();
    hide Slot, Slice, Splice, Apply, Assumed;
    s := ClaimOne(s0, 1, 10);
  }

  lemma Slots()
    ensures Slot(64, 0) == 0 && Slot(64, 28) == 28 && Slot(64, 64) == 0
  {
  }

  /** The end of a last release. */
  lemma Retire(s: State, r: nat, pos: nat, total: nat) returns (s': State)
    requires Reached(s) && r < |s.readers| && s.readers[r].phase == Last(pos, total)
    ensures Reached(s')
    ensures s'.headers == s.headers[pos := HeaderAt(s.headers, pos).(size := 0, kind := Normal, flag := NotReady)]
    ensures s'.readers == s.readers[r := s.readers[r].(phase := Resting)]
    ensures s' == s.(headers := s'.headers, bytes := s'.bytes, readers := s'.readers, wiped := s.wiped + 1,
                     readOffset := s.readOffset + total, retired := s.retired + 1, closer := None)
  {
    hide Slot, Slice, Splice, ApplyPollLoad, ApplyPollDecide, ApplySub;
    var s1 := Next(s, Clear(r));
    s' := Next(s1, Advance(r));
  }

  lemma SkipRetired() returns (s: State)
    ensures Reached(s) && s.n == 64 && s.count == 2 && s.offset == 64 && s.readOffset == 64
    ensures s.headers == map[0 := Header(0, 0, Normal, 0, NotReady)]
    ensures s.producers == [Trying(46), Idle]
    ensures |s.readers| == 2 && s.readers[1] == Reader(0, 1, 64, Seen(Ready, false), [])
    ensures s.log == [Block(0, 64, Padding, 46, 2, 0)] && s.stages == [Committed] && |s.contents| == 1
  {
    Slots();
    hide Slot, Slice, Splice, ApplyPollLoad, ApplyPollDecide;
    var s0 := StaleReady();
    var s1 := StartPass(s0, 0, Header(0, 46, Padding, 1, Ready));
    var s2 := Next(s1, Sub(0));
    s := Retire(s2, 0, 0, 64);
  }

  /** READY is not enough: a reachable state in which `poll_buffer` returns a wrapper on a
      message that its producer has not committed. */
  lemma PollReturnsUncommitted() returns (s: State)
    ensures Reached(s) && Enabled(s, PollDecide(1)) && !Assumed(s, PollDecide(1))
    ensures var s' := Apply(s, PollDecide(1));
      && s'.readers[1].phase == Holding(0, 28)
      && s'.readers[1].next == 1 < |s'.log| == |s'.stages|
      && s'.log[1].kind == Normal && s'.stages[1] == Open
  {
    s := HeaderReplaced();
  }

  /** A full ring: an aborted message and the skip behind it, owed by both readers. */
  lemma AbortedThenSkip() returns (s: State)
    ensures Reached(s) && s.n == 64 && s.offset == 64 && s.readOffset == 0 && |s.log| == 2
    ensures s.headers == map[0 := Header(0, 10, Normal, 2, Aborted), 28 := Header(28, 18, Padding, 2, Ready)]
    ensures s.readers == [Reader(0, 0, 0, Resting, []), Reader(0, 0, 0, Resting, [])]
  {
    hide Slice, Splice;
    var s0 := TwoReaders();
    var s1 := ClaimOne(s0, 0, 10);
    var s2 := Next(s1, Abort(0));
    assert s2.headers == map[0 := Header(0, 10, Normal, 2, Aborted)];
    var s3 := ClaimOne(s2, 0, 10);
    s := Next(s3, CommitSkip(0));
  }

  /** Reader 1 has passed over both and caught up with the write offset. */
  lemma CaughtUp() returns (s: State)
    ensures Reached(s) && s.n == 64 && s.offset == 64 && s.readOffset == 0 && |s.log| == 2
    ensures s.headers == map[0 := Header(0, 10, Normal, 1, Aborted), 28 := Header(28, 18, Padding, 1, Ready)]
    ensures s.readers == [Reader(0, 0, 0, Resting, []), Reader(0, 2, 64, Resting, [])]
  {
    Slots();
    hide Slot, Slice, Splice;
    var s0 := AbortedThenSkip();
    var s1 := PassOver(s0, 1, Header(0, 10, Normal, 2, Aborted));
    s := PassOver(s1, 1, Header(28, 18, Padding, 2, Ready));
  }

  /** Reader 1 has loaded the aborted block's flag a second time. */
  lemma AbortedAgain() returns (s: State)
    ensures Reached(s) && s.n == 64 && s.offset == 64 && s.readOffset == 0 && |s.log| == 2
    ensures s.headers == map[0 := Header(0, 10, Normal, 1, Aborted), 28 := Header(28, 18, Padding, 1, Ready)]
    ensures s.readers == [Reader(0, 0, 0, Resting, []), Reader(0, 2, 64, Seen(Aborted, false), [])]
  {
    Slots();
    hide Slot, Slice, Splice;
    var s0 := CaughtUp();
    s := Next(s0, PollLoad(1));
  }

  /** ABORTED is not checked against the cursor at all: a reachable state in which a
      reader that has caught up gives an aborted block back a second time and moves its
      cursor past the write offset. */
  lemma PollRepeatsAborted() returns (s: State)
    ensures Reached(s) && Enabled(s, PollDecide(1)) && !Assumed(s, PollDecide(1))
    ensures s.readers[1].next == |s.log| && s.readers[1].cursor == s.offset
    ensures var s' := Apply(s, PollDecide(1));
      s'.readers[1].phase.Bumped? && s'.readers[1].cursor > s'.offset
  {
    Slots();
    hide Slot, Slice, Splice;
    s := AbortedAgain();
  }

  lemma RepeatBumped() returns (s: State)
    ensures FreeReached(s) && |s.readers| == 2 && s.readers[1] == Reader(0, 2, 92, Bumped(0, 28), [])
    ensures HeaderAt(s.headers, 0) == Header(0, 10, Normal, 1, Aborted) && s.readOffset == 0
  {
    Slots();
    hide Slot, Slice, Splice, ApplyCas, ApplyWriteHeader, ApplyPollLoad, ApplyRelease, ApplySub, ApplyClear,
         ApplyAdvance;
    var s0 := AbortedAgain();
    ReachedIsFree(s0);
    s := Free(s0, PollDecide(1));
  }

  /** It then reads a counter of one, takes itself for the last reader, and comes to the
      end of the release with the watermark nowhere near its cursor: 288 fails. */
  lemma RepeatFailsAssertion() returns (s: State)
    ensures FreeReached(s) && Enabled(s, Advance(1)) && !AssertionHolds(s, Advance(1))
  {
    hide Slot, Slice, Splice, ApplyCas, ApplyWriteHeader, ApplyPollLoad, ApplyPollDecide, ApplyRelease, ApplyAdvance;
    var s1 := RepeatBumped();
    var s2 := Free(s1, Sub(1));
    s := Free(s2, Clear(1));
  }
}
