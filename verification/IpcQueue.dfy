/**
 One attached agent, producer or reader, acting alone: each method is the C++ method with
 no other agent running in between, and is proved to be a run of the step system.
 */
module IpcQueues {
  import opened RingGeometry
  import opened Broadcast
  import opened PackedWord
  import opened RingModel
  import opened RingInvariant
  import opened RingTheorems
  import opened Runs
  import opened SharedMemory
  import opened QueueFacts
  import opened ClaimFacts

  class IpcQueue {
    const ring: SharedRing
    const isWriter: bool
    var absReadOffset: nat
    // Index of this agent among the producers, or among the readers, of the step system.
    ghost const id: nat

    ghost predicate Attached()
      reads this, ring
    {
      if isWriter then id < |ring.model.producers|
      else id < |ring.model.readers| && absReadOffset == ring.model.readers[id].cursor
    }

    ghost predicate Valid()
      reads this, ring, ring.bytes
    {
      ring.Valid() && Attached()
    }

    /** A producer attaches. */
    constructor Producer(ring: SharedRing, ghost w: nat)
      requires ring.Valid() && w < |ring.model.producers|
      ensures Valid() && isWriter && id == w && this.ring == ring && absReadOffset == 0
    {
      this.ring := ring;
      isWriter := true;
      absReadOffset := 0;
      id := w;
    }

    /** A reader attaches: it joins the count and starts at the write offset it saw. */
    constructor Reader(ring: SharedRing, failures: nat)
      requires ring.Valid() && ring.model.count + 1 < READER_LIMIT
      modifies ring`word, ring`model
      ensures Valid() && !isWriter && this.ring == ring && absReadOffset == old(ring.model).offset
      ensures ring.model == Apply(old(ring.model), Join) && id == |old(ring.model.readers)|
    {
      this.ring := ring;
      isWriter := false;
      id := |ring.model.readers|;
      new;
      absReadOffset := ring.AddReader(failures);
    }

    // -------------------------------------------------------------- releasing

    // `release_buffer` in its four atomic steps.

    /** The cursor moves over the block. The ghost `start` is the step that brought the
        reader here: the release of a wrapper, or a poll that passes over. */
    method BumpCursor(pos: nat, ghost start: Action) returns (total: nat)
      requires start == Action.Release(id) || start == PollDecide(id)
      requires !isWriter && Enabled(ring.model, start) && Assumed(ring.model, start)
      requires StartsAt(ring.model, id, start, pos)
      requires Valid()
      modifies this`absReadOffset, ring`model
      ensures ring.model == Apply(old(ring.model), start)
      ensures Enabled(ring.model, Sub(id)) && ring.model.readers[id].phase == Bumped(pos, total)
      ensures Valid()
    {
      hide Inv;
      total := HeaderAt(ring.headers, pos).size + HEADER_SIZE;
      absReadOffset := absReadOffset + total;
      ring.Step(start);
      BumpedFits(ring.model, id);
    }

    /** `num_readers.fetch_sub(1)`. */
    method FetchSub(pos: nat, total: nat) returns (prev: nat)
      requires !isWriter && Enabled(ring.model, Sub(id))
      requires ring.model.readers[id].phase == Bumped(pos, total)
      requires Valid()
      modifies ring`headers, ring`model
      ensures ring.model == Apply(old(ring.model), Sub(id))
      ensures prev == HeaderAt(old(ring.model.headers), pos).numReaders
      ensures prev <= 1 ==> Enabled(ring.model, Clear(id)) && ring.model.readers[id].phase == Last(pos, total)
      ensures Valid()
    {
      hide Inv;
      var header := HeaderAt(ring.headers, pos);
      prev := header.numReaders;
      ring.headers := ring.headers[pos := header.(numReaders := (prev + READER_LIMIT - 1) % READER_LIMIT)];
      ring.Step(Sub(id));
    }

    /** The last reader clears payload and header. */
    method Wipe(pos: nat, total: nat)
      requires !isWriter && Enabled(ring.model, Clear(id))
      requires ring.model.readers[id].phase == Last(pos, total)
      requires Valid()
      modifies ring`headers, ring`model, ring.bytes
      ensures ring.model == Apply(old(ring.model), Clear(id))
      ensures Enabled(ring.model, Advance(id)) && ring.model.readers[id].phase == Wiped(total)
      ensures Valid()
    {
      hide Inv, Splice, Slice, Slot, HeaderAt;
      LastFits(ring.model, id);
      var header := HeaderAt(ring.headers, pos);
      ring.Zero(pos + HEADER_SIZE, header.size);
      ring.headers := ring.headers[pos := header.(size := 0, kind := Normal, flag := NotReady)];
      ring.Step(Clear(id));
    }

    /** The watermark moves and lands on this reader's cursor. */
    method BumpWatermark(total: nat)
      requires !isWriter && Enabled(ring.model, Advance(id))
      requires ring.model.readers[id].phase == Wiped(total)
      requires Valid()
      modifies ring`readOffset, ring`model
      ensures ring.model == Apply(old(ring.model), Advance(id))
      ensures ring.readOffset == old(ring.readOffset) + total == absReadOffset
      ensures Valid()
    {
      hide Inv, Slot, HeaderAt, Splice;
      AdvanceLands(ring.model, id);
      ring.readOffset := ring.readOffset + total;
      ring.Step(Advance(id));
    }

    /** `release_buffer`. */
    method ReleaseBuffer(pos: nat, ghost start: Action)
      requires start == Action.Release(id) || start == PollDecide(id)
      requires !isWriter && Enabled(ring.model, start) && Assumed(ring.model, start)
      requires StartsAt(ring.model, id, start, pos)
      requires Valid()
      modifies this`absReadOffset, ring`headers, ring`readOffset, ring`model, ring.bytes
      ensures RunsFrom(old(ring.model), ReleaseActs(old(ring.model), id, start, pos), ring.model)
      ensures Valid()
    {
      hide Inv, Run, After, Apply, Enabled, SharedRing.Agrees;
      ghost var s0 := ring.model;
      var total := BumpCursor(pos, start);
      ghost var s1 := ring.model;
      RunOne(s0, start);
      StartKeepsHeaders(s0, id, start);
      var prev := FetchSub(pos, total);
      ghost var s2 := ring.model;
      ExtendRun(s0, [start], s1, Sub(id));
      if prev > 1 {
        assert [start] + [Sub(id)] == ReleaseActs(s0, id, start, pos);
        return;
      }
      Wipe(pos, total);
      ghost var s3 := ring.model;
      ExtendRun(s0, [start] + [Sub(id)], s2, Clear(id));
      BumpWatermark(total);
      ExtendRun(s0, [start] + [Sub(id)] + [Clear(id)], s3, Advance(id));
      assert [start] + [Sub(id)] + [Clear(id)] + [Advance(id)] == ReleaseActs(s0, id, start, pos);
    }

    /** `release()` of an outstanding wrapper: the message counts as received. */
    method Release(pos: nat)
      requires !isWriter && id < |ring.model.readers| && ring.model.readers[id].phase.Holding?
      requires ring.model.readers[id].phase.pos == pos
      requires Valid()
      modifies this`absReadOffset, ring`headers, ring`readOffset, ring`model, ring.bytes
      ensures RunsFrom(old(ring.model), ReleaseActs(old(ring.model), id, Action.Release(id), pos), ring.model)
      ensures GivenBack(old(ring.model), id, ring.model)
      ensures ring.model.readers[id].inbox
              == old(ring.model).readers[id].inbox
                 + [View(old(ring.model), pos, old(ring.model).readers[id].phase.span)]
      ensures Valid()
    {
      hide Inv, Run, After, SharedRing.Agrees;
      ghost var s0 := ring.model;
      ReleaseBuffer(pos, Action.Release(id));
      ReleaseEffect(s0, id, Action.Release(id), pos, ring.model);
    }

    /** `mark_as_read()` of an outstanding wrapper, which keeps its message unread: nothing in
        the file changes, and the reader is where it was before the poll. */
    method MarkAsRead()
      requires !isWriter && id < |ring.model.readers| && ring.model.readers[id].phase.Holding?
      requires Valid()
      modifies ring`model
      ensures Steps(old(ring.model), Action.MarkAsRead(id), ring.model)
      ensures PutBack(old(ring.model), id, ring.model)
      ensures Valid()
    {
      hide Inv;
      ring.Step(Action.MarkAsRead(id));
    }

    // -------------------------------------------------------------- polling

    /** `poll_buffer`, recursion over skips and aborted messages included. It stops at the
        first block that is neither, and returns a wrapper on it exactly when it is
        committed. */
    method PollBuffer() returns (result: PollResult, ghost acts: seq<Action>)
      requires !isWriter ==> id < |ring.model.readers| && ring.model.readers[id].phase.Resting?
      requires !isWriter ==> AbortsAreOwn(ring.model, id)
      requires Valid()
      modifies this`absReadOffset, ring`headers, ring`readOffset, ring`model, ring.bytes
      ensures isWriter ==>
                result == NotAReader && ring.model == old(ring.model) && absReadOffset == old(absReadOffset)
      ensures !isWriter ==> Polled(old(ring.model), id, result, ring.model)
      ensures RunsFrom(old(ring.model), acts, ring.model)
      ensures Valid()
      decreases Pending(ring.model, id)
    {
      hide Inv, Run, After, Apply, NextDue, AbortsAreOwn, Slot, HeaderAt;
      ghost var s0 := ring.model;
      acts := [];
      NoRun(s0);
      if isWriter {
        return NotAReader, [];
      }
      var pos := Slot(ring.n, absReadOffset);
      var header := HeaderAt(ring.headers, pos);
      PollCases(s0, id);
      if header.flag == NotReady {
        PollEnds(s0, id);
        return NoMessage, [];
      }

      ring.Step(PollLoad(id));
      ghost var s1 := ring.model;
      RunOne(s0, PollLoad(id));
      PollLoaded(s0, id);
      if header.flag == Ready && header.absOffset != absReadOffset {
        ring.Step(PollDecide(id));
        ExtendRun(s0, [PollLoad(id)], s1, PollDecide(id));
        PollEnds(s0, id);
        result, acts := NoMessage, [PollLoad(id)] + [PollDecide(id)];
      } else if header.flag == Ready && header.kind == Normal {
        ring.Step(PollDecide(id));
        ExtendRun(s0, [PollLoad(id)], s1, PollDecide(id));
        PollEnds(s0, id);
        result, acts := Wrapper(pos, header.size + HEADER_SIZE), [PollLoad(id)] + [PollDecide(id)];
      } else {
        ReleaseBuffer(pos, PollDecide(id));
        ghost var s2 := ring.model;
        ghost var release := ReleaseActs(s1, id, PollDecide(id), pos);
        ReleaseEffect(s1, id, PollDecide(id), pos, s2);
        RunAppend(s0, [PollLoad(id)], s1, release, s2);
        PollGoesOn(s0, id, s1, s2);
        ghost var rest: seq<Action>;
        result, rest := PollBuffer();
        RunAppend(s0, [PollLoad(id)] + release, s2, rest, ring.model);
        acts := [PollLoad(id)] + release + rest;
        PolledLater(s0, id, s2, result, ring.model);
      }
    }

    // -------------------------------------------------------------- closing

    /** One round of the drain: the block at the cursor, whatever its kind, is given back.
        The history counts its message as received, though nobody looks at it. */
    method DrainOne(pos: nat) returns (ghost acts: seq<Action>)
      requires !isWriter && Enabled(ring.model, PollLoad(id)) && FreshLoad(ring.model, id)
      requires pos == Slot(ring.model.n, ring.model.readers[id].cursor)
      requires PolledHeader(ring.model, id).flag == Ready
      requires Valid()
      modifies this`absReadOffset, ring`headers, ring`readOffset, ring`model, ring.bytes
      ensures RunsFrom(old(ring.model), acts, ring.model)
      ensures GivenBack(old(ring.model), id, ring.model)
      ensures Valid()
    {
      hide Inv, Run, After, Apply, Slot, HeaderAt;
      ghost var s0 := ring.model;
      PollCases(s0, id);
      FreshOwn(s0, id);
      PollLoaded(s0, id);
      ring.Step(PollLoad(id));
      ghost var s1 := ring.model;
      RunOne(s0, PollLoad(id));
      acts := [PollLoad(id)];
      if HeaderAt(ring.headers, pos).kind == Padding {
        ReleaseBuffer(pos, PollDecide(id));
        ReleaseEffect(s1, id, PollDecide(id), pos, ring.model);
        RunAppend(s0, acts, s1, ReleaseActs(s1, id, PollDecide(id), pos), ring.model);
        acts := acts + ReleaseActs(s1, id, PollDecide(id), pos);
      } else {
        ring.Step(PollDecide(id));
        ghost var s2 := ring.model;
        ExtendRun(s0, acts, s1, PollDecide(id));
        Release(pos);
        RunAppend(s0, acts + [PollDecide(id)], s2, ReleaseActs(s2, id, Action.Release(id), pos), ring.model);
        acts := acts + [PollDecide(id)] + ReleaseActs(s2, id, Action.Release(id), pos);
      }
    }

    /** `decrement_readers_until`. It stops at the first block that is not committed; a block
        that was aborted stops it too. */
    method DecrementReadersUntil(absWriteOffset: nat) returns (ghost acts: seq<Action>)
      requires !isWriter && id < |ring.model.readers| && ring.model.readers[id].phase.Resting?
      requires DrainsOwn(ring.model, id)
      requires absWriteOffset == ring.model.offset
      requires Valid()
      modifies this`absReadOffset, ring`headers, ring`readOffset, ring`model, ring.bytes
      ensures RunsFrom(old(ring.model), acts, ring.model)
      ensures Drained(old(ring.model), id, ring.model)
      ensures Valid()
    {
      hide Inv, Run, After, Apply, NextUnready, Slot, HeaderAt;
      ghost var s0 := ring.model;
      acts := [];
      NoRun(s0);
      DrainFacts(s0, id);
      assert s0.readers[id := s0.readers[id]] == s0.readers;
      while absReadOffset <= absWriteOffset
        invariant Valid() && Enabled(ring.model, PollLoad(id)) && DrainsOwn(ring.model, id)
        invariant RunsFrom(s0, acts, ring.model) && OnlyReader(s0, id, ring.model)
        invariant ring.model.readers[id].next <= |s0.stages|
        invariant s0.readers[id].next <= ring.model.readers[id].next
        invariant NextUnready(s0.stages, s0.readers[id].next)
                  == NextUnready(s0.stages, ring.model.readers[id].next)
        decreases |s0.stages| - ring.model.readers[id].next
      {
        ghost var s1 := ring.model;
        DrainFacts(s1, id);
        var pos := Slot(ring.n, absReadOffset);
        if HeaderAt(ring.headers, pos).flag != Ready {
          break;
        }
        NextUnreadySteps(s0.stages, s1.readers[id].next);
        ghost var round := DrainOne(pos);
        RunAppend(s0, acts, s1, round, ring.model);
        acts := acts + round;
        DrainFacts(ring.model, id);
      }
      DrainFacts(ring.model, id);
      NextUnreadySteps(s0.stages, ring.model.readers[id].next);
    }

    /** `close()` of a reader: it leaves the count and drains what it owes. If it was the only
        one and every claim was committed, cursor, watermark and write offset meet and no
        header in the ring is left set. */
    method Close(failures: nat) returns (ghost acts: seq<Action>)
      requires !isWriter && id < |ring.model.readers| && ring.model.readers[id].phase.Resting?
      requires DrainsOwn(ring.model, id)
      requires ring.departed < ring.model.count
      requires Valid()
      modifies this`absReadOffset, ring`word, ring`departed, ring`headers, ring`readOffset, ring`model, ring.bytes
      ensures RunsFrom(old(ring.model), acts, ring.model)
      ensures Drained(old(ring.model), id, ring.model)
      ensures ring.departed == old(ring.departed) + 1
      ensures Unwrap(ring.word) == (old(ring.model.count) - old(ring.departed) - 1, ring.model.offset)
      ensures |old(ring.model).readers| == 1
              && (forall i :: old(ring.model).readers[0].next <= i < |old(ring.model).stages| ==>
                    old(ring.model).stages[i] == Committed)
              ==> absReadOffset == ring.readOffset == ring.model.offset
                  && forall p :: HeaderAt(ring.headers, p).flag == NotReady
      ensures Valid()
    {
      hide Inv, Run, After, Apply, NextUnready;
      ghost var s0 := ring.model;
      var absWriteOffset := ring.RemoveReader(failures);
      acts := DecrementReadersUntil(absWriteOffset);
      if |s0.readers| == 1 && forall i :: s0.readers[0].next <= i < |s0.stages| ==> s0.stages[i] == Committed {
        DrainedCompletely(s0, ring.model);
      }
    }

    // -------------------------------------------------------------- claiming

    /** The compare-and-swap loop of `wait_for_next_write_offset`. `failures` is how often
        the weak compare-and-swap fails without cause. Returned are the old word's fields
        and the write offset after the bump. */
    method SwapOffset(total: nat, failures: nat) returns (count: nat, at: nat, end: nat)
      requires total + HEADER_SIZE < WORD_LIMIT
      modifies ring`word
      ensures (count, at) == Unwrap(old(ring.word))
      ensures var bump := BumpLength(ring.n, at, total);
        && end == (at + bump) % WORD_LIMIT
        && bump < WORD_LIMIT && ring.word == Update(old(ring.word), AddOffset(bump))
    {
      hide BumpLength, Update, Unwrap;
      var wrapper := new UnpackedReadersAndWriterOffset(0);
      var left := failures;
      var swapped := false;
      count, at := 0, 0;
      while !swapped
        invariant fresh(wrapper)
        invariant !swapped ==> ring.word == old(ring.word)
        invariant swapped ==>
                    && (count, at) == Unwrap(old(ring.word))
                    && var bump := BumpLength(ring.n, at, total);
                    && wrapper.writeOffset == (at + bump) % WORD_LIMIT
                    && bump < WORD_LIMIT && ring.word == Update(old(ring.word), AddOffset(bump))
        decreases left, !swapped
      {
        var current := ring.word;
        wrapper.Reload(current);
        count, at := wrapper.numReaders, wrapper.writeOffset;
        BumpBound(ring.n, at, total);
        var bytesToBump := BumpLength(ring.n, at, total);
        var desired := wrapper.ReturnAddOffset(bytesToBump);
        if left > 0 {
          left := left - 1;
        } else {
          ring.word := desired;
          swapped := true;
        }
      }
      end := wrapper.writeOffset;
    }

    /** The loop as steps: the offset is won. */
    method WinOffset(size: nat, failures: nat) returns (count: nat, at: nat, end: nat, ghost acts: seq<Action>)
      requires isWriter && Enabled(ring.model, Load(id)) && ring.model.producers[id] == Trying(size)
      requires ring.departed == 0 && OffsetsToSpare(ring.model)
      requires Valid()
      modifies ring`word, ring`model
      ensures RunsFrom(old(ring.model), acts, ring.model)
      ensures ring.model == Won(old(ring.model), id, size)
      ensures count == old(ring.model.count) && at == old(ring.model.offset)
      ensures end == at + BumpLength(ring.n, at, size + HEADER_SIZE)
      ensures Valid()
    {
      hide Inv, Run, After, BumpLength, Update, Unwrap, UpdatePair, Apply, Assumed, Won, Slot, NeedsSkip;
      ghost var s0 := ring.model;
      WonFacts(s0, id, size);
      WonTicket(s0, id, size);
      count, at, end := SwapOffset(size + HEADER_SIZE, failures);
      OffsetMoved(old(ring.word), s0.count, s0.offset, BumpLength(ring.n, at, size + HEADER_SIZE));
      hide Enabled;
      ghost var s1 := Apply(s0, Load(id));
      LoadEnabled(s0, id);
      ring.Step(Load(id));
      RunOne(s0, Load(id));
      ring.Step(Cas(id));
      ExtendRun(s0, [Load(id)], s1, Cas(id));
      acts := [Load(id)] + [Cas(id)];
    }

    /** The wait of `wait_for_next_write_offset`: the watermark is checked once and then
        again after each of `spins` pauses. */
    method AwaitRoom(end: nat, spins: nat) returns (granted: bool)
      requires isWriter && id < |ring.model.producers| && ring.model.producers[id].Waiting?
      requires end == ring.model.producers[id].ticket.at + ring.model.producers[id].ticket.bump
      requires ring.readOffset <= end < WORD_LIMIT
      requires Valid()
      modifies ring`model
      ensures granted <==> end <= ring.readOffset + ring.n
      ensures granted <==> Enabled(old(ring.model), Grant(id))
      ensures granted ==> ring.model == Apply(old(ring.model), Grant(id))
      ensures !granted ==> ring.model == old(ring.model)
      ensures Valid()
    {
      hide Inv;
      var left := spins;
      var slowestReader := ring.readOffset;
      var mustWait := (end + WORD_LIMIT - slowestReader) % WORD_LIMIT > ring.n;
      while mustWait && left > 0
        invariant mustWait <==> end - ring.readOffset > ring.n
      {
        slowestReader := ring.readOffset;
        mustWait := (end + WORD_LIMIT - slowestReader) % WORD_LIMIT > ring.n;
        left := left - 1;
      }
      granted := !mustWait;
      if granted {
        ring.Step(Grant(id));
      }
    }

    /** A header written over whatever the previous lap left, its flag untouched. */
    method PutHeader(at: nat, size: nat, kind: Kind, count: nat)
      requires isWriter && Enabled(ring.model, WriteHeader(id))
      requires WritesHeader(ring.model, id, at, size, kind, count)
      requires Valid()
      modifies ring`headers, ring`model
      ensures ring.model == Apply(old(ring.model), WriteHeader(id))
      ensures Valid()
    {
      hide Inv, Apply;
      HeaderWritten(ring.model, id, at, size, kind, count);
      var pos := Slot(ring.n, at);
      ring.headers := ring.headers[pos := Header(at, size % SIZE_LIMIT, kind, count % READER_LIMIT,
                                                 HeaderAt(ring.headers, pos).flag)];
      ring.Step(WriteHeader(id));
    }

    /** `insert_skip_message`. */
    method InsertSkipMessage(at: nat, count: nat)
      requires isWriter && Enabled(ring.model, WriteHeader(id)) && Slot(ring.n, at) + HEADER_SIZE <= ring.n
      requires WritesHeader(ring.model, id, at, ring.n - Slot(ring.n, at) - HEADER_SIZE, Padding, count)
      requires ring.model.producers[id].ticket.at == at
      requires Valid()
      modifies ring`headers, ring`model
      ensures Enabled(Apply(old(ring.model), WriteHeader(id)), CommitSkip(id))
      ensures ring.model == Apply(Apply(old(ring.model), WriteHeader(id)), CommitSkip(id))
      ensures Valid()
    {
      hide Inv, Slice;
      var skipOffset := Slot(ring.n, at);
      var paddingSize := ring.n - skipOffset - HEADER_SIZE;
      PutHeader(at, paddingSize, Padding, count);
      ring.headers := SetFlag(ring.headers, skipOffset, Ready);
      ring.Step(CommitSkip(id));
    }

    /** The body of `claim_buffer` after its guards, retries included. */
    method TryClaim(size: nat, failures: nat, spins: nat) returns (result: ClaimResult, ghost acts: seq<Action>)
      requires isWriter && Enabled(ring.model, Load(id)) && ring.model.producers[id] == Trying(size)
      requires ring.departed == 0 && OffsetsToSpare(ring.model)
      requires Valid()
      modifies ring`word, ring`headers, ring`model
      ensures RunsFrom(old(ring.model), acts, ring.model)
      ensures ClaimOutcome(old(ring.model), id, size, result, ring.model)
      ensures result.StillWaiting? || result.Claimed?
      ensures result.Claimed? ==> size + 2 * HEADER_SIZE <= ring.n
      ensures size + 2 * HEADER_SIZE <= ring.n ==>
                |ring.model.log| <= |old(ring.model).log| + (if Slot(ring.n, old(ring.model.offset)) == 0 then 1 else 2)
      ensures Valid()
      decreases Headroom(ring.model)
    {
      hide Inv, Run, After, Apply, Grown, BumpLength, Slot;
      ghost var s0 := ring.model;
      var total := size + HEADER_SIZE;
      var count, at, end;
      count, at, end, acts := WinOffset(size, failures);
      ghost var s1 := ring.model;
      WonFacts(s0, id, size);
      WonGrown(s0, id, size);
      WatermarkBelow(s0);
      WonTicket(s0, id, size);
      var granted := AwaitRoom(end, spins);
      if !granted {
        return StillWaiting, acts;
      }
      ExtendRun(s0, acts, s1, Grant(id));
      acts := acts + [Grant(id)];
      ghost var s2 := ring.model;
      GrantedWrites(s0, id, size);

      var pos := Slot(ring.n, at);
      var bytesRemainingAtEnd := ring.n - pos;
      if total + HEADER_SIZE > bytesRemainingAtEnd {
        InsertSkipMessage(at, count);
        ghost var s3 := Apply(s2, WriteHeader(id));
        ExtendRun(s0, acts, s2, WriteHeader(id));
        ExtendRun(s0, acts + [WriteHeader(id)], s3, CommitSkip(id));
        acts := acts + [WriteHeader(id)] + [CommitSkip(id)];
        ghost var s4 := ring.model;
        SkipGrown(s0, id, size, s3, s4);
        ghost var rest: seq<Action>;
        result, rest := TryClaim(size, failures, spins);
        RunAppend(s0, acts, s4, rest, ring.model);
        acts := acts + rest;
        OutcomeLater(s0, id, size, s4, result, ring.model);
      } else {
        PutHeader(at, size, Normal, count);
        ExtendRun(s0, acts, s2, WriteHeader(id));
        acts := acts + [WriteHeader(id)];
        MessageGrown(s0, id, size, ring.model);
        result := ClaimResult.Claimed(pos, total);
      }
    }

    /** `claim_buffer`. It is refused exactly when the queue is a reader's or the size
        cannot fit beside one header, and rejected when the size is zero; otherwise the
        claim is made, or waits because the ring is full. With room for two headers it
        takes at most one skip; without, it never succeeds. */
    method ClaimBuffer(size: Word, failures: nat, spins: nat) returns (result: ClaimResult, ghost acts: seq<Action>)
      requires isWriter ==> id < |ring.model.producers| && ring.model.producers[id] == Idle
      requires isWriter ==> ring.departed == 0 && OffsetsToSpare(ring.model)
      requires Valid()
      modifies ring`word, ring`headers, ring`model
      ensures RunsFrom(old(ring.model), acts, ring.model)
      ensures result.Refused? <==> !isWriter || size + HEADER_SIZE > ring.n
      ensures result.EmptyMessage? <==> isWriter && size == 0
      ensures result.Refused? || result.EmptyMessage? ==> ring.model == old(ring.model)
      ensures !result.Refused? && !result.EmptyMessage? ==>
                ClaimOutcome(old(ring.model), id, size, result, ring.model)
      ensures result.Claimed? ==> size + 2 * HEADER_SIZE <= ring.n
      ensures size + 2 * HEADER_SIZE <= ring.n ==> |ring.model.log| <= |old(ring.model).log| + 2
      ensures Valid()
    {
      hide Inv, Run, After, Apply, Grown, Slot, HeaderAt, Unwrap;
      ghost var s0 := ring.model;
      NoRun(s0);
      SmallRing(s0);
      GuardMeansFitsIff(ring.n);
      if Oversized(ring.n, size) || !isWriter {
        return Refused, [];
      } else if size == 0 {
        return EmptyMessage, [];
      }
      ring.Step(Begin(id, size));
      RunOne(s0, Begin(id, size));
      ghost var s1 := ring.model;
      BeginFacts(s0, id, size);
      result, acts := TryClaim(size, failures, spins);
      RunAppend(s0, [Begin(id, size)], s1, acts, ring.model);
      acts := [Begin(id, size)] + acts;
      OutcomeFromBegin(s0, id, size, s1, result, ring.model);
    }

    // -------------------------------------------------------------- finishing

    /** The copy in `write_to_buffer`. */
    method CopyPayload(pos: nat, data: Bytes, ghost i: nat)
      requires Outstanding(ring.model, i) && |data| + HEADER_SIZE <= ring.model.log[i].len
      requires pos == Slot(ring.model.n, ring.model.log[i].start)
      requires Valid()
      modifies ring`model, ring.bytes
      ensures Steps(old(ring.model), Fill(i, data), ring.model)
      ensures Placed(old(ring.bytes[..]), pos + HEADER_SIZE, data, ring.bytes[..])
      ensures Valid()
    {
      hide Inv, Splice, Placed;
      PayloadInRing(ring.model, i);
      SplicePlaces(ring.bytes[..], pos + HEADER_SIZE, data);
      ring.CopyIn(pos + HEADER_SIZE, data);
      ring.Step(Fill(i, data));
    }

    /** `commit_buffer`: the flag of that header reads READY, and nothing else has changed. */
    method CommitBuffer(pos: nat, ghost i: nat)
      requires Outstanding(ring.model, i) && pos == Slot(ring.model.n, ring.model.log[i].start)
      requires Valid()
      modifies ring`headers, ring`model
      ensures Steps(old(ring.model), Commit(i), ring.model)
      ensures FlagSet(old(ring.headers), pos, Ready, ring.headers)
      ensures Finished(old(ring.model), i, Committed, ring.model) && ring.model.contents == old(ring.model).contents
      ensures Valid()
    {
      hide Inv;
      ring.headers := SetFlag(ring.headers, pos, Ready);
      ring.Step(Commit(i));
    }

    /** `abort_buffer`: the payload is zeroed and the flag reads ABORTED. */
    method AbortBuffer(pos: nat, ghost i: nat)
      requires Outstanding(ring.model, i) && pos == Slot(ring.model.n, ring.model.log[i].start)
      requires Valid()
      modifies ring`headers, ring`model, ring.bytes
      ensures Steps(old(ring.model), Abort(i), ring.model)
      ensures FlagSet(old(ring.headers), pos, Aborted, ring.headers)
      ensures Finished(old(ring.model), i, Dropped, ring.model)
      ensures Blanked(old(ring.model), i, old(ring.bytes[..]), ring.bytes[..])
      ensures Valid()
    {
      hide Inv, Splice, Placed;
      PayloadInRing(ring.model, i);
      SplicePlaces(ring.bytes[..], pos + HEADER_SIZE, Zeros(HeaderAt(ring.headers, pos).size));
      ring.Zero(pos + HEADER_SIZE, HeaderAt(ring.headers, pos).size);
      ring.headers := SetFlag(ring.headers, pos, Aborted);
      ring.Step(Abort(i));
    }

    /** `write_to_buffer` of a writer wrapper. */
    method WriteToBuffer(pos: nat, data: Bytes, ghost i: nat)
      requires Outstanding(ring.model, i) && |data| + HEADER_SIZE <= ring.model.log[i].len
      requires pos == Slot(ring.model.n, ring.model.log[i].start)
      requires Valid()
      modifies ring`headers, ring`model, ring.bytes
      ensures RunsFrom(old(ring.model), [Fill(i, data), Commit(i)], ring.model)
      ensures FlagSet(old(ring.headers), pos, Ready, ring.headers)
      ensures Finished(old(ring.model), i, Committed, ring.model)
      ensures BodyWritten(old(ring.model), i, data, ring.model)
      ensures Placed(old(ring.bytes[..]), pos + HEADER_SIZE, data, ring.bytes[..])
      ensures Valid()
    {
      hide Inv, Run, After;
      ghost var s0 := ring.model;
      CopyPayload(pos, data, i);
      RunOne(s0, Fill(i, data));
      FilledBody(s0, i, data);
      ghost var s1 := ring.model;
      CommitBuffer(pos, i);
      ExtendRun(s0, [Fill(i, data)], s1, Commit(i));
      assert [Fill(i, data)] + [Commit(i)] == [Fill(i, data), Commit(i)];
    }

    /** `get_as_view` of a reader wrapper: the committed bytes of the message due next. */
    method GetAsView(pos: nat, span: nat) returns (body: Bytes)
      requires !isWriter && id < |ring.model.readers| && ring.model.readers[id].phase == Holding(pos, span)
      requires Valid()
      ensures body == View(ring.model, pos, span) && DueBody(ring.model, id, body)
    {
      hide Inv;
      HeldIsDue(ring.model, id);
      HeldFits(ring.model, id);
      body := ring.bytes[pos + HEADER_SIZE..pos + span];
    }

    /** `copy_contents_into` of a reader wrapper: the caller's buffer receives the committed
        bytes of the message due next, and keeps what it held beyond them. */
    method CopyContentsInto(pos: nat, span: nat, dest: array<Byte>) returns (copied: nat)
      requires !isWriter && id < |ring.model.readers| && ring.model.readers[id].phase == Holding(pos, span)
      requires span <= dest.Length + HEADER_SIZE && dest != ring.bytes
      requires Valid()
      modifies dest
      ensures copied == span - HEADER_SIZE <= dest.Length && dest[..copied] == View(ring.model, pos, span)
      ensures DueBody(ring.model, id, dest[..copied])
      ensures dest[copied..] == old(dest[copied..])
      ensures Valid()
    {
      hide Inv;
      HeldIsDue(ring.model, id);
      HeldFits(ring.model, id);
      copied := span - HEADER_SIZE;
      ring.CopyOut(pos + HEADER_SIZE, copied, dest);
    }
  }
}
