/**
 The ring as the bytes that it is. `RawApply` is what a step of the code stores, field by
 field. `RingStep` is the step system with those bytes in place of its payload bytes, and
 this module says exactly when its header records are what the bytes hold.
 */
module RawRing {
  import opened RingGeometry
  import opened Broadcast
  import opened RingModel
  import opened RingInvariant
  import opened BlockSteps
  import opened ReaderSteps
  import opened RingSafety
  import opened HeaderBytes

  // ---------------------------------------------------------------- stores

  function HeaderStores(raw: Bytes, p: nat, at: nat, size: nat, kind: Kind, count: Byte): (r: Bytes)
    ensures |r| == |raw|
  {
    var raw1 := Splice(raw, p + 0, LittleEndian(at, 8));
    var raw2 := Splice(raw1, p + 8, LittleEndian(size, 4));
    var raw3 := Splice(raw2, p + 12, LittleEndian(KindCode(kind), 4));
    Splice(raw3, p + 16, [count])
  }

  /** The size is loaded from the header. */
  function ClearStores(raw: Bytes, p: nat): (r: Bytes)
    ensures |r| == |raw|
  {
    var raw1 := Splice(raw, p + HEADER_SIZE, Zeros(HeaderIn(raw, p).size));
    var raw2 := Splice(raw1, p + 8, LittleEndian(0, 4));
    var raw3 := Splice(raw2, p + 12, LittleEndian(KindCode(Normal), 4));
    Splice(raw3, p + 17, [FlagCode(NotReady)])
  }

  function AbortStores(raw: Bytes, p: nat): (r: Bytes)
    ensures |r| == |raw|
  {
    Splice(Splice(raw, p + HEADER_SIZE, Zeros(HeaderIn(raw, p).size)), p + 17, [FlagCode(Aborted)])
  }

  function SubStores(raw: Bytes, p: nat): (r: Bytes)
    ensures |r| == |raw|
  {
    if p + 16 < |raw| then Splice(raw, p + 16, [(raw[p + 16] + READER_LIMIT - 1) % READER_LIMIT]) else raw
  }

  /** The stores that a step makes in the ring. */
  function RawApply(raw: Bytes, s: State, a: Action): (r: Bytes)
    requires Enabled(s, a)
    ensures |r| == |raw|
  {
    match a
    case WriteHeader(w) =>
      var p := s.producers[w];
      var pos := Slot(s.n, p.ticket.at);
      var skip := NeedsSkip(s.n, p.ticket.at, p.size + HEADER_SIZE);
      var size := if skip then (s.n - pos - HEADER_SIZE) % SIZE_LIMIT else p.size % SIZE_LIMIT;
      HeaderStores(raw, pos, p.ticket.at, size, if skip then Padding else Normal, p.ticket.count % READER_LIMIT)
    case CommitSkip(w) => Splice(raw, Slot(s.n, s.producers[w].ticket.at) + 17, [FlagCode(Ready)])
    case Fill(i, data) => Splice(raw, Slot(s.n, s.log[i].start) + HEADER_SIZE, data)
    case Commit(i) => Splice(raw, Slot(s.n, s.log[i].start) + 17, [FlagCode(Ready)])
    case Abort(i) => AbortStores(raw, Slot(s.n, s.log[i].start))
    case Sub(r) => SubStores(raw, s.readers[r].phase.pos)
    case Clear(r) => ClearStores(raw, s.readers[r].phase.pos)
    case _ => raw
  }

  /** A step of the step system in which `bytes` is the whole ring, headers included. */
  function RingStep(s: State, a: Action): State
    requires Enabled(s, a)
  {
    Apply(s, a).(bytes := RawApply(s.bytes, s, a))
  }

  // What the stores do to the header at p and to every other byte.

  lemma HeaderStored(raw: Bytes, p: nat, at: nat, size: nat, kind: Kind, count: Byte)
    requires p + HEADER_SIZE <= |raw| && at < OFFSET_LIMIT && size < SIZE_LIMIT
    ensures var raw' := HeaderStores(raw, p, at, size, kind, count);
      && HeaderIn(raw', p) == Header(at, size, kind, count, HeaderIn(raw, p).flag)
      && raw'[p + 17] == raw[p + 17]
      && forall x :: 0 <= x < |raw| && !(p <= x < p + 17) ==> raw'[x] == raw[x]
  {
    hide Splice, HeaderIn, LittleEndian;
    var raw1 := Splice(raw, p + 0, LittleEndian(at, 8));
    var raw2 := Splice(raw1, p + 8, LittleEndian(size, 4));
    var raw3 := Splice(raw2, p + 12, LittleEndian(KindCode(kind), 4));
    StoreOffset(raw, p, at);
    StoreSize(raw1, p, size);
    StoreKind(raw2, p, kind);
    StoreReaders(raw3, p, count);
    forall x | 0 <= x < |raw| && !(p <= x < p + 17)
      ensures HeaderStores(raw, p, at, size, kind, count)[x] == raw[x]
    {
      SplicedByte(raw, p + 0, LittleEndian(at, 8), x);
      SplicedByte(raw1, p + 8, LittleEndian(size, 4), x);
      SplicedByte(raw2, p + 12, LittleEndian(KindCode(kind), 4), x);
      SplicedByte(raw3, p + 16, [count], x);
    }
  }

  lemma PayloadStored(raw: Bytes, p: nat, data: Bytes)
    requires p + HEADER_SIZE + |data| <= |raw|
    ensures HeaderIn(Splice(raw, p + HEADER_SIZE, data), p) == HeaderIn(raw, p)
  {
    hide Splice, HeaderIn;
    forall x | p <= x < p + HEADER_SIZE ensures Splice(raw, p + HEADER_SIZE, data)[x] == raw[x] {
      SplicedByte(raw, p + HEADER_SIZE, data, x);
    }
    SameHeader(raw, Splice(raw, p + HEADER_SIZE, data), p);
  }

  lemma Cleared(raw: Bytes, p: nat, size: nat)
    requires p + HEADER_SIZE + size <= |raw| && HeaderIn(raw, p).size == size
    ensures var raw' := ClearStores(raw, p);
      && HeaderIn(raw', p) == HeaderIn(raw, p).(size := 0, kind := Normal, flag := NotReady)
      && raw'[p + 17] == 0
      && (forall x :: p + HEADER_SIZE <= x < p + HEADER_SIZE + size ==> raw'[x] == 0)
      && (forall x :: 0 <= x < |raw| && !(p + 8 <= x < p + HEADER_SIZE + size) ==> raw'[x] == raw[x])
      && forall x :: 0 <= x < |raw| && !(p <= x < p + HEADER_SIZE) ==>
           raw'[x] == Splice(raw, p + HEADER_SIZE, Zeros(size))[x]
  {
    hide Splice, HeaderIn, LittleEndian;
    var raw1 := Splice(raw, p + HEADER_SIZE, Zeros(size));
    var raw2 := Splice(raw1, p + 8, LittleEndian(0, 4));
    var raw3 := Splice(raw2, p + 12, LittleEndian(KindCode(Normal), 4));
    PayloadStored(raw, p, Zeros(size));
    StoreSize(raw1, p, 0);
    StoreKind(raw2, p, Normal);
    StoreFlag(raw3, p, NotReady);
    forall x | 0 <= x < |raw|
      ensures ClearStores(raw, p)[x] == if p + HEADER_SIZE <= x < p + HEADER_SIZE + size || x == p + 17 then 0
                                        else if p + 8 <= x < p + 16 then ClearStores(raw, p)[x] else raw[x]
    {
      SplicedByte(raw, p + HEADER_SIZE, Zeros(size), x);
      SplicedByte(raw1, p + 8, LittleEndian(0, 4), x);
      SplicedByte(raw2, p + 12, LittleEndian(KindCode(Normal), 4), x);
      SplicedByte(raw3, p + 17, [FlagCode(NotReady)], x);
    }
    forall x | 0 <= x < |raw| && !(p <= x < p + HEADER_SIZE) ensures ClearStores(raw, p)[x] == raw1[x] {
      SplicedByte(raw1, p + 8, LittleEndian(0, 4), x);
      SplicedByte(raw2, p + 12, LittleEndian(KindCode(Normal), 4), x);
      SplicedByte(raw3, p + 17, [FlagCode(NotReady)], x);
    }
  }

  lemma AbortStored(raw: Bytes, p: nat, size: nat)
    requires p + HEADER_SIZE + size <= |raw| && HeaderIn(raw, p).size == size
    ensures var raw' := AbortStores(raw, p);
      && HeaderIn(raw', p) == HeaderIn(raw, p).(flag := Aborted)
      && forall x :: 0 <= x < |raw| && x != p + 17 ==>
           raw'[x] == Splice(raw, p + HEADER_SIZE, Zeros(size))[x]
  {
    hide Splice, HeaderIn;
    var raw1 := Splice(raw, p + HEADER_SIZE, Zeros(size));
    PayloadStored(raw, p, Zeros(size));
    StoreFlag(raw1, p, Aborted);
    forall x | 0 <= x < |raw| && x != p + 17 ensures AbortStores(raw, p)[x] == raw1[x] {
      SplicedByte(raw1, p + 17, [FlagCode(Aborted)], x);
    }
  }

  lemma SubStored(raw: Bytes, p: nat)
    requires p + HEADER_SIZE <= |raw|
    ensures var raw' := SubStores(raw, p); var h := HeaderIn(raw, p);
      && HeaderIn(raw', p) == h.(numReaders := (h.numReaders + READER_LIMIT - 1) % READER_LIMIT)
      && forall x :: 0 <= x < |raw| && x != p + 16 ==> raw'[x] == raw[x]
  {
    var left: Byte := (raw[p + 16] + READER_LIMIT - 1) % READER_LIMIT;
    assert raw[p + 16] == raw[p..p + HEADER_SIZE][16] == HeaderIn(raw, p).numReaders;
    hide Splice, HeaderIn;
    StoreReaders(raw, p, left);
    forall x | 0 <= x < |raw| && x != p + 16 ensures SubStores(raw, p)[x] == raw[x] {
      SplicedByte(raw, p + 16, [left], x);
    }
  }

  // ---------------------------------------------------------------- one block at a time

  predicate Storing(a: Action) {
    a.WriteHeader? || a.CommitSkip? || a.Fill? || a.Commit? || a.Abort? || a.Sub? || a.Clear?
  }

  /** The block whose bytes a step stores to. */
  function Touched(s: State, a: Action): nat
    requires Enabled(s, a)
  {
    match a
    case WriteHeader(w) => s.producers[w].ticket.idx
    case CommitSkip(w) => s.producers[w].ticket.idx
    case Fill(i, _) => i
    case Commit(i) => i
    case Abort(i) => i
    case Sub(r) => s.readers[r].next
    case _ => s.retired
  }

  /** Every header that is written and not cleared is what the record says. */
  ghost predicate Live(s: State) {
    && |s.bytes| == s.n
    && forall i :: s.wiped <= i < |s.log| && i < |s.stages| && Written(s.stages[i]) ==>
         HeaderIn(s.bytes, Slot(s.n, s.log[i].start)) == HeaderAt(s.headers, Slot(s.n, s.log[i].start))
  }

  /** The touched block is where the step thinks, and past the wait. */
  ghost predicate Aimed(s: State, a: Action)
    requires Enabled(s, a)
  {
    var j := Touched(s, a);
    && s.wiped <= j < |s.log| == |s.stages|
    && (if a.WriteHeader? then s.stages[j] == Admitted else Written(s.stages[j]))
    && (a.WriteHeader? || a.CommitSkip? ==> s.producers[a.w].ticket.at == s.log[j].start)
    && (a.Sub? || a.Clear? ==> s.readers[a.r].phase.pos == Slot(s.n, s.log[j].start))
  }

  /** It is a block of the log, not cleared, with the record that the log promises. */
  ghost predicate Placed(s: State, a: Action)
    requires Enabled(s, a)
  {
    var j := Touched(s, a);
    && Aimed(s, a) && |s.log| == |s.contents| && s.retired <= s.wiped
    && BlockShape(s.n, s.log[j]) && s.n <= MAX_QUEUE_SIZE && s.log[j].End() < OFFSET_LIMIT
    && (!a.WriteHeader? ==>
          HeaderAt(s.headers, Slot(s.n, s.log[j].start))
          == HeaderOf(s.log[j], s.stages[j], Waiters(s.readers, s.log[j].quorum, j)))
  }

  lemma LogBound(s: State, i: nat)
    requires LayoutOk(s) && i < |s.log|
    ensures BlockShape(s.n, s.log[i]) && s.n <= MAX_QUEUE_SIZE && s.log[i].End() < OFFSET_LIMIT
  {
    StartsIncrease(s.log, s.offset, s.n, i, |s.log|);
  }

  lemma LiveRecord(s: State, i: nat)
    requires HeadersOk(s) && s.wiped <= i < |s.log|
    ensures |s.stages| == |s.log|
    ensures Written(s.stages[i]) ==>
              HeaderAt(s.headers, Slot(s.n, s.log[i].start))
              == HeaderOf(s.log[i], s.stages[i], Waiters(s.readers, s.log[i].quorum, i))
  {
  }

  lemma ProducerAims(s: State, a: Action)
    requires Enabled(s, a) && (a.WriteHeader? || a.CommitSkip?) && Inv(s)
    ensures Aimed(s, a)
  {
    hide Layout, Window, Claims, Cursors, Accounting, Headers, Payloads, Slot;
    TicketFacts(s, a.w);
  }

  lemma ReaderAims(s: State, a: Action)
    requires Enabled(s, a) && (a.Sub? || a.Clear?) && Inv(s)
    ensures Aimed(s, a)
  {
    hide Layout, Window, Claims, Cursors, Accounting, Headers, Payloads, Slot, Waiters;
    SameLengths(s);
    ReaderFacts(s, a.r);
    if a.Sub? {
      LiveHeader(s, a.r);
    } else {
      CloserFacts(s, a.r);
      OldestFinal(s, a.r);
    }
  }

  lemma WrapperAims(s: State, a: Action)
    requires Enabled(s, a) && (a.Fill? || a.Commit? || a.Abort?) && Inv(s)
    ensures Aimed(s, a)
  {
    hide Layout, Window, Claims, Cursors, Accounting, Headers, Payloads, Slot, Waiters;
    OutstandingFacts(s, a.i);
  }

  lemma StepIsPlaced(s: State, a: Action)
    requires Enabled(s, a) && Storing(a) && Inv(s)
    ensures Placed(s, a)
  {
    hide Layout, Window, Claims, Cursors, Accounting, Headers, Payloads, Slot, Waiters, Enabled;
    if a.WriteHeader? || a.CommitSkip? {
      ProducerAims(s, a);
    } else if a.Sub? || a.Clear? {
      ReaderAims(s, a);
    } else {
      WrapperAims(s, a);
    }
    SameLengths(s);
    WipedAhead(s);
    LogBound(s, Touched(s, a));
    LiveRecord(s, Touched(s, a));
  }

  lemma WipedAhead(s: State)
    requires WindowOk(s)
    ensures s.retired <= s.wiped
  {
  }

  // ---------------------------------------------------------------- the effect of each store

  /** The byte under a flag is not one that `poll_buffer` acts on. */
  predicate Unset(b: Byte) {
    FlagOfByte(b) == NotReady
  }

  /** Only the touched block's bytes and record change, and its payload as the step system
      says. */
  ghost predicate Effect(s: State, a: Action)
    requires Enabled(s, a) && Touched(s, a) < |s.log|
  {
    var s' := RingStep(s, a);
    var b := s.log[Touched(s, a)];
    var p := Slot(s.n, b.start);
    && |s'.bytes| == |Apply(s, a).bytes| == |s.bytes|
    && (forall x :: 0 <= x < |s.bytes| && !(p <= x < p + b.len) ==> s'.bytes[x] == s.bytes[x])
    && (forall x :: 0 <= x < |s.bytes| && !(p <= x < p + HEADER_SIZE) ==> s'.bytes[x] == Apply(s, a).bytes[x])
    && (forall q: nat :: q != p ==> HeaderAt(s'.headers, q) == HeaderAt(s.headers, q))
  }

  /** The bytes of the touched block's header are still what its record says. */
  ghost predicate HeaderKept(s: State, a: Action)
    requires Enabled(s, a) && Touched(s, a) < |s.log|
  {
    var p := Slot(s.n, s.log[Touched(s, a)].start);
    HeaderIn(RingStep(s, a).bytes, p) == HeaderAt(RingStep(s, a).headers, p)
  }

  lemma WriteHeaderEffect(s: State, a: Action)
    requires a.WriteHeader? && Enabled(s, a) && Placed(s, a) && |s.bytes| == s.n
    requires TicketOf(s.log, a.w, s.producers[a.w].size, s.producers[a.w].ticket)
    requires HeaderAt(s.headers, Slot(s.n, s.producers[a.w].ticket.at)).flag == NotReady
    ensures Effect(s, a)
    ensures HeaderKept(s, a) <==> Unset(s.bytes[Slot(s.n, s.log[Touched(s, a)].start) + 17])
  {
    hide Slot, Slice, Splice, HeaderStores, HeaderIn, FlagOfByte;
    var p := s.producers[a.w];
    var pos := Slot(s.n, p.ticket.at);
    var skip := NeedsSkip(s.n, p.ticket.at, p.size + HEADER_SIZE);
    var size := if skip then (s.n - pos - HEADER_SIZE) % SIZE_LIMIT else p.size % SIZE_LIMIT;
    HeaderStored(s.bytes, pos, p.ticket.at, size, if skip then Padding else Normal, p.ticket.count % READER_LIMIT);
    FlagByte(s.bytes, pos);
  }

  lemma FlagByte(raw: Bytes, p: nat)
    requires p + HEADER_SIZE <= |raw|
    ensures HeaderIn(raw, p).flag == FlagOfByte(raw[p + 17])
  {
    assert raw[p..p + HEADER_SIZE][17] == raw[p + 17];
  }

  lemma FlagEffect(s: State, a: Action)
    requires a.CommitSkip? || a.Commit?
    requires Enabled(s, a) && Placed(s, a) && Live(s)
    ensures Effect(s, a) && HeaderKept(s, a)
  {
    hide Slot, Slice, Splice, HeaderIn;
    var pos := Slot(s.n, s.log[Touched(s, a)].start);
    StoreFlag(s.bytes, pos, Ready);
    forall x | 0 <= x < |s.bytes| && x != pos + 17
      ensures Splice(s.bytes, pos + 17, [FlagCode(Ready)])[x] == s.bytes[x]
    {
      SplicedByte(s.bytes, pos + 17, [FlagCode(Ready)], x);
    }
  }

  lemma FillEffect(s: State, a: Action)
    requires a.Fill? && Enabled(s, a) && Placed(s, a) && Live(s)
    ensures Effect(s, a) && HeaderKept(s, a)
  {
    hide Slot, Slice, Splice, HeaderIn;
    var pos := Slot(s.n, s.log[a.i].start);
    PayloadStored(s.bytes, pos, a.data);
    forall x | 0 <= x < |s.bytes| && !(pos <= x < pos + s.log[a.i].len)
      ensures Splice(s.bytes, pos + HEADER_SIZE, a.data)[x] == s.bytes[x]
    {
      SplicedByte(s.bytes, pos + HEADER_SIZE, a.data, x);
    }
  }

  lemma AbortEffect(s: State, a: Action)
    requires a.Abort? && Enabled(s, a) && Placed(s, a) && Live(s)
    ensures Effect(s, a) && HeaderKept(s, a)
  {
    hide Slot, Slice, Splice, HeaderIn, AbortStores, Waiters;
    var pos := Slot(s.n, s.log[a.i].start);
    var size := s.log[a.i].PayloadLen();
    AbortStored(s.bytes, pos, size);
    forall x | 0 <= x < |s.bytes| && !(pos <= x < pos + s.log[a.i].len)
      ensures Splice(s.bytes, pos + HEADER_SIZE, Zeros(size))[x] == s.bytes[x]
    {
      SplicedByte(s.bytes, pos + HEADER_SIZE, Zeros(size), x);
    }
  }

  lemma SubEffect(s: State, a: Action)
    requires a.Sub? && Enabled(s, a) && Placed(s, a) && Live(s)
    ensures Effect(s, a) && HeaderKept(s, a)
  {
    hide Slot, Slice, Splice, HeaderIn, SubStores, Waiters;
    SubStored(s.bytes, Slot(s.n, s.log[Touched(s, a)].start));
  }

  lemma ClearEffect(s: State, a: Action)
    requires a.Clear? && Enabled(s, a) && Placed(s, a) && Live(s)
    ensures Effect(s, a) && HeaderKept(s, a)
  {
    hide Slot, Slice, Splice, HeaderIn, ClearStores, Waiters;
    var b := s.log[s.retired];
    var pos := Slot(s.n, b.start);
    Cleared(s.bytes, pos, b.PayloadLen());
  }

  /** The one byte that decides whether a new header reads as its record says: a claim does
      not write the flag. */
  ghost predicate FlagByteClear(s: State, a: Action)
    requires Enabled(s, a) && Touched(s, a) < |s.log|
  {
    var p := Slot(s.n, s.log[Touched(s, a)].start);
    p + 17 < |s.bytes| && Unset(s.bytes[p + 17])
  }

  lemma StoreEffect(s: State, a: Action)
    requires Enabled(s, a) && Storing(a) && Live(s) && Inv(s)
    ensures Placed(s, a) && Effect(s, a)
    ensures HeaderKept(s, a) <==> (a.WriteHeader? ==> FlagByteClear(s, a))
  {
    hide Inv, Enabled, Effect, HeaderKept, Unset;
    StepIsPlaced(s, a);
    match a
    case WriteHeader(_) =>
      FreeHeader(s, a);
      WriteHeaderEffect(s, a);
    case CommitSkip(_) => FlagEffect(s, a);
    case Commit(_) => FlagEffect(s, a);
    case Fill(_, _) => FillEffect(s, a);
    case Abort(_) => AbortEffect(s, a);
    case Sub(_) => SubEffect(s, a);
    case Clear(_) => ClearEffect(s, a);
  }

  lemma FreeHeader(s: State, a: Action)
    requires Enabled(s, a) && a.WriteHeader? && Inv(s)
    ensures TicketOf(s.log, a.w, s.producers[a.w].size, s.producers[a.w].ticket)
    ensures HeaderAt(s.headers, Slot(s.n, s.producers[a.w].ticket.at)).flag == NotReady
  {
    hide Layout, Window, Claims, Cursors, Accounting, Headers, Payloads, Slot;
    TicketFacts(s, a.w);
    FreeSlot(s, s.producers[a.w].ticket.idx);
  }

  // ---------------------------------------------------------------- every block

  /** What a storing step leaves of every other block. */
  lemma StoreKeepsOthers(s: State, a: Action)
    requires Enabled(s, a) && Storing(a) && Placed(s, a)
    ensures var s' := Apply(s, a); var j := Touched(s, a);
      && s'.n == s.n && s'.log == s.log && |s'.stages| == |s.stages| && |s'.contents| == |s.contents|
      && (forall i :: 0 <= i < |s.stages| && i != j ==> s'.stages[i] == s.stages[i])
      && (forall i :: 0 <= i < |s.contents| && i != j ==> s'.contents[i] == s.contents[i])
      && (if a.Clear? then j < s'.wiped else s'.wiped == s.wiped && Written(s'.stages[j])) && s.wiped <= s'.wiped
  {
    hide Slot, Slice, Splice, HeaderAt;
  }

  /** A step that stores nothing adds no written block. */
  lemma QuietKeeps(s: State, a: Action)
    requires Enabled(s, a) && !Storing(a) && Inv(s)
    ensures var s' := Apply(s, a);
      && s'.n == s.n && s'.headers == s.headers && s'.bytes == s.bytes && s'.wiped == s.wiped
      && |s.stages| == |s.log| <= |s'.log| == |s'.stages|
      && (forall i :: 0 <= i < |s.log| ==> s'.log[i] == s.log[i] && (Written(s'.stages[i]) <==> Written(s.stages[i])))
      && (forall i :: |s.log| <= i < |s'.log| ==> !Written(s'.stages[i]))
  {
    hide Layout, Window, Claims, Cursors, Accounting, Headers, Payloads, Slot, Slice, Splice, HeaderAt;
    SameLengths(s);
    if a.Grant? { TicketFacts(s, a.w); }
  }

  /** Another live block shares no byte with the touched one. */
  lemma OtherApart(s: State, a: Action, i: nat)
    requires Enabled(s, a) && Placed(s, a) && LayoutOk(s) && WindowOk(s)
    requires s.wiped <= i < |s.log| && Written(s.stages[i]) && i != Touched(s, a)
    ensures var p := Slot(s.n, s.log[Touched(s, a)].start); var q := Slot(s.n, s.log[i].start);
      && Disjoint(p, s.log[Touched(s, a)].len, q, s.log[i].len) && p != q
      && q + s.log[i].len <= s.n && HEADER_SIZE <= s.log[i].len
  {
    hide Layout, Window, Slot;
    LiveDisjoint(s, Touched(s, a), i);
    LogBound(s, i);
  }

  lemma OtherLive(s: State, a: Action, i: nat)
    requires Enabled(s, a) && Placed(s, a) && Effect(s, a) && Live(s) && LayoutOk(s) && WindowOk(s)
    requires s.wiped <= i < |s.log| && Written(s.stages[i]) && i != Touched(s, a)
    ensures HeaderIn(RingStep(s, a).bytes, Slot(s.n, s.log[i].start))
            == HeaderAt(RingStep(s, a).headers, Slot(s.n, s.log[i].start))
  {
    hide Layout, Window, Slot, HeaderIn, HeaderAt, Enabled, RingStep, Touched;
    OtherApart(s, a, i);
    SameHeader(s.bytes, RingStep(s, a).bytes, Slot(s.n, s.log[i].start));
  }

  lemma OthersLive(s: State, a: Action)
    requires Enabled(s, a) && Storing(a) && Live(s) && Inv(s)
    requires Placed(s, a) && Effect(s, a)
    ensures forall i :: s.wiped <= i < |s.log| && Written(s.stages[i]) && i != Touched(s, a) ==>
              HeaderIn(RingStep(s, a).bytes, Slot(s.n, s.log[i].start))
              == HeaderAt(RingStep(s, a).headers, Slot(s.n, s.log[i].start))
  {
    hide Layout, Window, Claims, Cursors, Accounting, Headers, Payloads, Slot, HeaderIn, HeaderAt, Enabled, RingStep,
         Effect;
    forall i | s.wiped <= i < |s.log| && Written(s.stages[i]) && i != Touched(s, a)
      ensures HeaderIn(RingStep(s, a).bytes, Slot(s.n, s.log[i].start))
              == HeaderAt(RingStep(s, a).headers, Slot(s.n, s.log[i].start))
    {
      OtherLive(s, a, i);
    }
  }

  /** The records stay true of the bytes exactly when no header is written over a set flag
      byte. All other steps, of blocks of any sizes, keep them true. */
  lemma LiveIff(s: State, a: Action)
    requires Enabled(s, a) && Live(s) && Inv(s)
    ensures a.WriteHeader? ==> Touched(s, a) < |s.log|
    ensures Live(RingStep(s, a)) <==> (a.WriteHeader? ==> FlagByteClear(s, a))
  {
    hide Inv, HeaderIn, HeaderAt, Apply, RawApply, Enabled, Slot, FlagByteClear;
    if Storing(a) {
      StoreEffect(s, a);
      StoreKeepsOthers(s, a);
      OthersLive(s, a);
      assert Live(RingStep(s, a)) ==> a.WriteHeader? ==> HeaderKept(s, a);
    } else {
      QuietKeeps(s, a);
      QuietBytes(s, a);
    }
  }

  lemma QuietBytes(s: State, a: Action)
    requires Enabled(s, a) && !Storing(a)
    ensures RawApply(s.bytes, s, a) == s.bytes
  {
  }

  // ---------------------------------------------------------------- the invariant over the bytes

  lemma SameSlice(b: Bytes, b': Bytes, at: nat, k: nat)
    requires |b| == |b'| && at + k <= |b|
    requires forall x :: at <= x < at + k ==> b[x] == b'[x]
    ensures Slice(b, at, k) == Slice(b', at, k)
  {
  }

  lemma PayloadUntouched(s: State, a: Action, i: nat)
    requires Enabled(s, a) && Placed(s, a) && Effect(s, a) && Live(s) && LayoutOk(s) && WindowOk(s)
    requires s.wiped <= i < |s.log| && (Written(s.stages[i]) || i == Touched(s, a))
    ensures var at := Slot(s.n, s.log[i].start) + HEADER_SIZE;
      Slice(RingStep(s, a).bytes, at, s.log[i].PayloadLen()) == Slice(Apply(s, a).bytes, at, s.log[i].PayloadLen())
  {
    hide Layout, Window, Slot, HeaderIn, HeaderAt, Enabled, RingStep, Touched, Slice, Apply;
    if i != Touched(s, a) { OtherApart(s, a, i); }
    SameSlice(RingStep(s, a).bytes, Apply(s, a).bytes, Slot(s.n, s.log[i].start) + HEADER_SIZE, s.log[i].PayloadLen());
  }

  lemma PayloadsAgree(s: State, a: Action)
    requires Enabled(s, a) && Storing(a) && Live(s) && Inv(s)
    requires PayloadsOk(Apply(s, a))
    ensures PayloadsOk(RingStep(s, a))
  {
    hide Layout, Window, Claims, Cursors, Accounting, Headers, Slot, Slice, HeaderIn, HeaderAt, Enabled, Apply,
         RawApply, Effect;
    StoreEffect(s, a);
    StoreKeepsOthers(s, a);
    SameSize(s, a);
    var s', s1 := RingStep(s, a), Apply(s, a);
    forall i | s'.wiped <= i < |s'.log| && Written(s'.stages[i]) && s'.log[i].kind == Normal
      ensures s'.contents[i] == Slice(s'.bytes, Slot(s'.n, s'.log[i].start) + HEADER_SIZE, s'.log[i].PayloadLen())
    {
      PayloadUntouched(s, a, i);
    }
  }

  lemma SameSize(s: State, a: Action)
    requires Enabled(s, a) && PayloadsOk(Apply(s, a)) && Touched(s, a) < |s.log| && Effect(s, a)
    ensures |RingStep(s, a).bytes| == Apply(s, a).n
  {
  }

  /** The invariant holds of the step system with the whole ring for its bytes. */
  lemma RingStepInv(s: State, a: Action)
    requires Enabled(s, a) && Assumed(s, a) && Live(s) && Inv(s)
    ensures Inv(RingStep(s, a))
  {
    hide Layout, Window, Claims, Cursors, Accounting, Headers, Payloads, Slot, Apply, RawApply, Enabled, Assumed;
    StepInv(s, a);
    if Storing(a) {
      PayloadsAgree(s, a);
    } else {
      QuietBytes(s, a);
      QuietKeeps(s, a);
      assert RingStep(s, a) == Apply(s, a);
    }
  }
}
