/**
 The machine that has nothing but bytes: every header that a step looks at is decoded from
 the ring. It takes the same steps as the step system exactly as long as one byte, the
 one under a commit flag, is clear at the two places where the code relies on it.
 */
module RawMachine {
  import opened RingGeometry
  import opened Broadcast
  import opened RingModel
  import opened RingInvariant
  import opened ReaderSteps
  import opened HeaderBytes
  import opened RawRing

  /** The header at every ring position, decoded. */
  function HeadersIn(raw: Bytes): map<nat, Header> {
    map p: nat | p < |raw| :: HeaderIn(raw, p)
  }

  lemma DecodedAt(raw: Bytes, p: nat)
    ensures HeaderAt(HeadersIn(raw), p) == HeaderIn(raw, p)
  {
  }

  /** The state with its records replaced by what the bytes hold. */
  function ReadBack(s: State): State {
    s.(headers := HeadersIn(s.bytes))
  }

  lemma StillEnabled(s: State, a: Action)
    ensures Enabled(ReadBack(s), a) <==> Enabled(s, a)
  {
  }

  /** A step of the machine. It looks at no record. */
  function RawStep(s: State, a: Action): State
    requires Enabled(s, a)
  {
    StillEnabled(s, a);
    RingStep(ReadBack(s), a)
  }

  /** Equal but for the records. */
  predicate Same(t: State, s: State) {
    t == s.(headers := t.headers)
  }

  /** The machine does what the step system does, and the records stay true. */
  ghost predicate Agrees(s: State, a: Action)
    requires Enabled(s, a)
  {
    Same(RawStep(s, a), RingStep(s, a)) && Live(RingStep(s, a))
  }

  /** A block with a header that is not cleared starts at ring position p. */
  ghost predicate WrittenAt(s: State, p: nat) {
    exists i :: s.wiped <= i < |s.log| && i < |s.stages| && Written(s.stages[i]) && Slot(s.n, s.log[i].start) == p
  }

  /** What the code relies on and does not bring about. A header is written over a flag byte
      that `poll_buffer` would not act on. A flag loaded at a position where no block has
      its header is likewise not set. And if a reader acts late on a flag it loaded there,
      the bytes do not happen to spell its own offset. */
  ghost predicate Clean(s: State, a: Action)
    requires Enabled(s, a)
  {
    match a
    case WriteHeader(w) => HeaderIn(s.bytes, Slot(s.n, s.producers[w].ticket.at)).flag == NotReady
    case PollLoad(r) =>
      var p := Slot(s.n, s.readers[r].cursor);
      WrittenAt(s, p) || HeaderIn(s.bytes, p).flag == NotReady
    case PollDecide(r) =>
      var p := Slot(s.n, s.readers[r].cursor);
      WrittenAt(s, p) || HeaderIn(s.bytes, p).absOffset != s.readers[r].cursor
    case _ => true
  }

  // ---------------------------------------------------------------- one step

  lemma RawIgnoresRecords(s: State, a: Action)
    requires Enabled(s, a)
    ensures Enabled(ReadBack(s), a) && RawApply(s.bytes, ReadBack(s), a) == RawApply(s.bytes, s, a)
  {
    hide Slot, Splice, HeaderStores, ClearStores, AbortStores, SubStores;
  }

  /** Where a step loads a header. */
  function LoadedAt(s: State, a: Action): nat
    requires Enabled(s, a)
  {
    match a
    case PollLoad(r) => Slot(s.n, s.readers[r].cursor)
    case PollDecide(r) => Slot(s.n, s.readers[r].cursor)
    case Release(r) => s.readers[r].phase.pos
    case Sub(r) => s.readers[r].phase.pos
    case Clear(r) => s.readers[r].phase.pos
    case Abort(i) => Slot(s.n, s.log[i].start)
    case _ => 0
  }

  predicate Loading(a: Action) {
    a.PollLoad? || a.PollDecide? || a.Release? || a.Sub? || a.Clear? || a.Abort?
  }

  lemma SameUnloaded(s: State, a: Action)
    requires Enabled(s, a) && !Loading(a)
    ensures Same(RawStep(s, a), RingStep(s, a))
  {
    hide Slot, Splice, Slice, HeaderIn, HeaderAt, HeadersIn, NeedsSkip, BumpLength, RawApply;
    RawIgnoresRecords(s, a);
  }

  lemma SameLoaded(s: State, a: Action)
    requires Enabled(s, a) && Loading(a)
    requires HeaderIn(s.bytes, LoadedAt(s, a)) == HeaderAt(s.headers, LoadedAt(s, a))
    ensures Same(RawStep(s, a), RingStep(s, a))
  {
    hide Slot, Splice, Slice, HeaderIn, HeaderAt, HeadersIn, RawApply;
    RawIgnoresRecords(s, a);
    DecodedAt(s.bytes, LoadedAt(s, a));
  }

  // ---------------------------------------------------------------- loads of live headers

  lemma LiveLoad(s: State, p: nat)
    requires Live(s) && WrittenAt(s, p)
    ensures HeaderIn(s.bytes, p) == HeaderAt(s.headers, p)
  {
  }

  lemma HoldsWritten(s: State, a: Action)
    requires Enabled(s, a) && Loading(a) && !a.PollLoad? && !a.PollDecide? && Inv(s)
    ensures WrittenAt(s, LoadedAt(s, a))
  {
    hide Layout, Window, Claims, Cursors, Accounting, Headers, Payloads, Slot, Waiters;
    if a.Release? {
      ReaderFacts(s, a.r);
      LiveHeader(s, a.r);
      assert Written(s.stages[s.readers[a.r].next]);
    } else {
      StepIsPlaced(s, a);
      assert Written(s.stages[Touched(s, a)]);
    }
  }

  lemma TenantIsWritten(s: State, p: nat)
    requires HeaderAt(s.headers, p).flag != NotReady && Inv(s)
    ensures WrittenAt(s, p)
  {
    hide Layout, Window, Claims, Cursors, Accounting, Headers, Payloads, Slot, Waiters;
    var i := TenantFacts(s, p);
    assert Written(s.stages[i]);
  }

  /** Where no block has its header, no record has its flag set. */
  lemma UnwrittenIsNotReady(s: State, p: nat)
    requires Inv(s) && !WrittenAt(s, p)
    ensures HeaderAt(s.headers, p).flag == NotReady
  {
    hide Inv, WrittenAt, HeaderAt;
    if HeaderAt(s.headers, p).flag != NotReady { TenantIsWritten(s, p); }
  }

  lemma StrayPollLoad(s: State, r: nat)
    requires Enabled(s, PollLoad(r))
    requires HeaderAt(s.headers, Slot(s.n, s.readers[r].cursor)).flag == NotReady
    ensures Same(RawStep(s, PollLoad(r)), RingStep(s, PollLoad(r)))
            <==> HeaderIn(s.bytes, Slot(s.n, s.readers[r].cursor)).flag == NotReady
  {
    hide Slot, HeaderIn, HeaderAt, HeadersIn;
    DecodedAt(s.bytes, Slot(s.n, s.readers[r].cursor));
    assert ReadBack(s).readers[r] == s.readers[r];
  }

  lemma StrayPollDecide(s: State, r: nat)
    requires Enabled(s, PollDecide(r)) && Assumed(s, PollDecide(r))
    requires HeaderAt(s.headers, Slot(s.n, s.readers[r].cursor)).flag == NotReady
    ensures Same(RawStep(s, PollDecide(r)), RingStep(s, PollDecide(r)))
            <==> HeaderIn(s.bytes, Slot(s.n, s.readers[r].cursor)).absOffset != s.readers[r].cursor
  {
    hide Slot, HeaderIn, HeaderAt, HeadersIn;
    DecodedAt(s.bytes, Slot(s.n, s.readers[r].cursor));
    assert RingStep(s, PollDecide(r)).readers[r].phase == Resting;
    assert RawStep(s, PollDecide(r)).readers[r].phase == Resting
           <==> HeaderIn(s.bytes, Slot(s.n, s.readers[r].cursor)).absOffset != s.readers[r].cursor;
  }

  // ---------------------------------------------------------------- exactly when

  lemma TicketPlace(s: State, a: Action)
    requires Enabled(s, a) && a.WriteHeader? && Live(s) && Inv(s)
    ensures Touched(s, a) < |s.log|
    ensures Clean(s, a) <==> FlagByteClear(s, a)
  {
    hide Layout, Window, Claims, Cursors, Accounting, Headers, Payloads, Slot, HeaderIn, FlagOfByte;
    StepIsPlaced(s, a);
    FlagByte(s.bytes, Slot(s.n, s.log[Touched(s, a)].start));
  }

  /** For messages of any sizes, one step: the bytes and the records take the same step and
      still say the same exactly when the step is clean. */
  lemma AgreesIff(s: State, a: Action)
    requires Enabled(s, a) && Assumed(s, a) && Live(s) && Inv(s)
    ensures Agrees(s, a) <==> Clean(s, a)
  {
    hide Inv, Slot, HeaderIn, HeaderAt, Apply, RawApply, RawStep, RingStep, Live, WrittenAt, FlagByteClear;
    LiveIff(s, a);
    if a.WriteHeader? {
      SameUnloaded(s, a);
      TicketPlace(s, a);
    } else if a.PollLoad? || a.PollDecide? {
      if WrittenAt(s, LoadedAt(s, a)) {
        LiveLoad(s, LoadedAt(s, a));
        SameLoaded(s, a);
      } else {
        UnwrittenIsNotReady(s, LoadedAt(s, a));
        if a.PollLoad? { StrayPollLoad(s, a.r); } else { StrayPollDecide(s, a.r); }
      }
    } else if Loading(a) {
      HoldsWritten(s, a);
      LiveLoad(s, LoadedAt(s, a));
      SameLoaded(s, a);
    } else {
      SameUnloaded(s, a);
    }
  }
}
