/**
 Progress: the ring is never stuck while work remains, except in one exactly described
 situation, and every schedule of useful steps ends with everything delivered.
 */
module RingProgress {
  import opened Division
  import opened RingGeometry
  import opened Broadcast
  import opened RingModel
  import opened RingInvariant
  import opened BlockSteps
  import opened ReaderSteps
  import opened RingSafety
  import opened RingTheorems
  import opened Runs
  import opened Sums

  /** The word a producer loaded is no longer current. */
  predicate Stale(p: Producer, count: nat, offset: nat)
    requires p.Loaded?
  {
    p.count != count || p.offset != offset
  }

  /** Steps that bring the work in hand forward. Excluded are new work (Join, Begin, Fill),
      spinning (a load of a flag that is not the reader's own, a spurious failure of the
      compare-and-swap, MarkAsRead), and finishing a message from inside `claim_buffer`,
      where the producer's thread is not free to. */
  ghost predicate Useful(s: State, a: Action) {
    && Enabled(s, a) && Assumed(s, a)
    && match a
       case Load(_) => true
       case Cas(_) => true
       case CasFail(w) => Stale(s.producers[w], s.count, s.offset)
       case Grant(_) => true
       case WriteHeader(_) => true
       case CommitSkip(_) => true
       case Commit(i) => s.log[i].owner < |s.producers| && s.producers[s.log[i].owner].Idle?
       case Abort(i) => s.log[i].owner < |s.producers| && s.producers[s.log[i].owner].Idle?
       case PollLoad(r) => PolledHeader(s, r).flag != NotReady && FreshLoad(s, r)
       case PollDecide(_) => true
       case Release(_) => true
       case Sub(_) => true
       case Clear(_) => true
       case Advance(_) => true
       case _ => false
  }

  /** Everything claimed has been retired and nobody is claiming. */
  ghost predicate Quiescent(s: State) {
    s.retired == |s.log| && forall w :: 0 <= w < |s.producers| ==> s.producers[w].Idle?
  }

  /** Producer w waits for a block that ends more than a ring's length after the start of
      a message of its own that it has not finished. */
  ghost predicate Overcommitted(s: State, w: nat, i: nat) {
    && Outstanding(s, i) && s.log[i].owner == w
    && w < |s.producers| && s.producers[w].Waiting?
    && s.producers[w].ticket.at + s.producers[w].ticket.bump > s.log[i].start + s.n
  }

  /** The test that keeps a producer out of this, on the word it has loaded: the swap stays
      within a ring's length of every message it has not finished. */
  ghost predicate InBound(s: State, a: Action)
    requires Enabled(s, a)
  {
    a.Cas? ==> forall i: nat :: Outstanding(s, i) && s.log[i].owner == a.w ==>
      s.offset + BumpLength(s.n, s.offset, s.producers[a.w].size + HEADER_SIZE) <= s.log[i].start + s.n
  }

  ghost predicate NoneOvercommitted(s: State) {
    forall w: nat, i: nat :: !Overcommitted(s, w, i)
  }

  /** A swap or a poll's decision that is about to go outside its assumption. */
  ghost predicate Outside(s: State, a: Action) {
    Enabled(s, a) && !Assumed(s, a) && (a.Cas? || a.PollDecide?)
  }

  // ---------------------------------------------------------------- never stuck

  /** A producer inside `claim_buffer` that has not spun out can move. */
  lemma ProducerMoves(s: State, w: nat) returns (a: Action)
    requires Inv(s) && w < |s.producers| && !s.producers[w].Idle?
    requires s.producers[w].Waiting? ==> Enabled(s, Grant(w))
    ensures Useful(s, a) || Outside(s, a)
  {
    hide Layout, Window, Claims, Cursors, Accounting, Headers, Payloads, Slot;
    match s.producers[w]
    case Trying(_) => a := Load(w);
    case Loaded(_, _, _) =>
      if Stale(s.producers[w], s.count, s.offset) {
        a := CasFail(w);
      } else {
        a := Cas(w);
      }
    case Waiting(_, _) => a := Grant(w);
    case Granted(_, _) =>
      TicketFacts(s, w);
      a := WriteHeader(w);
    case Skipping(_, _) =>
      TicketFacts(s, w);
      a := CommitSkip(w);
  }

  /** The claim of the oldest block always has room. */
  lemma OldestFits(s: State, w: nat)
    requires Inv(s) && w < |s.producers| && s.producers[w].Waiting?
    requires s.producers[w].ticket.idx == s.retired < |s.log|
    ensures Enabled(s, Grant(w))
  {
    hide Layout, Window, Claims, Cursors, Accounting, Headers, Payloads;
    TicketFacts(s, w);
    WatermarkStart(s);
  }

  lemma OwnerFacts(s: State, i: nat)
    requires ClaimsOk(s) && i < |s.log|
    ensures |s.stages| == |s.log| && OwnedBy(s.log[i], s.stages[i], i, s.producers)
  {
  }

  /** Some reader of a final oldest block can move. */
  lemma ReaderMoves(s: State) returns (a: Action)
    requires Inv(s) && s.retired < |s.log| == |s.stages|
    requires s.stages[s.retired].Final() && s.closer == None
    ensures Useful(s, a) || Outside(s, a)
  {
    hide Layout, Window, Claims, Cursors, Accounting, Headers, Payloads, Slot;
    var r := OldestOwer(s);
    ReaderFacts(s, r);
    LiveHeader(s, r);
    match s.readers[r].phase
    case Resting =>
      WatermarkStart(s);
      a := PollLoad(r);
    case Seen(_, _) => a := PollDecide(r);
    case Holding(_, _) => a := Release(r);
    case Bumped(_, _) => a := Sub(r);
  }

  lemma OldestOwer(s: State) returns (r: nat)
    requires CursorsOk(s) && AccountingOk(s) && s.retired < |s.log| && s.closer == None
    ensures r < |s.readers| && s.readers[r].next == s.retired && !Closing(s.readers[r])
  {
    WaitersZero(s.readers, s.log[s.retired].quorum, s.retired);
    r :| 0 <= r < |s.readers| && s.readers[r].next <= s.retired;
    ReaderFacts(s, r);
  }

  lemma CloserMoves(s: State) returns (a: Action)
    requires AccountingOk(s) && s.closer.Some?
    ensures Useful(s, a)
  {
    var c := s.closer.value;
    a := if s.readers[c].phase.Last? then Clear(c) else Advance(c);
  }

  /** While work remains, some useful step is enabled or a step is about to leave the
      assumptions, unless some producer has overcommitted itself. */
  lemma UsefulStepExists(s: State) returns (a: Action)
    requires Inv(s) && !Quiescent(s) && NoneOvercommitted(s)
    ensures Useful(s, a) || Outside(s, a)
  {
    hide Layout, Window, Claims, Cursors, Accounting, Headers, Payloads, Slot;
    if s.closer.Some? {
      a := CloserMoves(s);
    } else if s.retired < |s.log| {
      OwnerFacts(s, s.retired);
      SameLengths(s);
      if s.stages[s.retired].Final() {
        a := ReaderMoves(s);
      } else {
        a := OldestBlockMoves(s);
      }
    } else {
      WatermarkStart(s);
      var w :| 0 <= w < |s.producers| && !s.producers[w].Idle?;
      if s.producers[w].Waiting? { TicketFacts(s, w); WipedBound(s); }
      a := ProducerMoves(s, w);
    }
  }

  lemma WipedBound(s: State)
    requires WindowOk(s)
    ensures s.retired <= s.wiped <= |s.log|
  {
  }

  lemma OldestBlockMoves(s: State) returns (a: Action)
    requires s.retired < |s.log| == |s.stages| && |s.contents| == |s.log| && !s.stages[s.retired].Final()
    requires OwnedBy(s.log[s.retired], s.stages[s.retired], s.retired, s.producers)
    requires Inv(s) && NoneOvercommitted(s)
    ensures Useful(s, a) || Outside(s, a)
  {
    hide Layout, Window, Claims, Cursors, Accounting, Headers, Payloads, Slot, NoneOvercommitted, Overcommitted;
    var w := s.log[s.retired].owner;
    if s.producers[w].Idle? {
      a := Commit(s.retired);
    } else {
      if s.producers[w].Waiting? { OldestOwnerGoesOn(s, w); }
      a := ProducerMoves(s, w);
    }
  }

  /** A producer that waits while the oldest block is its own has room. */
  lemma OldestOwnerGoesOn(s: State, w: nat)
    requires s.retired < |s.log| == |s.stages| && |s.contents| == |s.log| && !s.stages[s.retired].Final()
    requires OwnedBy(s.log[s.retired], s.stages[s.retired], s.retired, s.producers)
    requires w == s.log[s.retired].owner < |s.producers| && s.producers[w].Waiting?
    requires Inv(s) && NoneOvercommitted(s)
    ensures Enabled(s, Grant(w))
  {
    hide Layout, Window, Claims, Cursors, Accounting, Headers, Payloads, Slot;
    if s.stages[s.retired] == Claimed {
      OldestFits(s, w);
    } else {
      assert !Overcommitted(s, w, s.retired);
      WatermarkStart(s);
      TicketFacts(s, w);
      WipedBound(s);
      WaitsAhead(s, s.producers[w].ticket.idx);
    }
  }

  lemma WaitsAhead(s: State, i: nat)
    requires LayoutOk(s) && WindowOk(s) && s.retired <= i < |s.log|
    ensures s.readOffset <= s.log[i].End()
  {
    if s.retired < i { StartsIncrease(s.log, s.offset, s.n, s.retired, i); }
  }

  // ---------------------------------------------------------------- the exception is exact

  /** A thread does not finish messages while it is inside `claim_buffer`. */
  ghost predicate OwnThread(s: State, a: Action)
    requires Enabled(s, a)
  {
    match a
    case Commit(i) => s.log[i].owner < |s.producers| ==> s.producers[s.log[i].owner].Idle?
    case Abort(i) => s.log[i].owner < |s.producers| ==> s.producers[s.log[i].owner].Idle?
    case _ => true
  }

  /** A spinning producer moves only when it is granted room. */
  lemma WaitingStays(s: State, a: Action, w: nat)
    requires Enabled(s, a) && a != Grant(w) && w < |s.producers| && s.producers[w].Waiting?
    ensures w < |Apply(s, a).producers| && Apply(s, a).producers[w] == s.producers[w]
  {
    hide Slot;
  }

  lemma WatermarkBehind(s: State, i: nat)
    requires LayoutOk(s) && WindowOk(s) && i < |s.log| && !s.stages[i].Final()
    ensures s.readOffset <= s.log[i].start
  {
    if s.retired < i { StartsIncrease(s.log, s.offset, s.n, s.retired, i); }
  }

  lemma OvercommittedWaits(s: State, w: nat, i: nat)
    requires Overcommitted(s, w, i) && Inv(s)
    ensures !Enabled(s, Grant(w))
  {
    hide Layout, Window, Claims, Cursors, Accounting, Headers, Payloads, Slot;
    SameLengths(s);
    WatermarkBehind(s, i);
  }

  lemma OvercommittedStays(s: State, a: Action, w: nat, i: nat)
    requires Enabled(s, a) && OwnThread(s, a) && Overcommitted(s, w, i) && Inv(s)
    ensures Overcommitted(Apply(s, a), w, i) && Apply(s, a).producers[w] == s.producers[w]
  {
    hide Layout, Window, Claims, Cursors, Accounting, Headers, Payloads, Apply;
    OvercommittedWaits(s, w, i);
    WaitingStays(s, a, w);
    OutstandingStays(s, a, i);
    SameRing(s, a);
  }

  lemma SameRing(s: State, a: Action)
    requires Enabled(s, a)
    ensures Apply(s, a).n == s.n
  {
    hide Slot, Slice, Splice;
  }

  ghost predicate OwnThreads(s: State, acts: seq<Action>)
    requires Run(s, acts)
    decreases |acts|
  {
    acts == [] || (OwnThread(s, acts[0]) && OwnThreads(Apply(s, acts[0]), acts[1..]))
  }

  lemma {:induction false} OvercommittedRun(s: State, acts: seq<Action>, w: nat, i: nat)
    requires Run(s, acts) && OwnThreads(s, acts) && Overcommitted(s, w, i) && Inv(s)
    ensures Overcommitted(After(s, acts), w, i) && Inv(After(s, acts))
    ensures After(s, acts).producers[w] == s.producers[w]
    decreases |acts|
  {
    hide Inv, OwnThread, Enabled, Assumed, Apply, Outstanding;
    if acts != [] {
      OvercommittedStays(s, acts[0], w, i);
      StepInv(s, acts[0]);
      OvercommittedRun(Apply(s, acts[0]), acts[1..], w, i);
    }
  }

  /** A producer that has overcommitted itself is lost, however far its message is from
      being the oldest and whatever any agent does from then on: the claim is never
      granted and the message never finished. */
  lemma OvercommittedForever(s: State, acts: seq<Action>, w: nat, i: nat)
    requires Run(s, acts) && OwnThreads(s, acts) && Overcommitted(s, w, i) && Reached(s)
    ensures Overcommitted(After(s, acts), w, i) && !Enabled(After(s, acts), Grant(w))
    ensures After(s, acts).producers[w] == s.producers[w]
  {
    hide Overcommitted, Inv, OwnThread, OwnThreads, Run, After;
    ReachedInv(s);
    OvercommittedRun(s, acts, w, i);
    OvercommittedWaits(After(s, acts), w, i);
  }

  // ---------------------------------------------------------------- and so is the test

  lemma LogGrows(s: State, a: Action, i: nat)
    requires Enabled(s, a) && i < |s.log|
    ensures i < |Apply(s, a).log| && Apply(s, a).log[i] == s.log[i]
  {
    hide Slot, Slice, Splice;
  }

  /** Only a swap makes a producer wait. */
  lemma NewlyWaiting(s: State, a: Action, w: nat)
    requires Enabled(s, a) && w < |Apply(s, a).producers| && Apply(s, a).producers[w].Waiting?
    ensures var p := Apply(s, a).producers[w];
      || (w < |s.producers| && s.producers[w] == p)
      || (a == Cas(w) && p.ticket.at == s.offset
          && p.ticket.bump == BumpLength(s.n, s.offset, s.producers[w].size + HEADER_SIZE))
  {
    hide Slot, Slice, Splice, BumpLength, NeedsSkip;
  }

  lemma WasOvercommitted(s: State, a: Action, w: nat, i: nat)
    requires Enabled(s, a) && InBound(s, a) && Inv(s) && Overcommitted(Apply(s, a), w, i)
    ensures Overcommitted(s, w, i)
  {
    hide Inv, Apply, Enabled, Outstanding, BumpLength;
    SameRing(s, a);
    NewlyOutstanding(s, a, i);
    OutstandingIndex(Apply(s, a), i);
    if Outstanding(s, i) {
      OutstandingIndex(s, i);
      LogGrows(s, a, i);
    }
    NewlyWaiting(s, a, w);
  }

  lemma InBoundKeeps(s: State, a: Action)
    requires Enabled(s, a) && InBound(s, a) && NoneOvercommitted(s) && Inv(s)
    ensures NoneOvercommitted(Apply(s, a))
  {
    hide Inv, Apply, Enabled, Overcommitted, InBound;
    forall w: nat, i: nat ensures !Overcommitted(Apply(s, a), w, i) {
      if Overcommitted(Apply(s, a), w, i) { WasOvercommitted(s, a, w, i); }
    }
  }

  /** A swap outside the bound overcommits its producer at once. So, starting from a state
      in which nobody is overcommitted, the test decides the fate of the claim. */
  lemma SwapOvercommitsIff(s: State, w: nat)
    requires Enabled(s, Cas(w)) && Reached(s)
    ensures (exists i: nat :: Overcommitted(Apply(s, Cas(w)), w, i)) <==> !InBound(s, Cas(w))
  {
    hide Layout, Window, Claims, Cursors, Accounting, Headers, Payloads, Slot, BumpLength, NeedsSkip;
    ReachedInv(s);
    SameLengths(s);
    var s' := Apply(s, Cas(w));
    if !InBound(s, Cas(w)) {
      var i: nat :| Outstanding(s, i) && s.log[i].owner == w
        && s.offset + BumpLength(s.n, s.offset, s.producers[w].size + HEADER_SIZE) > s.log[i].start + s.n;
      assert Overcommitted(s', w, i);
    }
    if exists i: nat :: Overcommitted(s', w, i) {
      var i: nat :| Overcommitted(s', w, i);
      assert s'.stages[|s.log|] == Claimed;
      assert Outstanding(s, i);
    }
  }

  /** A claim won out of bound is never granted in any run. One won in bound leaves nobody
      overcommitted, and then EveryRunDrains says that it is granted on every schedule that
      keeps to the bound. */
  lemma OutOfBoundNeverGranted(s: State, w: nat, acts: seq<Action>)
    requires Enabled(s, Cas(w)) && Assumed(s, Cas(w)) && !InBound(s, Cas(w)) && Reached(s)
    requires Run(Apply(s, Cas(w)), acts) && OwnThreads(Apply(s, Cas(w)), acts)
    ensures var s' := Apply(s, Cas(w));
      && w < |s'.producers| && w < |After(s', acts).producers|
      && After(s', acts).producers[w] == s'.producers[w] && !Enabled(After(s', acts), Grant(w))
  {
    hide Inv, InBound, Overcommitted, OwnThreads, Run, After, Apply, Enabled, Assumed;
    SwapOvercommitsIff(s, w);
    var s' := Apply(s, Cas(w));
    var i: nat :| Overcommitted(s', w, i);
    ReachedInv(s);
    StepInv(s, Cas(w));
    OvercommittedRun(s', acts, w, i);
    OvercommittedWaits(After(s', acts), w, i);
    HoldsProducer(s', w, i);
    HoldsProducer(After(s', acts), w, i);
  }

  lemma HoldsProducer(s: State, w: nat, i: nat)
    requires Overcommitted(s, w, i)
    ensures w < |s.producers|
  {
  }

  /** Producers that finish every message before they claim the next. */
  ghost predicate OneAtATime(s: State) {
    forall i: nat :: Outstanding(s, i) ==> s.log[i].owner < |s.producers| && s.producers[s.log[i].owner].Idle?
  }

  ghost predicate FinishedFirst(s: State, a: Action) {
    a.Begin? ==> forall i: nat :: Outstanding(s, i) ==> s.log[i].owner != a.w
  }

  /** Only writing a header makes a message outstanding, and then its producer is out of
      `claim_buffer`. */
  lemma NewlyOutstanding(s: State, a: Action, i: nat)
    requires Enabled(s, a) && Outstanding(Apply(s, a), i)
    requires Inv(s)
    ensures var s' := Apply(s, a);
      || (Outstanding(s, i) && s'.log[i].owner == s.log[i].owner)
      || (s'.log[i].owner < |s'.producers| && s'.producers[s'.log[i].owner].Idle?)
  {
    hide Layout, Window, Claims, Cursors, Accounting, Headers, Payloads, Slot;
    SameLengths(s);
    match a
    case Grant(w) => TicketFacts(s, w);
    case WriteHeader(w) => TicketFacts(s, w);
    case CommitSkip(w) => TicketFacts(s, w);
    case _ =>
  }

  lemma StillIdle(s: State, a: Action, w: nat)
    requires Enabled(s, a) && w < |s.producers| && s.producers[w].Idle? && (a.Begin? ==> a.w != w)
    ensures w < |Apply(s, a).producers| && Apply(s, a).producers[w].Idle?
  {
    hide Slot;
  }

  lemma OneAtATimeStep(s: State, a: Action)
    requires Enabled(s, a) && FinishedFirst(s, a)
    requires OneAtATime(s) && Inv(s)
    ensures OneAtATime(Apply(s, a))
  {
    hide Inv, Apply, Enabled;
    var s' := Apply(s, a);
    forall i: nat | Outstanding(s', i)
      ensures s'.log[i].owner < |s'.producers| && s'.producers[s'.log[i].owner].Idle?
    {
      NewlyOutstanding(s, a, i);
      if Outstanding(s, i) { StillIdle(s, a, s.log[i].owner); }
    }
  }

  // ---------------------------------------------------------------- the ranking

  function StageCost(stage: Stage): nat {
    match stage
    case Claimed => 6
    case Admitted => 5
    case Open => 4
    case _ => 0
  }

  /** Steps a reader may still need: up to eight a block. */
  function ReaderCost(rd: Reader, blocks: nat): nat {
    8 * (if rd.next <= blocks then blocks - rd.next else 0)
    + match rd.phase
      case Resting => 3
      case Seen(_, _) => 2
      case Holding(_, _) => 1
      case Bumped(_, _) => 0
      case Last(_, _) => 5
      case Wiped(_) => 4
  }

  function ProducerCost(p: Producer, count: nat, offset: nat): nat {
    match p
    case Trying(_) => 2
    case Loaded(_, _, _) => if Stale(p, count, offset) then 3 else 1
    case _ => 0
  }

  /** Messages a producer still has to win. */
  function Need(p: Producer, n: RingSize): nat {
    match p
    case Trying(_) => 1
    case Loaded(_, _, _) => 1
    case Waiting(size, t) => if NeedsSkip(n, t.at, size + HEADER_SIZE) then 1 else 0
    case Granted(size, t) => if NeedsSkip(n, t.at, size + HEADER_SIZE) then 1 else 0
    case Skipping(_, _) => 1
    case Idle => 0
  }

  function ReaderCosts(blocks: nat): Reader -> nat {
    (rd: Reader) => ReaderCost(rd, blocks)
  }

  function ProducerCosts(count: nat, offset: nat): Producer -> nat {
    (p: Producer) => ProducerCost(p, count, offset)
  }

  function Needs(n: RingSize): Producer -> nat {
    (p: Producer) => Need(p, n)
  }

  /** Bound on the compare-and-swaps still to succeed. */
  ghost function Swaps(s: State): nat {
    2 * Sum(s.producers, Needs(s.n)) + if Slot(s.n, s.offset) == 0 then 0 else 1
  }

  /** What one successful compare-and-swap may add to the rest of the rank. */
  function SwapCost(s: State): nat {
    8 * |s.readers| + 2 * |s.producers| + 8
  }

  /** The rank, with `price` for each swap still to succeed. */
  ghost function Rank(s: State, price: nat): nat {
    Swaps(s) * price
    + Sum(s.stages, StageCost)
    + Sum(s.readers, ReaderCosts(|s.log|))
    + Sum(s.producers, ProducerCosts(s.count, s.offset))
  }

  /** Every claim in hand fits beside two headers. */
  ghost predicate Modest(s: State) {
    forall w :: 0 <= w < |s.producers| && !s.producers[w].Idle? ==>
      s.producers[w].size + 2 * HEADER_SIZE <= s.n
  }

  /** A step of one producer that leaves the word alone. */
  lemma RankProducer(s: State, s': State, w: nat, price: nat)
    requires w < |s.producers| == |s'.producers| && s'.producers == s.producers[w := s'.producers[w]]
    requires s'.n == s.n && s'.count == s.count && s'.offset == s.offset
    requires s'.readers == s.readers && |s'.log| == |s.log|
    requires Need(s'.producers[w], s.n) == Need(s.producers[w], s.n)
    ensures Swaps(s') == Swaps(s)
    ensures Rank(s', price) + Sum(s.stages, StageCost) + ProducerCost(s.producers[w], s.count, s.offset)
            == Rank(s, price) + Sum(s'.stages, StageCost) + ProducerCost(s'.producers[w], s.count, s.offset)
  {
    SumUpdate(s.producers, w, s'.producers[w], Needs(s.n));
    SumUpdate(s.producers, w, s'.producers[w], ProducerCosts(s.count, s.offset));
  }

  /** A reader's step. */
  lemma RankReader(s: State, s': State, r: nat, price: nat)
    requires r < |s.readers| == |s'.readers| && s'.readers == s.readers[r := s'.readers[r]]
    requires s'.n == s.n && s'.count == s.count && s'.offset == s.offset
    requires s'.producers == s.producers && s'.log == s.log && s'.stages == s.stages
    ensures Swaps(s') == Swaps(s)
    ensures Rank(s', price) + ReaderCost(s.readers[r], |s.log|)
            == Rank(s, price) + ReaderCost(s'.readers[r], |s.log|)
  {
    SumUpdate(s.readers, r, s'.readers[r], ReaderCosts(|s.log|));
  }

  /** A block taken to its final stage, or nearer to it. */
  lemma StageDrop(stages: seq<Stage>, i: nat, stage: Stage)
    requires i < |stages|
    ensures Sum(stages[i := stage], StageCost) + StageCost(stages[i]) == Sum(stages, StageCost) + StageCost(stage)
  {
    SumUpdate(stages, i, stage, StageCost);
  }

  lemma RankBlock(s: State, s': State, i: nat, price: nat)
    requires i < |s.stages| == |s'.stages| && s'.stages == s.stages[i := s'.stages[i]]
    requires s'.n == s.n && s'.count == s.count && s'.offset == s.offset
    requires s'.producers == s.producers && s'.log == s.log && s'.readers == s.readers
    requires StageCost(s'.stages[i]) < StageCost(s.stages[i])
    ensures Rank(s', price) < Rank(s, price) && Swaps(s') == Swaps(s)
  {
    StageDrop(s.stages, i, s'.stages[i]);
  }

  /** A successful compare-and-swap uses up one of the swaps the rank allows for. */
  lemma CasSwaps(s: State, w: nat)
    requires Enabled(s, Cas(w)) && Assumed(s, Cas(w)) && LayoutOk(s) && Modest(s)
    ensures Swaps(Apply(s, Cas(w))) < Swaps(s)
  {
    hide Layout, Slot;
    var s' := ApplyCas(s, w);
    RoomForHeader(s);
    ClaimShape(s.n, s.offset, s.producers[w].size + HEADER_SIZE);
    SumUpdate(s.producers, w, s'.producers[w], Needs(s.n));
  }

  /** The rest of the rank grows by less than the cost of a swap. */
  lemma CasRest(s: State, w: nat)
    requires Enabled(s, Cas(w)) && Assumed(s, Cas(w))
    ensures var s' := Apply(s, Cas(w));
      && Sum(s'.stages, StageCost) == Sum(s.stages, StageCost) + 6
      && Sum(s'.readers, ReaderCosts(|s'.log|)) <= Sum(s.readers, ReaderCosts(|s.log|)) + 8 * |s.readers|
      && Sum(s'.producers, ProducerCosts(s'.count, s'.offset))
         <= Sum(s.producers, ProducerCosts(s.count, s.offset)) + 2 * |s.producers|
  {
    var s' := ApplyCas(s, w);
    SumAppend(s.stages, Claimed, StageCost);
    SumRaise(s.readers, ReaderCosts(|s.log|), ReaderCosts(|s'.log|), 8);
    SumUpdate(s.producers, w, s'.producers[w], ProducerCosts(s.count, s.offset));
    SumRaise(s'.producers, ProducerCosts(s.count, s.offset), ProducerCosts(s'.count, s'.offset), 2);
  }

  lemma RankCas(s: State, w: nat, price: nat)
    requires Enabled(s, Cas(w)) && Assumed(s, Cas(w)) && LayoutOk(s) && Modest(s)
    requires SwapCost(s) <= price
    ensures Rank(Apply(s, Cas(w)), price) < Rank(s, price)
  {
    hide Layout, Slot, Sum, Swaps, ApplyCas;
    var s' := Apply(s, Cas(w));
    CasSwaps(s, w);
    CasRest(s, w);
    SwapMargin(Swaps(s'), Swaps(s), price);
  }

  lemma SwapMargin(a: nat, b: nat, k: nat)
    requires a < b
    ensures a * k + k <= b * k
  {
    LapOrder(k, a, b);
  }

  /** A useful step of a producer, other than its compare-and-swap. */
  lemma UsefulProducer(s: State, a: Action, w: nat, price: nat)
    requires Useful(s, a) && Inv(s)
    requires a == Load(w) || a == CasFail(w) || a == Grant(w) || a == WriteHeader(w) || a == CommitSkip(w)
    ensures Rank(Apply(s, a), price) < Rank(s, price) && Swaps(Apply(s, a)) == Swaps(s)
  {
    hide Layout, Window, Claims, Cursors, Accounting, Headers, Payloads, Slot, Rank, Swaps, Sum;
    var s' := Apply(s, a);
    if a.Grant? || a.WriteHeader? || a.CommitSkip? {
      TicketFacts(s, w);
      var i := s.producers[w].ticket.idx;
      StageDrop(s.stages, i, if a.Grant? then Admitted else if a.WriteHeader? then Open else Committed);
    }
    RankProducer(s, s', w, price);
  }

  predicate ReaderStep(a: Action) {
    a.PollLoad? || a.PollDecide? || a.Release? || a.Sub? || a.Clear? || a.Advance?
  }

  /** Every useful step lowers the rank, if swaps are dear enough. */
  lemma UsefulLowersRank(s: State, a: Action, price: nat)
    requires Useful(s, a) && Modest(s) && AllNear(s) && SwapCost(s) <= price && Inv(s)
    ensures Rank(Apply(s, a), price) < Rank(s, price)
    ensures Swaps(Apply(s, a)) <= Swaps(s) - (if a.Cas? then 1 else 0)
  {
    hide Layout, Window, Claims, Cursors, Accounting, Headers, Payloads, Slot, Rank, Swaps, Sum;
    if ReaderStep(a) {
      UsefulReader(s, a);
      RankReader(s, Apply(s, a), a.r, price);
    } else if a.Cas? {
      RankCas(s, a.w, price);
      CasSwaps(s, a.w);
    } else if a.Commit? || a.Abort? {
      RankBlock(s, Apply(s, a), a.i, price);
    } else {
      UsefulProducer(s, a, a.w, price);
    }
  }

  /** A useful reader step costs that reader something. */
  lemma UsefulReader(s: State, a: Action)
    requires Useful(s, a) && ReaderStep(a) && Inv(s)
    requires a.PollDecide? ==> s.readers[a.r].phase.near
    ensures ReaderCost(Apply(s, a).readers[a.r], |s.log|) < ReaderCost(s.readers[a.r], |s.log|)
  {
    hide Layout, Window, Claims, Cursors, Accounting, Headers, Payloads, Slot, Waiters;
    NextBound(s, a.r);
    if a.PollDecide? {
      NearHeader(s, a.r);
    } else if a.Sub? {
      SubCount(s, a.r);
    }
  }

  /** A fresh decision finds its own header. */
  lemma NearHeader(s: State, r: nat)
    requires r < |s.readers| && s.readers[r].phase.Seen? && s.readers[r].phase.near
    requires Inv(s)
    ensures PolledHeader(s, r).absOffset == s.readers[r].cursor
  {
    hide Layout, Window, Claims, Cursors, Accounting, Headers, Payloads, Slot, Waiters;
    ReaderFacts(s, r);
    LiveHeader(s, r);
  }

  // ---------------------------------------------------------------- every schedule drains

  /** The other steps that a schedule may contain. New work: a message taken up, which has
      to fit beside two headers, a payload written, a reader joining. And steps that lead
      nowhere: a poll that finds no flag set, a spurious failure of the compare-and-swap,
      a message put back by `mark_as_read`. */
  ghost predicate Extra(s: State, a: Action) {
    && Enabled(s, a) && Assumed(s, a)
    && match a
       case Begin(_, size) => size + 2 * HEADER_SIZE <= s.n
       case Fill(_, _) => true
       case Join => true
       case PollLoad(r) => PolledHeader(s, r).flag == NotReady
       case CasFail(w) => !Stale(s.producers[w], s.count, s.offset)
       case MarkAsRead(_) => true
       case _ => false
  }

  /** What such a step may add to the rank: nothing for a payload or an idle poll. */
  ghost function Raise(s: State, a: Action, price: nat): nat {
    match a
    case Begin(_, _) => 2 * price + 2
    case Join => 2 * |s.producers| + 3
    case CasFail(_) => 1
    case MarkAsRead(_) => 2
    case _ => 0
  }

  /** A state from which work can be finished: claims of admissible size, no producer that
      has overcommitted itself, fresh polls, a reader counted, and offsets to spare for the
      work in hand and `starts` messages more. */
  ghost predicate Prepared(s: State, starts: nat) {
    && AllNear(s) && Modest(s) && NoneOvercommitted(s)
    && s.count >= 1 && s.offset + (Swaps(s) + 2 * starts + 1) * s.n < OFFSET_LIMIT
  }

  ghost predicate Working(s: State, starts: nat) {
    Inv(s) && Prepared(s, starts)
  }

  lemma WorkingFacts(s: State, starts: nat)
    requires Working(s, starts)
    ensures Inv(s) && AllNear(s) && Modest(s) && NoneOvercommitted(s)
    ensures s.count >= 1 && s.offset + s.n < OFFSET_LIMIT
  {
    hide Inv, Swaps, Modest, AllNear, NoneOvercommitted;
    assert (Swaps(s) + 2 * starts + 1) * s.n == (Swaps(s) + 2 * starts) * s.n + s.n;
  }

  /** Work that can be finished does not lead outside the assumptions. */
  lemma NotOutside(s: State, a: Action)
    requires Working(s, 0)
    ensures !Outside(s, a)
  {
    WorkingFacts(s, 0);
    hide Layout, Window, Claims, Cursors, Accounting, Headers, Payloads, Slot, Waiters, Swaps,
         NoneOvercommitted, Modest;
    if Enabled(s, a) {
      if a.PollDecide? {
        FreshLoadIsEnough(s, a.r);
      } else if a.Cas? {
        RoomForHeader(s);
        ClaimShape(s.n, s.offset, s.producers[a.w].size + HEADER_SIZE);
      }
    }
  }

  /** What a useful step leaves alone. */
  lemma UsefulLocals(s: State, a: Action)
    requires Useful(s, a) && AllNear(s) && Modest(s)
    ensures AllNear(Apply(s, a)) && Modest(Apply(s, a)) && SwapCost(Apply(s, a)) == SwapCost(s)
    ensures var s' := Apply(s, a);
      && s'.n == s.n && s'.count == s.count
      && (!a.Cas? ==> s'.offset == s.offset) && (a.Cas? ==> s'.offset <= s.offset + s.n)
  {
    hide Slot;
  }

  lemma UsefulKeepsWorking(s: State, a: Action, starts: nat, price: nat)
    requires Useful(s, a) && InBound(s, a) && Working(s, starts) && SwapCost(s) <= price
    ensures Working(Apply(s, a), starts) && Rank(Apply(s, a), price) < Rank(s, price)
    ensures SwapCost(Apply(s, a)) == SwapCost(s)
  {
    hide Inv, Rank, Swaps, SwapCost, Modest, AllNear, NoneOvercommitted, InBound, Apply;
    var s' := Apply(s, a);
    StepInv(s, a);
    UsefulLocals(s, a);
    InBoundKeeps(s, a);
    UsefulLowersRank(s, a, price);
    if Swaps(s') < Swaps(s) {
      SwapMargin(Swaps(s') + 2 * starts + 1, Swaps(s) + 2 * starts + 1, s.n);
    }
  }

  /** A new message adds a fixed amount to the rank. */
  lemma BeginRank(s: State, a: Action, price: nat)
    requires Enabled(s, a) && a.Begin?
    ensures Swaps(Apply(s, a)) == Swaps(s) + 2 && Rank(Apply(s, a), price) == Rank(s, price) + 2 * price + 2
  {
    hide Slot, Sum;
    var p := Trying(a.size);
    SumUpdate(s.producers, a.w, p, Needs(s.n));
    SumUpdate(s.producers, a.w, p, ProducerCosts(s.count, s.offset));
    assert (Swaps(s) + 2) * price == Swaps(s) * price + 2 * price;
  }

  /** A join makes every loaded word stale and adds a reader with nothing to do. */
  lemma JoinRank(s: State, price: nat)
    ensures var s' := Apply(s, Join);
      Swaps(s') == Swaps(s) && Rank(s', price) <= Rank(s, price) + 2 * |s.producers| + 3
  {
    hide Slot, Sum;
    var s' := Apply(s, Join);
    SumAppend(s.readers, s'.readers[|s.readers|], ReaderCosts(|s.log|));
    SumRaise(s.producers, ProducerCosts(s.count, s.offset), ProducerCosts(s'.count, s'.offset), 2);
  }

  lemma ExtraRank(s: State, a: Action, price: nat)
    requires Extra(s, a)
    ensures Rank(Apply(s, a), price) <= Rank(s, price) + Raise(s, a, price)
    ensures Swaps(Apply(s, a)) == Swaps(s) + if a.Begin? then 2 else 0
  {
    hide Slot, Sum, Rank, Swaps;
    match a
    case Begin(_, _) => BeginRank(s, a, price);
    case Join => JoinRank(s, price);
    case CasFail(w) => RankProducer(s, Apply(s, a), w, price);
    case MarkAsRead(r) => RankReader(s, Apply(s, a), r, price);
    case Fill(_, _) => SameRank(s, Apply(s, a), price);
    case PollLoad(_) =>
  }

  lemma SameRank(s: State, s': State, price: nat)
    requires s'.n == s.n && s'.count == s.count && s'.offset == s.offset && s'.log == s.log
    requires s'.stages == s.stages && s'.readers == s.readers && s'.producers == s.producers
    ensures Rank(s', price) == Rank(s, price) && Swaps(s') == Swaps(s)
  {
  }

  /** What the other steps leave alone. */
  lemma ExtraLocals(s: State, a: Action)
    requires Extra(s, a) && AllNear(s) && Modest(s) && s.count >= 1
    ensures AllNear(Apply(s, a)) && Modest(Apply(s, a))
    ensures SwapCost(Apply(s, a)) == SwapCost(s) + if a.Join? then 8 else 0
    ensures var s' := Apply(s, a);
      s'.n == s.n && s'.count >= 1 && s'.offset == s.offset
  {
    hide Slot;
  }

  lemma ExtraKeepsWorking(s: State, a: Action, starts: nat)
    requires Extra(s, a) && Working(s, if a.Begin? then starts + 1 else starts)
    ensures Working(Apply(s, a), starts)
  {
    hide Inv, Rank, Swaps, SwapCost, AllNear, Modest, NoneOvercommitted, Apply;
    var s' := Apply(s, a);
    StepInv(s, a);
    ExtraLocals(s, a);
    InBoundKeeps(s, a);
    ExtraRank(s, a, 0);
    if a.Begin? { assert Swaps(s') + 2 * starts + 1 == Swaps(s) + 2 * (starts + 1) + 1; }
  }

  /** A schedule: useful steps, with every swap in bound, and the other steps in between. */
  ghost predicate WorkRun(s: State, acts: seq<Action>)
    decreases |acts|
  {
    acts == [] || (((Useful(s, acts[0]) && InBound(s, acts[0])) || Extra(s, acts[0]))
                   && WorkRun(Apply(s, acts[0]), acts[1..]))
  }

  function Begun(acts: seq<Action>): nat {
    if acts == [] then 0 else (if acts[0].Begin? then 1 else 0) + Begun(acts[1..])
  }

  function Joined(acts: seq<Action>): nat {
    if acts == [] then 0 else (if acts[0].Join? then 1 else 0) + Joined(acts[1..])
  }

  /** The useful steps of a schedule, and what the others may add to the rank. */
  ghost function UsefulSteps(s: State, acts: seq<Action>): nat
    requires WorkRun(s, acts)
    decreases |acts|
  {
    if acts == [] then 0
    else (if Extra(s, acts[0]) then 0 else 1) + UsefulSteps(Apply(s, acts[0]), acts[1..])
  }

  ghost function Raises(s: State, acts: seq<Action>, price: nat): nat
    requires WorkRun(s, acts)
    decreases |acts|
  {
    if acts == [] then 0
    else (if Extra(s, acts[0]) then Raise(s, acts[0], price) else 0) + Raises(Apply(s, acts[0]), acts[1..], price)
  }

  /** A price that swaps are worth throughout the schedule. */
  function Price(s: State, acts: seq<Action>): nat {
    SwapCost(s) + 8 * Joined(acts)
  }

  /** In any schedule the useful steps are bounded by the rank and by what the other steps
      add to it, and it can go on until nothing is left to do. */
  lemma {:induction false} EveryScheduleDrains(s: State, acts: seq<Action>, price: nat)
    requires WorkRun(s, acts) && Working(s, Begun(acts)) && Price(s, acts) <= price
    ensures Run(s, acts)
    ensures UsefulSteps(s, acts) + Rank(After(s, acts), price) <= Rank(s, price) + Raises(s, acts, price)
    ensures Working(After(s, acts), 0)
    ensures Quiescent(After(s, acts)) || exists a :: Useful(After(s, acts), a)
    decreases |acts|
  {
    hide Working, Rank, SwapCost, Apply, Useful, Extra, Raise, Enabled, Assumed, Quiescent, Inv, NoneOvercommitted,
         InBound, Outside;
    if acts == [] {
      WorkingFacts(s, 0);
      if !Quiescent(s) {
        var a := UsefulStepExists(s);
        NotOutside(s, a);
      }
    } else {
      WorkStep(s, acts[0], Begun(acts[1..]), Joined(acts[1..]), price);
      EveryScheduleDrains(Apply(s, acts[0]), acts[1..], price);
    }
  }

  lemma WorkStep(s: State, a: Action, starts: nat, joins: nat, price: nat)
    requires (Useful(s, a) && InBound(s, a)) || Extra(s, a)
    requires Working(s, if a.Begin? then starts + 1 else starts)
    requires SwapCost(s) + 8 * (if a.Join? then joins + 1 else joins) <= price
    ensures Enabled(s, a) && Assumed(s, a) && Working(Apply(s, a), starts)
    ensures SwapCost(Apply(s, a)) + 8 * joins <= price
    ensures (if Extra(s, a) then 0 else 1) + Rank(Apply(s, a), price)
            <= Rank(s, price) + if Extra(s, a) then Raise(s, a, price) else 0
  {
    hide Working, Rank, SwapCost, Apply, InBound, Raise;
    if Extra(s, a) {
      WorkingFacts(s, if a.Begin? then starts + 1 else starts);
      ExtraKeepsWorking(s, a, starts);
      ExtraLocals(s, a);
      ExtraRank(s, a, price);
    } else {
      UsefulKeepsWorking(s, a, starts, price);
    }
  }

  /** Producers that finish first stay in bound without a test. */
  lemma OneAtATimeInBound(s: State, a: Action)
    requires Enabled(s, a) && OneAtATime(s)
    ensures InBound(s, a) && NoneOvercommitted(s)
  {
  }

  /** Reader r has been shown every message claimed since it joined, and is at rest where
      watermark and write offset are. */
  ghost predicate Delivered(s: State, r: nat)
    requires r < |s.readers|
  {
    var rd := s.readers[r];
    && rd.phase.Resting? && rd.cursor == s.readOffset == s.offset
    && |s.stages| == |s.log| == |s.contents|
    && rd.join <= |s.log| && rd.inbox == Bodies(Entries(s.log, s.stages, s.contents), rd.join, |s.log|)
  }

  /** When nothing is left, every reader has been shown every message claimed since it
      joined, and cursors, watermark and write offset agree. */
  lemma QuiescentIsDelivered(s: State, r: nat)
    requires r < |s.readers| && Inv(s) && AllNear(s) && Quiescent(s)
    ensures Delivered(s, r)
  {
    hide Layout, Window, Claims, Cursors, Headers, Payloads, Slot, Waiters;
    ReaderFacts(s, r);
    WatermarkStart(s);
  }

  // ---------------------------------------------------------------- in every reachable state

  /** In every reachable state with work left, a useful step is enabled, or a swap or a
      decision is about to leave its assumption, or a producer has overcommitted itself. */
  lemma NeverStuck(s: State)
    requires Reached(s) && !Quiescent(s)
    ensures (exists a :: Useful(s, a) || Outside(s, a)) || exists w: nat, i: nat :: Overcommitted(s, w, i)
  {
    hide Inv, Useful, Outside, Overcommitted, Quiescent;
    ReachedInv(s);
    if NoneOvercommitted(s) {
      var a := UsefulStepExists(s);
    }
  }

  /** From every reachable state that is prepared, any schedule in which the swaps stay in
      bound, batches, joins and idle steps included, has a bounded number of useful steps.
      It can go on until every reader has been shown every message claimed since it
      joined, or until the only way on is a swap that overcommits its producer. */
  lemma EveryRunDrains(s: State, acts: seq<Action>, price: nat)
    requires WorkRun(s, acts) && Reached(s) && Prepared(s, Begun(acts)) && Price(s, acts) <= price
    ensures Run(s, acts)
    ensures UsefulSteps(s, acts) + Rank(After(s, acts), price) <= Rank(s, price) + Raises(s, acts, price)
    ensures var s' := After(s, acts);
      || (exists a :: Useful(s', a) && InBound(s', a))
      || (exists w: nat :: Useful(s', Cas(w)) && !InBound(s', Cas(w)))
      || (Quiescent(s') && forall r :: 0 <= r < |s'.readers| ==> Delivered(s', r))
  {
    hide Inv, Rank, Price, Prepared, Quiescent, Useful, Delivered, Run, After, WorkRun;
    ReachedInv(s);
    EveryScheduleDrains(s, acts, price);
    var s' := After(s, acts);
    if Quiescent(s') {
      WorkingFacts(s', 0);
      forall r | 0 <= r < |s'.readers| ensures Delivered(s', r) {
        QuiescentIsDelivered(s', r);
      }
    } else {
      var a :| Useful(s', a);
      UsefulIsEnabled(s', a);
      if !InBound(s', a) { assert a == Cas(a.w); }
    }
  }

  /** A fresh file is prepared for any workload, up to the width of offsets, as soon as the
      first reader has joined. */
  lemma FirstReaderPrepares(s: State, starts: nat)
    requires Init(s) && (2 * starts + 1) * s.n < OFFSET_LIMIT
    ensures var s' := Apply(s, Join);
      Reached(s') && Prepared(s', starts) && OneAtATime(s')
  {
    hide Inv, Run, After, Sum;
    var s' := Apply(s, Join);
    RunOne(s, Join);
    assert RunsTo(s, [Join], s');
    SumZero(s'.producers, Needs(s'.n));
  }

  lemma UsefulIsEnabled(s: State, a: Action)
    requires Useful(s, a)
    ensures Enabled(s, a)
  {
  }

  /** A schedule of producers that finish each message before they take up the next. */
  ghost predicate FinishersRun(s: State, acts: seq<Action>)
    decreases |acts|
  {
    acts == [] || ((Useful(s, acts[0]) || Extra(s, acts[0])) && FinishedFirst(s, acts[0])
                   && FinishersRun(Apply(s, acts[0]), acts[1..]))
  }

  lemma {:induction false} FinishersKeepBound(s: State, acts: seq<Action>)
    requires FinishersRun(s, acts) && OneAtATime(s) && Inv(s)
    ensures WorkRun(s, acts) && Run(s, acts) && OneAtATime(After(s, acts))
    decreases |acts|
  {
    hide Inv, Apply, Enabled, Assumed, InBound, OneAtATime, FinishedFirst, NoneOvercommitted;
    if acts != [] {
      OneAtATimeInBound(s, acts[0]);
      OneAtATimeStep(s, acts[0]);
      StepInv(s, acts[0]);
      FinishersKeepBound(Apply(s, acts[0]), acts[1..]);
    }
  }

  /** Producers that finish first drain without any test on their swaps: such a schedule
      can always go on until everything is delivered. */
  lemma FinishersDrain(s: State, acts: seq<Action>, price: nat)
    requires FinishersRun(s, acts) && OneAtATime(s) && Reached(s)
    requires Prepared(s, Begun(acts)) && Price(s, acts) <= price
    ensures WorkRun(s, acts) && Run(s, acts)
    ensures UsefulSteps(s, acts) + Rank(After(s, acts), price) <= Rank(s, price) + Raises(s, acts, price)
    ensures var s' := After(s, acts);
      || (exists a :: Useful(s', a) && InBound(s', a))
      || (Quiescent(s') && forall r :: 0 <= r < |s'.readers| ==> Delivered(s', r))
  {
    hide Inv, Rank, Price, Prepared, Quiescent, Enabled, Assumed, Delivered, Run, After, WorkRun, OneAtATime, InBound;
    ReachedInv(s);
    FinishersKeepBound(s, acts);
    EveryRunDrains(s, acts, price);
    var s' := After(s, acts);
    if w: nat :| Useful(s', Cas(w)) && !InBound(s', Cas(w)) {
      UsefulIsEnabled(s', Cas(w));
      OneAtATimeInBound(s', Cas(w));
    }
  }
}
