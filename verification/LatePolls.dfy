/**
 What may happen between the two loads of one poll: the flag first, the header later. If
 the flag was loaded less than a lap ahead of the watermark, nothing that other agents do
 in between can make the decision wrong. Otherwise some continuation does.
 */
module LatePolls {
  import opened RingModel
  import opened RingGeometry
  import opened RingInvariant
  import opened BlockSteps
  import opened ReaderSteps
  import opened RingSafety
  import opened RingTheorems
  import opened RingProgress
  import opened Runs

  /** A step of anybody but reader r. */
  predicate Leaves(a: Action, r: nat) {
    ReaderStep(a) || a.MarkAsRead? ==> a.r != r
  }

  predicate AllLeave(acts: seq<Action>, r: nat) {
    forall i :: 0 <= i < |acts| ==> Leaves(acts[i], r)
  }

  /** Whatever the others do before reader r decides, the decision is sound. */
  ghost predicate SafeWhenLate(s: State, r: nat) {
    forall acts :: Run(s, acts) && AllLeave(acts, r) ==>
      Enabled(After(s, acts), PollDecide(r)) && Assumed(After(s, acts), PollDecide(r))
  }

  // ---------------------------------------------------------------- a fresh load is enough

  lemma ReaderStays(s: State, a: Action, r: nat)
    requires Enabled(s, a) && Leaves(a, r) && r < |s.readers|
    ensures r < |Apply(s, a).readers| && Apply(s, a).readers[r] == s.readers[r]
  {
    hide Slot, Slice, Splice;
  }

  lemma {:induction false} ReaderStaysRun(s: State, acts: seq<Action>, r: nat)
    requires Run(s, acts) && AllLeave(acts, r) && r < |s.readers|
    ensures r < |After(s, acts).readers| && After(s, acts).readers[r] == s.readers[r]
    decreases |acts|
  {
    hide Enabled, Assumed, Apply, Leaves;
    if acts != [] {
      ReaderStays(s, acts[0], r);
      assert AllLeave(acts[1..], r);
      ReaderStaysRun(Apply(s, acts[0]), acts[1..], r);
    }
  }

  lemma NearIsSafe(s: State, r: nat)
    requires Enabled(s, PollDecide(r)) && s.readers[r].phase.near && Inv(s)
    ensures SafeWhenLate(s, r)
  {
    hide Inv, Run, After, AllLeave, Assumed;
    forall acts | Run(s, acts) && AllLeave(acts, r)
      ensures Enabled(After(s, acts), PollDecide(r)) && Assumed(After(s, acts), PollDecide(r))
    {
      ReaderStaysRun(s, acts, r);
      RunInv(s, acts);
      FreshLoadIsEnough(After(s, acts), r);
    }
  }

  // ---------------------------------------------------------------- a stale one is not

  /** Reader r has loaded READY too far ahead, block m is due to it next and has not been
      granted; the other polls in flight are fresh. */
  ghost predicate Blind(s: State, r: nat, m: nat) {
    && Inv(s)
    && r < |s.readers| && s.readers[r].phase == Seen(Ready, false) && s.readers[r].next == m
    && s.retired <= m <= |s.log| == |s.stages| && (m < |s.log| ==> s.stages[m] == Claimed)
    && forall k :: 0 <= k < |s.readers| && k != r && s.readers[k].phase.Seen? ==> s.readers[k].phase.near
  }

  /** A step of the others towards the retirement of the blocks before the cursor. */
  ghost predicate DrainStep(s: State, r: nat, a: Action) {
    && Enabled(s, a) && Assumed(s, a) && Leaves(a, r)
    && match a
       case Grant(w) => s.producers[w].ticket.idx == s.retired
       case WriteHeader(_) => true
       case CommitSkip(_) => true
       case Commit(_) => true
       case PollLoad(k) => PolledHeader(s, k).flag != NotReady && FreshLoad(s, k)
       case PollDecide(_) => true
       case Release(_) => true
       case Sub(_) => true
       case Clear(_) => true
       case Advance(_) => true
       case _ => false
  }

  /** There is such a step as long as a block before the cursor is not retired. */
  lemma DrainChoice(s: State, r: nat, m: nat) returns (a: Action)
    requires Blind(s, r, m) && s.retired < m
    ensures DrainStep(s, r, a)
  {
    hide Layout, Window, Claims, Cursors, Accounting, Headers, Payloads, Slot;
    if s.closer.Some? {
      a := CloserStep(s, r);
    } else if s.stages[s.retired].Final() {
      a := OwerStep(s, r, m);
    } else {
      a := OwnerStep(s, r);
    }
  }

  lemma CloserStep(s: State, r: nat) returns (a: Action)
    requires AccountingOk(s) && s.closer.Some? && r < |s.readers| && s.readers[r].phase.Seen?
    ensures DrainStep(s, r, a)
  {
    var c := s.closer.value;
    a := if s.readers[c].phase.Last? then Clear(c) else Advance(c);
  }

  lemma OwerStep(s: State, r: nat, m: nat) returns (a: Action)
    requires Blind(s, r, m) && s.retired < m && s.stages[s.retired].Final() && s.closer == None
    ensures DrainStep(s, r, a)
  {
    hide Layout, Window, Claims, Cursors, Accounting, Headers, Payloads, Slot;
    var k := OldestOwer(s);
    match s.readers[k].phase
    case Resting =>
      OldestFlag(s, k);
      a := PollLoad(k);
    case Seen(_, _) =>
      FreshLoadIsEnough(s, k);
      a := PollDecide(k);
    case Holding(_, _) => a := Release(k);
    case Bumped(_, _) => a := Sub(k);
  }

  /** A reader at rest before a final oldest block finds its flag, and in time. */
  lemma OldestFlag(s: State, k: nat)
    requires k < |s.readers| && s.readers[k].phase.Resting? && s.readers[k].next == s.retired < |s.log| == |s.stages|
    requires s.stages[s.retired].Final() && Inv(s)
    ensures PolledHeader(s, k).flag != NotReady && FreshLoad(s, k)
  {
    hide Layout, Window, Claims, Cursors, Accounting, Headers, Payloads, Slot, Waiters;
    ReaderFacts(s, k);
    LiveHeader(s, k);
    WatermarkStart(s);
  }

  /** The producer of the oldest block goes on; a wrapper may be finished by any thread. */
  lemma OwnerStep(s: State, r: nat) returns (a: Action)
    requires Inv(s) && s.retired < |s.log| == |s.stages| && !s.stages[s.retired].Final()
    ensures DrainStep(s, r, a)
  {
    hide Layout, Window, Claims, Cursors, Accounting, Headers, Payloads, Slot;
    OwnerFacts(s, s.retired);
    SameLengths(s);
    var w := s.log[s.retired].owner;
    match s.stages[s.retired]
    case Claimed =>
      OldestFits(s, w);
      a := Grant(w);
    case Admitted => a := WriteHeader(w);
    case Open => a := if s.log[s.retired].kind == Padding then CommitSkip(w) else Commit(s.retired);
  }

  lemma DrainKeepsBlind(s: State, r: nat, m: nat, a: Action)
    requires Blind(s, r, m) && s.retired < m && DrainStep(s, r, a)
    ensures Blind(Apply(s, a), r, m)
    ensures Apply(s, a).log == s.log && Apply(s, a).offset == s.offset && Apply(s, a).n == s.n
  {
    hide Layout, Window, Claims, Cursors, Accounting, Headers, Payloads, Apply, Enabled, Assumed;
    StepInv(s, a);
    ReaderStays(s, a, r);
    ReaderFacts(Apply(s, a), r);
    DrainLeaves(s, r, m, a);
    DrainNear(s, r, a);
  }

  /** A drain step claims nothing and does not touch block m. */
  lemma DrainLeaves(s: State, r: nat, m: nat, a: Action)
    requires Blind(s, r, m) && s.retired < m && DrainStep(s, r, a)
    ensures var s' := Apply(s, a);
      && s'.log == s.log && s'.offset == s.offset && s'.n == s.n && |s'.stages| == |s.stages|
      && (m < |s.log| ==> s'.stages[m] == Claimed)
  {
    hide Layout, Window, Claims, Cursors, Accounting, Headers, Payloads, Slot, Slice, Splice;
    if a.Grant? || a.WriteHeader? || a.CommitSkip? { TicketFacts(s, a.w); }
  }

  lemma DrainNear(s: State, r: nat, a: Action)
    requires DrainStep(s, r, a)
    requires forall k :: 0 <= k < |s.readers| && k != r && s.readers[k].phase.Seen? ==> s.readers[k].phase.near
    ensures var rds := Apply(s, a).readers;
      forall k :: 0 <= k < |rds| && k != r && rds[k].phase.Seen? ==> rds[k].phase.near
  {
    hide Slot, Slice, Splice;
  }

  lemma DrainLowersRank(s: State, r: nat, m: nat, a: Action)
    requires Blind(s, r, m) && DrainStep(s, r, a)
    ensures Rank(Apply(s, a), 0) < Rank(s, 0)
  {
    hide Layout, Window, Claims, Cursors, Accounting, Headers, Payloads, Slot, Rank;
    if ReaderStep(a) {
      UsefulReader(s, a);
      RankReader(s, Apply(s, a), a.r, 0);
    } else if a.Commit? {
      RankBlock(s, Apply(s, a), a.i, 0);
    } else {
      UsefulProducer(s, a, a.w, 0);
    }
  }

  /** The others retire every block before the cursor. */
  lemma {:induction false} Drain(s: State, r: nat, m: nat) returns (acts: seq<Action>, s': State)
    requires Blind(s, r, m)
    ensures RunsFrom(s, acts, s') && AllLeave(acts, r) && Blind(s', r, m)
    ensures s'.retired == m && s'.log == s.log && s'.offset == s.offset && s'.n == s.n
    decreases Rank(s, 0)
  {
    hide Inv, Rank, Apply, Enabled, Assumed, Run, After;
    if s.retired == m {
      acts, s' := [], s;
      NoRun(s);
    } else {
      var a := DrainChoice(s, r, m);
      DrainKeepsBlind(s, r, m, a);
      DrainLowersRank(s, r, m, a);
      acts, s' := Drain(Apply(s, a), r, m);
      RunOne(s, a);
      RunAppend(s, [a], Apply(s, a), acts, s');
      acts := [a] + acts;
    }
  }

  // ---------------------------------------------------------------- the place is claimed again

  /** With every block retired, no producer has a block in hand. */
  lemma NothingInHand(s: State, w: nat)
    requires Inv(s) && s.retired == |s.log| && w < |s.producers|
    ensures s.producers[w].Idle? || s.producers[w].Trying? || s.producers[w].Loaded?
  {
    hide Layout, Claims, Cursors, Accounting, Headers, Payloads, Slot;
    if s.producers[w].Waiting? || s.producers[w].Granted? || s.producers[w].Skipping? { TicketFacts(s, w); }
  }

  /** Steps of one producer before its swap. */
  lemma ProducerKeepsBlind(s: State, r: nat, m: nat, a: Action)
    requires Blind(s, r, m) && Enabled(s, a) && (a.Begin? || a.Load? || a.CasFail?)
    ensures Blind(Apply(s, a), r, m) && Leaves(a, r) && Assumed(s, a)
    ensures Apply(s, a) == s.(producers := Apply(s, a).producers)
    ensures |Apply(s, a).producers| == |s.producers|
  {
    hide Inv;
    StepInv(s, a);
  }

  function StepsToSwap(s: State, w: nat): nat
    requires w < |s.producers|
  {
    match s.producers[w]
    case Idle => 3
    case Trying(_) => 1
    case Loaded(_, _, _) => if Stale(s.producers[w], s.count, s.offset) then 2 else 0
    case _ => 0
  }

  /** Producer w comes to its swap with a word that is current. */
  lemma {:induction false} ComesToSwap(s: State, r: nat, m: nat, w: nat, size: nat)
    returns (acts: seq<Action>, s': State)
    requires Blind(s, r, m) && s.retired == |s.log| && w < |s.producers|
    requires 1 <= size && size + HEADER_SIZE <= s.n
    ensures RunsFrom(s, acts, s') && AllLeave(acts, r) && Blind(s', r, m)
    ensures s' == s.(producers := s'.producers) && w < |s'.producers| && Enabled(s', Cas(w))
    decreases StepsToSwap(s, w)
  {
    hide Inv, Run, After;
    NothingInHand(s, w);
    if Enabled(s, Cas(w)) {
      acts, s' := [], s;
      NoRun(s);
    } else {
      var a := if s.producers[w].Idle? then Begin(w, size) else if s.producers[w].Trying? then Load(w) else CasFail(w);
      ProducerKeepsBlind(s, r, m, a);
      acts, s' := ComesToSwap(Apply(s, a), r, m, w, size);
      RunOne(s, a);
      RunAppend(s, [a], Apply(s, a), acts, s');
      acts := [a] + acts;
    }
  }

  lemma SwapKeepsBlind(s: State, r: nat, w: nat)
    requires Blind(s, r, |s.log|) && s.retired == |s.log| && s.offset + s.n < OFFSET_LIMIT && Enabled(s, Cas(w))
    ensures Assumed(s, Cas(w)) && Blind(Apply(s, Cas(w)), r, |s.log|)
    ensures Apply(s, Cas(w)).retired == |s.log| < |Apply(s, Cas(w)).log|
  {
    hide Layout, Window, Claims, Cursors, Headers, Payloads, Slot;
    RoomForHeader(s);
    ClaimShape(s.n, s.offset, s.producers[w].size + HEADER_SIZE);
    StepInv(s, Cas(w));
  }

  /** If nothing is claimed at the cursor yet, somebody claims it. */
  lemma ClaimsCursor(s: State, r: nat) returns (acts: seq<Action>, s': State)
    requires Blind(s, r, |s.log|) && s.retired == |s.log| > 0 && s.offset + s.n < OFFSET_LIMIT
    ensures RunsFrom(s, acts, s') && AllLeave(acts, r) && Blind(s', r, |s.log|)
    ensures s'.retired == |s.log| < |s'.log|
  {
    hide Inv, Run, After, Apply, Enabled, Assumed, Blind;
    FirstBlock(s, r, |s.log|);
    var w := s.log[0].owner;
    var s1: State;
    acts, s1 := ComesToSwap(s, r, |s.log|, w, s.log[0].want);
    SwapKeepsBlind(s1, r, w);
    s' := Apply(s1, Cas(w));
    ExtendRun(s, acts, s1, Cas(w));
    acts := acts + [Cas(w)];
  }

  lemma FirstBlock(s: State, r: nat, m: nat)
    requires Blind(s, r, m) && |s.log| > 0
    ensures s.log[0].owner < |s.producers| && 1 <= s.log[0].want && s.log[0].want + HEADER_SIZE <= s.n
  {
    hide Layout, Window, Claims, Cursors, Accounting, Headers, Payloads, Slot;
    OwnerFacts(s, 0);
    ShapeOf(s, 0);
  }

  lemma ShapeOf(s: State, i: nat)
    requires LayoutOk(s) && i < |s.log|
    ensures BlockShape(s.n, s.log[i])
  {
  }

  /** Once everything before it is retired, block m is granted and its header written. */
  lemma HeaderAtCursor(s: State, r: nat, m: nat) returns (acts: seq<Action>, s': State)
    requires Blind(s, r, m) && s.retired == m < |s.log|
    ensures RunsFrom(s, acts, s') && AllLeave(acts, r) && Inv(s')
    ensures r < |s'.readers| && s'.readers[r] == s.readers[r]
    ensures m < |s'.log| == |s'.stages| && s'.stages[m] == Open
  {
    hide Layout, Window, Claims, Cursors, Accounting, Headers, Payloads, Slot, Run, After;
    OwnerFacts(s, m);
    var w := s.log[m].owner;
    OldestFits(s, w);
    StepInv(s, Grant(w));
    var s1 := Apply(s, Grant(w));
    TicketFacts(s1, w);
    StepInv(s1, WriteHeader(w));
    s' := Apply(s1, WriteHeader(w));
    acts := [Grant(w)] + [WriteHeader(w)];
    RunOne(s, Grant(w));
    ExtendRun(s, [Grant(w)], s1, WriteHeader(w));
  }

  /** The header is reader r's own, and not committed. */
  lemma DecidesWrongly(s: State, r: nat, m: nat)
    requires Enabled(s, PollDecide(r)) && s.readers[r].phase.flag == Ready && s.readers[r].next == m
    requires m < |s.log| == |s.stages| && s.stages[m] == Open
    requires Inv(s)
    ensures !Assumed(s, PollDecide(r))
  {
    hide Layout, Claims, Cursors, Accounting, Payloads, Slot;
    ReaderFacts(s, r);
    assert Written(s.stages[m]);
  }

  /** A READY flag loaded a lap ahead lets the others bring about a wrong decision. */
  lemma OthersMislead(s: State, r: nat, m: nat) returns (acts: seq<Action>)
    requires Blind(s, r, m) && s.retired < m && s.offset + s.n < OFFSET_LIMIT
    ensures Run(s, acts) && AllLeave(acts, r)
    ensures Enabled(After(s, acts), PollDecide(r)) && !Assumed(After(s, acts), PollDecide(r))
  {
    hide Inv, Run, After, Apply, Assumed;
    var s1: State, s2: State, s3: State, b: seq<Action>, c: seq<Action>;
    acts, s1 := Drain(s, r, m);
    s2 := s1;
    if m == |s1.log| {
      b, s2 := ClaimsCursor(s1, r);
      RunAppend(s, acts, s1, b, s2);
      acts := acts + b;
    }
    c, s3 := HeaderAtCursor(s2, r, m);
    RunAppend(s, acts, s2, c, s3);
    acts := acts + c;
    DecidesWrongly(s3, r, m);
  }

  /** A stale load of READY makes its reader blind. */
  lemma StaleLoadIsBlind(s: State, r: nat)
    requires Inv(s) && AllNear(s) && Enabled(s, PollLoad(r))
    requires PolledHeader(s, r).flag == Ready && !FreshLoad(s, r)
    ensures var s' := Apply(s, PollLoad(r)); Blind(s', r, s.readers[r].next) && s'.retired < s.readers[r].next
  {
    hide Layout, Claims, Cursors, Accounting, Headers, Payloads, Slot;
    StepInv(s, PollLoad(r));
    ReaderFacts(s, r);
    WatermarkStart(s);
    var m := s.readers[r].next;
    if m < |s.log| { ShapeOf(s, m); }
  }

  /** The exact condition on the load. In a reachable state whose polls in flight are
      fresh, with offsets left for one more claim, the load of a set flag is safe against
      everything that others may do before the decision exactly when the cursor is less
      than a lap ahead of the watermark. */
  lemma FreshLoadIsExact(s: State, r: nat)
    requires Enabled(s, PollLoad(r)) && PolledHeader(s, r).flag != NotReady
    requires AllNear(s) && s.offset + s.n < OFFSET_LIMIT && Reached(s)
    ensures SafeWhenLate(Apply(s, PollLoad(r)), r) <==> FreshLoad(s, r)
  {
    hide Inv, Run, After;
    ReachedInv(s);
    var s' := Apply(s, PollLoad(r));
    StepInv(s, PollLoad(r));
    if FreshLoad(s, r) {
      NearIsSafe(s', r);
    } else if PolledHeader(s, r).flag == Ready {
      StaleLoadIsBlind(s, r);
      var acts := OthersMislead(s', r, s.readers[r].next);
    } else {
      PromptPollIff(s, r);
      NoRun(s');
      assert AllLeave([], r);
    }
  }
}
