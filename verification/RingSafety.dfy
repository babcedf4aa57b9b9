/** The invariant over whole runs, and exactly what it needs of each step. */
module RingSafety {
  import opened RingGeometry
  import opened RingModel
  import opened RingInvariant
  import opened ProducerSteps
  import opened BlockSteps
  import opened ReaderSteps

  lemma StepInv(s: State, a: Action)
    requires Inv(s) && Enabled(s, a) && Assumed(s, a)
    ensures Inv(Apply(s, a))
  {
    hide Layout, Window, Cursors, Accounting, Headers, Payloads, Claims;
    match a
    case Join => JoinInv(s);
    case Begin(w, size) => LocalInv(s, w, Trying(size));
    case Load(w) =>
      SizeBound(s, w);
      LocalInv(s, w, Loaded(s.producers[w].size, s.count, s.offset));
    case Cas(w) => CasInv(s, w);
    case CasFail(w) =>
      SizeBound(s, w);
      LocalInv(s, w, Trying(s.producers[w].size));
    case Grant(w) => GrantInv(s, w);
    case WriteHeader(w) => WriteHeaderInv(s, w);
    case CommitSkip(w) => CommitSkipInv(s, w);
    case Fill(i, data) => FillInv(s, i, data);
    case Commit(i) => CommitInv(s, i);
    case Abort(i) => AbortInv(s, i);
    case PollLoad(r) => PollLoadInv(s, r);
    case PollDecide(r) => PollDecideInv(s, r);
    case MarkAsRead(r) => MarkInv(s, r);
    case Release(r) => ReleaseInv(s, r);
    case Sub(r) => SubInv(s, r);
    case Clear(r) => ClearInv(s, r);
    case Advance(r) => AdvanceInv(s, r);
  }

  lemma SizeBound(s: State, w: nat)
    requires ClaimsOk(s) && w < |s.producers| && (s.producers[w].Trying? || s.producers[w].Loaded?)
    ensures 1 <= s.producers[w].size && s.producers[w].size + HEADER_SIZE <= s.n
  {
    assert ProducerOk(s.n, s.log, s.stages, w, s.producers[w]);
  }

  /** Every run from a fresh file keeps the invariant. */
  lemma {:induction false} RunInv(s: State, acts: seq<Action>)
    requires Inv(s) && Run(s, acts)
    ensures Inv(After(s, acts))
    decreases |acts|
  {
    if acts != [] {
      StepInv(s, acts[0]);
      RunInv(Apply(s, acts[0]), acts[1..]);
    }
  }

  lemma Reachable(s: State, acts: seq<Action>)
    requires Init(s) && Run(s, acts)
    ensures Inv(After(s, acts))
  {
    InitInv(s);
    RunInv(s, acts);
  }

  // ---------------------------------------------------------------- the assumptions are exact

  /** A poll that acts on a header it should not act on leaves the invariant: what it
      hands out, or gives back, is not a final block, or a message is lost. */
  lemma BadDecision(s: State, r: nat)
    requires Inv(s) && Enabled(s, PollDecide(r)) && !Assumed(s, PollDecide(r))
    ensures !Inv(Apply(s, PollDecide(r)))
  {
    hide Layout, Window, Claims, Cursors, Accounting, Headers, Payloads, Waiters, Slot, ReaderOk;
    var s' := ApplyPollDecide(s, r);
    if Inv(s') {
      ActedOn(s, r);
      if s.readers[r].phase.flag == Aborted { GivenBackUnread(s, r); }
    }
  }

  /** A poll that acts and keeps the invariant has acted on the block due next. */
  lemma ActedOn(s: State, r: nat)
    requires r < |s.readers| && s.readers[r].phase.Seen? && Inv(s) && Inv(ApplyPollDecide(s, r))
    requires !ApplyPollDecide(s, r).readers[r].phase.Resting?
    ensures |s.stages| == |s.log| && s.readers[r].next < |s.log|
    ensures var header := PolledHeader(s, r); var i := s.readers[r].next;
      && header.absOffset == s.readers[r].cursor
      && s.stages[i].Final() && header.flag == FlagOf(s.stages[i]) && header.kind == s.log[i].kind
      && (s.stages[i] == Dropped ==> header.kind == Normal)
      && (s.readers[r].phase.flag != Aborted && header.kind == Normal ==> s.stages[i] == Committed)
  {
    hide Layout, Window, Claims, Cursors, Accounting, Headers, Payloads, Waiters, Slot;
    var s' := ApplyPollDecide(s, r);
    ReaderFacts(s, r);
    ReaderFacts(s', r);
    LiveHeader(s', r);
    DroppedIsNormal(s, s.readers[r].next);
  }

  /** An ABORTED decision gives the block back unread, so the block holds no message. */
  lemma GivenBackUnread(s: State, r: nat)
    requires r < |s.readers| && s.readers[r].phase.Seen? && Inv(s) && Inv(ApplyPollDecide(s, r))
    requires s.readers[r].phase.flag == Aborted
    requires |s.stages| == |s.log| && s.readers[r].next < |s.log|
    ensures s.stages[s.readers[r].next] == Committed ==> s.log[s.readers[r].next].kind == Padding
  {
    hide Layout, Window, Claims, Cursors, Accounting, Headers, Payloads, Waiters, Slot;
    ReaderFacts(s, r);
    ReaderFacts(ApplyPollDecide(s, r), r);
    BodiesNext(s, s.readers[r].join, s.readers[r].next);
  }

  lemma BadCas(s: State, w: nat)
    requires Inv(s) && Enabled(s, Cas(w)) && !Assumed(s, Cas(w))
    ensures !Inv(Apply(s, Cas(w)))
  {
    hide Window, Claims, Cursors, Accounting, Headers, Payloads;
    var s' := ApplyCas(s, w);
    if Inv(s') {
      LastBlock(s');
    }
  }

  lemma LastBlock(s: State)
    requires LayoutOk(s) && |s.log| > 0
    ensures s.log[|s.log| - 1].quorum >= 1
    ensures s.log[|s.log| - 1].End() == s.offset < OFFSET_LIMIT
  {
    assert s.log[|s.log| - 1].End() == StartAt(s.log, s.offset, |s.log|);
  }

  lemma BadJoin(s: State)
    requires Inv(s) && !Assumed(s, Join)
    ensures !Inv(Apply(s, Join))
  {
    hide Layout, Window, Claims, Cursors, Headers, Payloads;
  }

  /** The invariant survives a step exactly when the step meets its assumption. So the
      assumptions are not convenience: dropping any one admits a step that breaks it. */
  lemma StepInvIff(s: State, a: Action)
    requires Inv(s) && Enabled(s, a)
    ensures Inv(Apply(s, a)) <==> Assumed(s, a)
  {
    hide Layout, Window, Claims, Cursors, Accounting, Headers, Payloads;
    if Assumed(s, a) {
      StepInv(s, a);
    } else {
      match a
      case Join => BadJoin(s);
      case Cas(w) => BadCas(s, w);
      case PollDecide(r) => BadDecision(s, r);
      case _ =>
    }
  }

  /** A decision after a fresh load is always sound. Since FreshLoad compares the cursor
      with the watermark, a reader can know this before it polls. */
  lemma FreshLoadIsEnough(s: State, r: nat)
    requires Enabled(s, PollDecide(r)) && s.readers[r].phase.near && Inv(s)
    ensures Assumed(s, PollDecide(r))
  {
    hide Layout, Window, Claims, Cursors, Accounting, Headers, Payloads, Waiters;
    ReaderFacts(s, r);
    LiveHeader(s, r);
  }

  /** Polls in flight loaded their own block's flag. */
  ghost predicate AllNear(s: State) {
    forall r :: 0 <= r < |s.readers| && s.readers[r].phase.Seen? ==> s.readers[r].phase.near
  }

  /** What each agent can test for itself just before a step, without looking at any
      header: room in the two packed fields, and a cursor less than a lap ahead of the
      watermark. */
  predicate Cautious(s: State, a: Action)
    requires Enabled(s, a)
  {
    match a
    case PollLoad(r) => FreshLoad(s, r)
    case PollDecide(_) => true
    case _ => Assumed(s, a)
  }

  ghost predicate CautiousRun(s: State, acts: seq<Action>)
    decreases |acts|
  {
    acts == [] || (Enabled(s, acts[0]) && Cautious(s, acts[0]) && CautiousRun(Apply(s, acts[0]), acts[1..]))
  }

  lemma CautiousStep(s: State, a: Action)
    requires Enabled(s, a) && Cautious(s, a) && AllNear(s) && Inv(s)
    ensures Assumed(s, a) && AllNear(Apply(s, a))
  {
    hide Layout, Window, Claims, Cursors, Accounting, Headers, Payloads, Slot;
    if a.PollDecide? { FreshLoadIsEnough(s, a.r); }
  }

  /** Agents that make those tests meet every assumption, whatever the interleaving: the
      header test that a poll's decision lacks is needed only after a stale load. */
  lemma {:induction false} CautiousRunIsRun(s: State, acts: seq<Action>)
    requires CautiousRun(s, acts) && AllNear(s) && Inv(s)
    ensures Run(s, acts) && Inv(After(s, acts)) && AllNear(After(s, acts))
    decreases |acts|
  {
    hide Inv, AllNear, Apply, Enabled, Assumed, Cautious;
    if acts != [] {
      CautiousStep(s, acts[0]);
      StepInv(s, acts[0]);
      CautiousRunIsRun(Apply(s, acts[0]), acts[1..]);
    }
  }

  /** From a fresh file, the tests that agents can make for themselves are enough. */
  lemma CautiousFromStart(s: State, acts: seq<Action>)
    requires Init(s) && CautiousRun(s, acts)
    ensures Run(s, acts)
  {
    InitInv(s);
    CautiousRunIsRun(s, acts);
  }

  lemma WatermarkStart(s: State)
    requires WindowOk(s)
    ensures s.readOffset == StartAt(s.log, s.offset, s.retired) && s.retired <= |s.log|
  {
  }

  /** A reader that is alone always loads fresh flags: it is never a lap ahead of a
      watermark that only it moves. */
  lemma AloneIsFresh(s: State, r: nat)
    requires Inv(s) && |s.readers| == 1 && r == 0 && Enabled(s, PollLoad(r))
    ensures FreshLoad(s, r) && s.readers[r].cursor == s.readOffset
  {
    hide Layout, Window, Claims, Cursors, Headers, Payloads;
    ReaderFacts(s, r);
    if s.retired < |s.log| {
      WaitersZero(s.readers, s.log[s.retired].quorum, s.retired);
    }
    WatermarkStart(s);
  }

  /** What is left to ask for when there is one reader, aborts and any number of producers
      included: a reader before the first claim, and offsets below 2^56. */
  predicate LoneStep(s: State, a: Action)
    requires Enabled(s, a)
  {
    match a
    case Join => s.readers == []
    case Cas(_) => Assumed(s, a)
    case _ => true
  }

  ghost predicate LoneRun(s: State, acts: seq<Action>)
    decreases |acts|
  {
    acts == [] || (Enabled(s, acts[0]) && LoneStep(s, acts[0]) && LoneRun(Apply(s, acts[0]), acts[1..]))
  }

  lemma LoneIsCautious(s: State, a: Action)
    requires Enabled(s, a) && LoneStep(s, a) && |s.readers| <= 1 && Inv(s)
    ensures Cautious(s, a) && |Apply(s, a).readers| <= 1
  {
    hide Layout, Window, Claims, Cursors, Headers, Payloads, Slot, Waiters;
    if a.PollLoad? { AloneIsFresh(s, a.r); }
  }

  /** A lone reader cannot go wrong: it meets the assumption about polls by itself. */
  lemma {:induction false} LoneRunIsCautious(s: State, acts: seq<Action>)
    requires LoneRun(s, acts) && AllNear(s) && |s.readers| <= 1 && Inv(s)
    ensures CautiousRun(s, acts) && Run(s, acts)
    decreases |acts|
  {
    hide Inv, AllNear, Apply, Enabled, Assumed, Cautious, LoneStep;
    if acts != [] {
      LoneIsCautious(s, acts[0]);
      CautiousStep(s, acts[0]);
      StepInv(s, acts[0]);
      LoneRunIsCautious(Apply(s, acts[0]), acts[1..]);
    }
  }
}
