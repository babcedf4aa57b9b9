/** The ring refines the broadcast feed, step by step and run by run. */
module RingBroadcast {
  import opened RingGeometry
  import opened Broadcast
  import opened RingModel
  import opened RingInvariant
  import opened BlockSteps
  import opened ReaderSteps
  import opened RingSafety

  /** What the ring means: the log without offsets, the readers without cursors. */
  ghost function FeedOf(s: State): Feed
    requires |s.stages| == |s.log| == |s.contents|
  {
    Feed(Entries(s.log, s.stages, s.contents), Subscribers(s.readers))
  }

  ghost function Subscribers(readers: seq<Reader>): (subs: seq<Subscriber>)
    ensures |subs| == |readers|
  {
    seq(|readers|, r requires 0 <= r < |readers| =>
      Subscriber(readers[r].join, Upto(readers[r]), readers[r].inbox))
  }

  /** The feed step a ring step stands for. A claim publishes, a commit or an abort
      resolves, and a reader consumes at the moment it starts to give a block back. */
  ghost function FeedStepOf(s: State, a: Action): FeedStep
    requires Enabled(s, a)
  {
    match a
    case Join => Subscribe
    case Cas(_) => Publish
    case CommitSkip(w) => Resolve(s.producers[w].ticket.idx, Gap)
    case Commit(i) => Resolve(i, Message(s.contents[i]))
    case Abort(i) => Resolve(i, Gap)
    case PollDecide(r) => if Apply(s, a).readers[r].phase.Bumped? then Consume(r) else Nothing
    case Release(r) => Consume(r)
    case _ => Nothing
  }

  ghost function FeedStepsOf(s: State, acts: seq<Action>): seq<FeedStep>
    requires Run(s, acts)
    decreases |acts|
  {
    if acts == [] then []
    else [FeedStepOf(s, acts[0])] + FeedStepsOf(Apply(s, acts[0]), acts[1..])
  }

  /** The i-th entry replaced. */
  lemma EntriesUpdate(s: State, i: nat, stage: Stage, body: Bytes)
    requires |s.stages| == |s.log| == |s.contents| && i < |s.log|
    ensures Entries(s.log, s.stages[i := stage], s.contents[i := body])
            == Entries(s.log, s.stages, s.contents)[i := EntryOf(s.log[i], stage, body)]
  {
  }

  lemma SubscribersUpdate(readers: seq<Reader>, r: nat, rd: Reader)
    requires r < |readers|
    ensures Subscribers(readers[r := rd])
            == Subscribers(readers)[r := Subscriber(rd.join, Upto(rd), rd.inbox)]
  {
  }

  /** A step that resolves block i. */
  lemma RefineResolve(s: State, a: Action, i: nat, stage: Stage, body: Bytes)
    requires Inv(s) && Enabled(s, a) && Assumed(s, a)
    requires |s.stages| == |s.log| == |s.contents| && i < |s.log| && s.stages[i] == Open
    requires FeedStepOf(s, a) == Resolve(i, EntryOf(s.log[i], stage, body)) && stage.Final()
    requires var s' := Apply(s, a);
      && s'.log == s.log && s'.stages == s.stages[i := stage] && s'.contents == s.contents[i := body]
      && s'.readers == s.readers
    ensures var s' := Apply(s, a);
      && |s'.stages| == |s'.log| == |s'.contents|
      && Allowed(FeedOf(s), FeedStepOf(s, a)) && FeedOf(s') == Take(FeedOf(s), FeedStepOf(s, a))
  {
    hide Layout, Window, Claims, Cursors, Accounting, Headers, Payloads;
    EntriesUpdate(s, i, stage, body);
  }

  /** A step that leaves a block unresolved. */
  lemma RefineQuiet(s: State, i: nat, stage: Stage, body: Bytes)
    requires |s.stages| == |s.log| == |s.contents| && i < |s.log|
    requires !s.stages[i].Final() && !stage.Final()
    ensures Entries(s.log, s.stages[i := stage], s.contents[i := body]) == Entries(s.log, s.stages, s.contents)
  {
    EntriesUpdate(s, i, stage, body);
  }

  /** A reader moves on without starting to give a block back. */
  lemma RefineKeep(s: State, r: nat, rd: Reader)
    requires r < |s.readers|
    requires rd.join == s.readers[r].join && rd.inbox == s.readers[r].inbox && Upto(rd) == Upto(s.readers[r])
    ensures Subscribers(s.readers[r := rd]) == Subscribers(s.readers)
  {
    SubscribersUpdate(s.readers, r, rd);
    assert Subscribers(s.readers)[r := Subscribers(s.readers)[r]] == Subscribers(s.readers);
  }

  /** A reader starts to give its block back. */
  lemma RefineConsume(s: State, s': State, r: nat)
    requires r < |s.readers| && |s.stages| == |s.log| == |s.contents|
    requires |s'.readers| == |s.readers| && s' == s.(readers := s.readers[r := s'.readers[r]])
    requires ReaderOk(s.n, s.log, s.offset, s.stages, s.contents, s.retired, s.readers[r])
    requires ReaderOk(s.n, s.log, s.offset, s.stages, s.contents, s.retired, s'.readers[r])
    requires s'.readers[r].join == s.readers[r].join && s'.readers[r].next == s.readers[r].next
    requires !s.readers[r].phase.Bumped? && s'.readers[r].phase.Bumped?
    ensures Allowed(FeedOf(s), Consume(r)) && FeedOf(s') == Take(FeedOf(s), Consume(r))
  {
    var rd, rd' := s.readers[r], s'.readers[r];
    BodiesNext(s, rd.join, rd.next);
    SubscribersUpdate(s.readers, r, rd');
    assert Subscribers(s.readers)[r] == Subscriber(rd.join, rd.next, rd.inbox);
    var entry := Entries(s.log, s.stages, s.contents)[rd.next];
    assert rd'.inbox == if entry.Message? then rd.inbox + [entry.body] else rd.inbox;
    assert Upto(rd') == rd.next + 1;
    assert FeedOf(s').subscribers == Take(FeedOf(s), Consume(r)).subscribers;
  }

  lemma RefineDecide(s: State, r: nat)
    requires Enabled(s, PollDecide(r)) && Assumed(s, PollDecide(r)) && Inv(s)
    requires |s.stages| == |s.log| == |s.contents|
    ensures var s' := Apply(s, PollDecide(r));
      && |s'.stages| == |s'.log| == |s'.contents|
      && Allowed(FeedOf(s), FeedStepOf(s, PollDecide(r)))
      && FeedOf(s') == Take(FeedOf(s), FeedStepOf(s, PollDecide(r)))
  {
    hide Layout, Window, Claims, Cursors, Accounting, Headers, Payloads, ReaderOk;
    var s' := ApplyPollDecide(s, r);
    ReaderFacts(s, r);
    DecideOk(s, r);
    if s'.readers[r].phase.Bumped? {
      RefineConsume(s, s', r);
    } else {
      RefineKeep(s, r, s'.readers[r]);
    }
  }

  lemma RefineRelease(s: State, r: nat)
    requires Enabled(s, Release(r)) && Inv(s)
    requires |s.stages| == |s.log| == |s.contents|
    ensures var s' := Apply(s, Release(r));
      && |s'.stages| == |s'.log| == |s'.contents|
      && Allowed(FeedOf(s), Consume(r)) && FeedOf(s') == Take(FeedOf(s), Consume(r))
  {
    hide Layout, Window, Claims, Cursors, Accounting, Headers, Payloads, ReaderOk;
    var s' := ApplyRelease(s, r);
    ReaderFacts(s, r);
    ReleaseInv(s, r);
    ReaderFacts(s', r);
    RefineConsume(s, s', r);
  }

  /** A step that touches a block already claimed. */
  predicate BlockStep(a: Action) {
    a.Grant? || a.WriteHeader? || a.CommitSkip? || a.Fill? || a.Commit? || a.Abort?
  }

  lemma RefineOpening(s: State, a: Action, w: nat)
    requires Enabled(s, a) && (a == Grant(w) || a == WriteHeader(w)) && Inv(s)
    requires |s.stages| == |s.log| == |s.contents|
    ensures var s' := Apply(s, a);
      && |s'.stages| == |s'.log| == |s'.contents| && FeedOf(s') == FeedOf(s)
  {
    hide Layout, Window, Claims, Cursors, Accounting, Headers, Payloads, Slot, Entries;
    TicketFacts(s, w);
    var s' := Apply(s, a);
    var i := s.producers[w].ticket.idx;
    assert s.contents[i := s.contents[i]] == s.contents;
    RefineQuiet(s, i, if a.Grant? then Admitted else Open, s'.contents[i]);
  }

  lemma RefineBlock(s: State, a: Action)
    requires Enabled(s, a) && Assumed(s, a) && BlockStep(a) && Inv(s)
    requires |s.stages| == |s.log| == |s.contents|
    ensures var s' := Apply(s, a);
      && |s'.stages| == |s'.log| == |s'.contents|
      && Allowed(FeedOf(s), FeedStepOf(s, a)) && FeedOf(s') == Take(FeedOf(s), FeedStepOf(s, a))
  {
    hide Layout, Window, Claims, Cursors, Accounting, Headers, Payloads, Slot, Entries;
    var s' := Apply(s, a);
    match a
    case Grant(w) => RefineOpening(s, a, w);
    case WriteHeader(w) => RefineOpening(s, a, w);
    case CommitSkip(w) =>
      TicketFacts(s, w);
      var i := s.producers[w].ticket.idx;
      assert s.contents[i := s.contents[i]] == s.contents;
      RefineResolve(s, a, i, Committed, s.contents[i]);
    case Fill(i, data) =>
      assert s.stages[i := Open] == s.stages;
      RefineQuiet(s, i, Open, s'.contents[i]);
    case Commit(i) =>
      assert s.contents[i := s.contents[i]] == s.contents;
      RefineResolve(s, a, i, Committed, s.contents[i]);
    case Abort(i) => RefineResolve(s, a, i, Dropped, s'.contents[i]);
  }

  /** Each ring step is the feed step it stands for. */
  lemma RefineStep(s: State, a: Action)
    requires Enabled(s, a) && Assumed(s, a) && Inv(s)
    ensures |s.stages| == |s.log| == |s.contents|
    ensures var s' := Apply(s, a);
      && |s'.stages| == |s'.log| == |s'.contents|
      && Allowed(FeedOf(s), FeedStepOf(s, a)) && FeedOf(s') == Take(FeedOf(s), FeedStepOf(s, a))
  {
    hide Layout, Window, Claims, Cursors, Accounting, Headers, Payloads;
    SameLengths(s);
    if BlockStep(a) {
      RefineBlock(s, a);
    } else {
      RefineAgent(s, a);
    }
  }

  lemma RefineAgent(s: State, a: Action)
    requires Enabled(s, a) && Assumed(s, a) && !BlockStep(a) && Inv(s)
    requires |s.stages| == |s.log| == |s.contents|
    ensures var s' := Apply(s, a);
      && |s'.stages| == |s'.log| == |s'.contents|
      && Allowed(FeedOf(s), FeedStepOf(s, a)) && FeedOf(s') == Take(FeedOf(s), FeedStepOf(s, a))
  {
    hide Layout, Window, Claims, Cursors, Accounting, Headers, Payloads, Slot;
    var s' := Apply(s, a);
    match a
    case Join => assert FeedOf(s').subscribers == Take(FeedOf(s), Subscribe).subscribers;
    case Cas(w) => assert FeedOf(s').entries == Take(FeedOf(s), Publish).entries;
    case PollLoad(r) => RefineKeep(s, r, s'.readers[r]);
    case PollDecide(r) => RefineDecide(s, r);
    case MarkAsRead(r) => RefineKeep(s, r, s'.readers[r]);
    case Release(r) => RefineRelease(s, r);
    case Sub(r) => RefineKeep(s, r, s'.readers[r]);
    case Clear(r) => RefineKeep(s, r, s'.readers[r]);
    case Advance(r) => RefineKeep(s, r, s'.readers[r]);
    case _ =>
  }

  lemma {:induction false} RefineRun(s: State, acts: seq<Action>)
    requires Inv(s) && Run(s, acts)
    ensures |s.stages| == |s.log| == |s.contents|
    ensures var s' := After(s, acts);
      && |s'.stages| == |s'.log| == |s'.contents|
      && FeedRun(FeedOf(s), FeedStepsOf(s, acts))
      && FeedOf(s') == FeedAfter(FeedOf(s), FeedStepsOf(s, acts))
    decreases |acts|
  {
    hide Layout, Window, Claims, Cursors, Accounting, Headers, Payloads;
    SameLengths(s);
    if acts != [] {
      var s1 := Apply(s, acts[0]);
      RefineStep(s, acts[0]);
      StepInv(s, acts[0]);
      RefineRun(s1, acts[1..]);
      var steps := FeedStepsOf(s, acts);
      assert steps[1..] == FeedStepsOf(s1, acts[1..]);
    }
  }

  /** The queue is an ordered broadcast log. After every run from a fresh file, each
      reader has been shown exactly the messages claimed since it joined, in claim order,
      each once and with the bytes its producer committed, up to the block it is on; and
      nothing before that point is still uncommitted. */
  lemma OrderedBroadcast(s: State, acts: seq<Action>)
    requires Init(s) && Run(s, acts)
    ensures var s' := After(s, acts);
      && |s'.stages| == |s'.log| == |s'.contents|
      && FeedRun(EMPTY_FEED, FeedStepsOf(s, acts))
      && FeedOf(s') == FeedAfter(EMPTY_FEED, FeedStepsOf(s, acts))
      && Faithful(FeedOf(s'))
  {
    InitInv(s);
    assert FeedOf(s) == EMPTY_FEED;
    RefineRun(s, acts);
    FaithfulRun(EMPTY_FEED, FeedStepsOf(s, acts));
  }

  /** For one reader nothing has to be assumed of polls, aborts included. */
  lemma LoneReaderBroadcast(s: State, acts: seq<Action>)
    requires Init(s) && LoneRun(s, acts)
    ensures Run(s, acts)
    ensures var s' := After(s, acts);
      && |s'.stages| == |s'.log| == |s'.contents|
      && FeedRun(EMPTY_FEED, FeedStepsOf(s, acts))
      && FeedOf(s') == FeedAfter(EMPTY_FEED, FeedStepsOf(s, acts))
      && Faithful(FeedOf(s'))
  {
    hide LoneRun, Run, After, FeedRun, FeedAfter, Faithful;
    InitInv(s);
    LoneRunIsCautious(s, acts);
    OrderedBroadcast(s, acts);
  }

  /** Two readers never disagree: what the later one has been shown and what the earlier
      one has been shown since then are prefixes of one another. */
  lemma ReadersAgree(s: State, acts: seq<Action>, early: nat, late: nat)
    requires Init(s) && Run(s, acts)
    requires early < |After(s, acts).readers| && late < |After(s, acts).readers|
    requires var rs := After(s, acts).readers; rs[early].join <= rs[late].join <= Upto(rs[early])
    ensures var s' := After(s, acts); var e := s'.readers[early]; var l := s'.readers[late];
      && |s'.stages| == |s'.log| == |s'.contents| && l.join <= |s'.log|
      && var missed := Bodies(FeedOf(s').entries, e.join, l.join);
      && missed <= e.inbox
      && (e.inbox[|missed|..] <= l.inbox || l.inbox <= e.inbox[|missed|..])
  {
    OrderedBroadcast(s, acts);
    var s' := After(s, acts);
    assert Subscribers(s'.readers)[early].from == s'.readers[early].join;
    SubscribersAgree(FeedOf(s'), early, late);
  }
}
