/** A message that its reader keeps unread with `mark_as_read`. */
module KeptMessages {
  import opened RingModel
  import opened RingGeometry
  import opened RingInvariant
  import opened ReaderSteps
  import opened RingSafety
  import opened RingTheorems
  import opened Runs
  import opened LatePolls

  /** The reader lets go of the wrapper and of nothing else: it rests where it was before
      the poll, nobody else notices, and the wrapper can no longer be given back. */
  lemma MarkAsReadKeeps(s: State, r: nat)
    requires Enabled(s, MarkAsRead(r))
    ensures var s' := Apply(s, MarkAsRead(r)); var rd := s.readers[r];
      && s' == s.(readers := s'.readers) && |s'.readers| == |s.readers|
      && (forall k :: 0 <= k < |s.readers| && k != r ==> s'.readers[k] == s.readers[k])
      && s'.readers[r] == Reader(rd.join, rd.next, rd.cursor, Resting, rd.inbox)
      && Enabled(s', PollLoad(r)) && !Enabled(s', Action.Release(r))
  {
  }

  /** Reader r is due the committed message i next. */
  ghost predicate DueNext(s: State, r: nat, i: nat) {
    && Inv(s) && r < |s.readers| && s.readers[r].next == i && s.readers[r].cursor == StartAt(s.log, s.offset, i)
    && i < |s.log| == |s.stages| == |s.contents| && s.stages[i] == Committed && s.log[i].kind == Normal
  }

  /** It stays due, whatever the others do, as long as the reader does nothing. */
  lemma StaysDue(s: State, acts: seq<Action>, r: nat, i: nat)
    requires Run(s, acts) && AllLeave(acts, r) && DueNext(s, r, i)
    ensures var s' := After(s, acts);
      && DueNext(s', r, i) && s'.readers[r] == s.readers[r]
      && s'.log[i] == s.log[i] && s'.contents[i] == s.contents[i] && s'.n == s.n
  {
    hide Inv, Run, After, AllLeave;
    ReaderStaysRun(s, acts, r);
    CommittedForever(s, acts, i);
    RunInv(s, acts);
    RunKeepsRing(s, acts);
    DueLengths(After(s, acts), r);
  }

  lemma DueLengths(s: State, r: nat)
    requires Inv(s)
    ensures |s.stages| == |s.log| == |s.contents|
  {
    SameLengths(s);
  }

  lemma {:induction false} RunKeepsRing(s: State, acts: seq<Action>)
    requires Run(s, acts)
    ensures After(s, acts).n == s.n
    decreases |acts|
  {
    hide Slot, Slice, Splice, Assumed;
    if acts != [] { RunKeepsRing(Apply(s, acts[0]), acts[1..]); }
  }

  /** A poll of it finds its header, committed and its own. */
  lemma DueHeader(s: State, r: nat, i: nat)
    requires DueNext(s, r, i)
    ensures s.readers[r].cursor == s.log[i].start
    ensures PolledHeader(s, r) == HeaderOf(s.log[i], Committed, Waiters(s.readers, s.log[i].quorum, i))
    ensures HEADER_SIZE <= s.log[i].len
  {
    hide Layout, Window, Claims, Cursors, Accounting, Headers, Payloads, Slot, Waiters;
    LiveHeader(s, r);
  }

  /** Polls come back to a message that was marked: with any steps of other agents before the
      poll and between its two loads, the decision is sound and hands out the same wrapper
      on the same bytes, with the reader as it was when it held the first. */
  lemma MarkedIsPolledAgain(s: State, r: nat, before: seq<Action>, between: seq<Action>)
    requires Enabled(s, MarkAsRead(r)) && Reached(s)
    requires AllLeave(before, r) && AllLeave(between, r)
    requires Run(Apply(s, MarkAsRead(r)), before + ([PollLoad(r)] + between))
    ensures var s' := After(Apply(s, MarkAsRead(r)), before + ([PollLoad(r)] + between));
      && Enabled(s', PollDecide(r)) && Assumed(s', PollDecide(r))
      && var again := Apply(s', PollDecide(r));
      && r < |again.readers| && again.readers[r] == s.readers[r]
      && View(again, s.readers[r].phase.pos, s.readers[r].phase.span)
         == View(s, s.readers[r].phase.pos, s.readers[r].phase.span)
  {
    hide Inv, Run, After, AllLeave, Slot, View, Waiters;
    ReachedInv(s);
    HeldIsDue(s, r);
    var i := s.readers[r].next;
    var s1 := Apply(s, MarkAsRead(r));
    StepInv(s, MarkAsRead(r));
    DueLengths(s1, r);
    RunParts(s1, before, [PollLoad(r)] + between);
    StaysDue(s1, before, r, i);
    var s2 := After(s1, before);
    DueHeader(s2, r, i);
    RunCons(s2, PollLoad(r), between);
    var s3 := Apply(s2, PollLoad(r));
    StepInv(s2, PollLoad(r));
    StaysDue(s3, between, r, i);
    var s4 := After(s3, between);
    DueHeader(s4, r, i);
    StepInv(s4, PollDecide(r));
    HeldIsDue(Apply(s4, PollDecide(r)), r);
  }
}
