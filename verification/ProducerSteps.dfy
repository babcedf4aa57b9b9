/** Every producer step, and a reader's join, keep the invariant. */
module ProducerSteps {
  import opened RingGeometry
  import opened Broadcast
  import opened RingModel
  import opened RingInvariant

  // ---------------------------------------------------------------- a reader joins

  lemma JoinCursors(s: State)
    requires CursorsOk(s) && WindowOk(s) && AccountingOk(s)
    ensures CursorsOk(Apply(s, Join))
  {
  }

  lemma JoinWaiters(s: State)
    requires AccountingOk(s)
    ensures forall i {:trigger s.log[i].quorum} :: 0 <= i < |s.log| ==>
              Waiters(Apply(s, Join).readers, s.log[i].quorum, i) == Waiters(s.readers, s.log[i].quorum, i)
  {
    forall i | 0 <= i < |s.log|
      ensures Waiters(Apply(s, Join).readers, s.log[i].quorum, i) == Waiters(s.readers, s.log[i].quorum, i)
    {
      WaitersFrame(s.readers, ApplyJoin(s).readers, s.log[i].quorum, i);
    }
  }

  lemma JoinHeaders(s: State)
    requires HeadersOk(s) && AccountingOk(s)
    ensures HeadersOk(Apply(s, Join))
  {
    JoinWaiters(s);
  }

  lemma JoinAccounting(s: State)
    requires AccountingOk(s) && WindowOk(s) && Assumed(s, Join)
    ensures AccountingOk(Apply(s, Join))
  {
    JoinWaiters(s);
  }

  lemma JoinInv(s: State)
    requires Inv(s) && Assumed(s, Join)
    ensures Inv(Apply(s, Join))
  {
    JoinCursors(s);
    JoinHeaders(s);
    JoinAccounting(s);
  }

  // ---------------------------------------------------------------- steps on locals

  /** Entering `claim_buffer`, loading the word, or a failed compare-and-swap. */
  lemma LocalInv(s: State, w: nat, p: Producer)
    requires Inv(s) && w < |s.producers|
    requires s.producers[w].Idle? || s.producers[w].Trying? || s.producers[w].Loaded?
    requires p.Trying? || p.Loaded?
    requires 1 <= p.size && p.size + HEADER_SIZE <= s.n
    ensures Inv(s.(producers := s.producers[w := p]))
  {
    LocalClaims(s, w, p);
  }

  lemma LocalClaims(s: State, w: nat, p: Producer)
    requires ClaimsOk(s) && w < |s.producers|
    requires s.producers[w].Idle? || s.producers[w].Trying? || s.producers[w].Loaded?
    requires p.Trying? || p.Loaded?
    requires 1 <= p.size && p.size + HEADER_SIZE <= s.n
    ensures ClaimsOk(s.(producers := s.producers[w := p]))
  {
  }

  // ---------------------------------------------------------------- the compare-and-swap

  lemma LayoutAppend(n: RingSize, log: seq<Block>, offset: nat, b: Block)
    requires Layout(n, log, offset) && BlockShape(n, b) && b.start == offset
    requires b.End() < OFFSET_LIMIT && Slot(n, b.End()) + HEADER_SIZE <= n
    ensures Layout(n, log + [b], b.End())
  {
    forall i | 0 <= i < |log| ensures (log + [b])[i].End() <= offset {
      StartsIncrease(log, offset, n, i, |log|);
    }
    forall i, j | 0 <= i < |log + [b]| && j == i + 1
      ensures (log + [b])[i].End() == StartAt(log + [b], b.End(), j)
    {
      if i < |log| { assert log[i].End() == StartAt(log, offset, j); }
    }
  }

  lemma CasLayout(s: State, w: nat)
    requires LayoutOk(s) && ClaimsOk(s) && AccountingOk(s)
    requires Enabled(s, Cas(w)) && Assumed(s, Cas(w))
    ensures LayoutOk(Apply(s, Cas(w)))
  {
    ClaimShape(s.n, s.offset, s.producers[w].size + HEADER_SIZE);
    LayoutAppend(s.n, s.log, s.offset, ApplyCas(s, w).log[|s.log|]);
  }

  lemma CasWindow(s: State, w: nat)
    requires WindowOk(s) && Enabled(s, Cas(w))
    ensures WindowOk(Apply(s, Cas(w)))
  {
  }

  lemma CasClaims(s: State, w: nat)
    requires ClaimsOk(s) && Enabled(s, Cas(w))
    ensures ClaimsOk(Apply(s, Cas(w)))
  {
  }

  lemma CasReader(s: State, w: nat, r: nat)
    requires Enabled(s, Cas(w)) && r < |s.readers| && |s.stages| == |s.log| == |s.contents|
    requires ReaderOk(s.n, s.log, s.offset, s.stages, s.contents, s.retired, s.readers[r])
    ensures var s' := Apply(s, Cas(w));
      && |s'.stages| == |s'.log| == |s'.contents|
      && ReaderOk(s'.n, s'.log, s'.offset, s'.stages, s'.contents, s'.retired, s.readers[r])
  {
    hide Slot;
    var s' := ApplyCas(s, w);
    var rd := s.readers[r];
    BodiesFrame(Entries(s.log, s.stages, s.contents), Entries(s'.log, s'.stages, s'.contents), rd.join, Upto(rd));
  }

  lemma CasCursors(s: State, w: nat)
    requires CursorsOk(s) && WindowOk(s) && AccountingOk(s) && Enabled(s, Cas(w))
    ensures CursorsOk(Apply(s, Cas(w)))
  {
    var s' := ApplyCas(s, w);
    forall r | 0 <= r < |s.readers|
      ensures ReaderOk(s'.n, s'.log, s'.offset, s'.stages, s'.contents, s'.retired, s.readers[r])
    {
      CasReader(s, w, r);
    }
  }

  lemma CasAccounting(s: State, w: nat)
    requires CursorsOk(s) && AccountingOk(s) && Enabled(s, Cas(w)) && Assumed(s, Cas(w))
    ensures AccountingOk(Apply(s, Cas(w)))
  {
    WaitersFull(s.readers, s.count, |s.log|);
  }

  lemma CasHeaders(s: State, w: nat)
    requires HeadersOk(s) && Enabled(s, Cas(w))
    ensures HeadersOk(Apply(s, Cas(w)))
  {
  }

  lemma CasPayloads(s: State, w: nat)
    requires PayloadsOk(s) && Enabled(s, Cas(w))
    ensures PayloadsOk(Apply(s, Cas(w)))
  {
  }

  lemma CasInv(s: State, w: nat)
    requires Inv(s) && Enabled(s, Cas(w)) && Assumed(s, Cas(w))
    ensures Inv(Apply(s, Cas(w)))
  {
    CasLayout(s, w);
    CasWindow(s, w);
    CasClaims(s, w);
    CasCursors(s, w);
    CasAccounting(s, w);
    CasHeaders(s, w);
    CasPayloads(s, w);
  }
}
