/** The steps that take a claimed block to its final stage keep the invariant. */
module BlockSteps {
  import opened RingGeometry
  import opened Broadcast
  import opened RingModel
  import opened RingInvariant

  // ---------------------------------------------------------------- shared frames

  /** No reader's account depends on a block that is not final yet. */
  lemma CursorsStage(s: State, i: nat, stage: Stage, body: Bytes)
    requires CursorsOk(s) && i < |s.log| && !s.stages[i].Final()
    ensures CursorsOk(s.(stages := s.stages[i := stage], contents := s.contents[i := body]))
  {
    var s' := s.(stages := s.stages[i := stage], contents := s.contents[i := body]);
    forall r | 0 <= r < |s.readers|
      ensures ReaderOk(s'.n, s'.log, s'.offset, s'.stages, s'.contents, s'.retired, s.readers[r])
    {
      var rd := s.readers[r];
      BodiesFrame(Entries(s.log, s.stages, s.contents), Entries(s'.log, s'.stages, s'.contents), rd.join, Upto(rd));
    }
  }

  /** A flag set on a block whose header is written. */
  lemma HeadersFlag(s: State, i: nat, stage: Stage)
    requires HeadersOk(s) && LayoutOk(s) && WindowOk(s)
    requires i < |s.log| && s.stages[i] == Open && stage.Final()
    ensures var pos := Slot(s.n, s.log[i].start);
      HeadersOk(s.(stages := s.stages[i := stage],
                   headers := SetFlag(s.headers, pos, FlagOf(stage)),
                   tenant := s.tenant[pos := i]))
  {
    OpenNotWiped(s, i);
    hide Layout, Window, Slot;
    OtherSlots(s, i);
  }

  lemma OpenNotWiped(s: State, i: nat)
    requires WindowOk(s) && i < |s.log| && !s.stages[i].Final()
    ensures s.retired <= s.wiped <= i
  {
  }

  lemma LiveShape(s: State, i: nat)
    requires LayoutOk(s) && WindowOk(s) && s.wiped <= i < |s.log|
    ensures s.retired <= i && HEADER_SIZE <= s.log[i].len
  {
    assert BlockShape(s.n, s.log[i]);
  }

  lemma StillClaimed(s: State, i: nat)
    requires WindowOk(s) && i < |s.log| && Written(s.stages[i])
    ensures s.stages[i] != Claimed
  {
  }

  /** Bytes written inside block i leave the payload of every other block alone. */
  lemma PayloadsSplice(s: State, i: nat, data: Bytes, j: nat)
    requires PayloadsOk(s) && LayoutOk(s) && WindowOk(s)
    requires s.wiped <= i < |s.log| && s.stages[i] != Claimed && |data| <= s.log[i].PayloadLen()
    requires s.wiped <= j < |s.log| && j != i && Written(s.stages[j])
    ensures var at := Slot(s.n, s.log[i].start) + HEADER_SIZE;
      var from := Slot(s.n, s.log[j].start) + HEADER_SIZE;
      Slice(Splice(s.bytes, at, data), from, s.log[j].PayloadLen()) == Slice(s.bytes, from, s.log[j].PayloadLen())
  {
    hide Layout, Window, Payloads, Slot, Slice, Splice;
    LiveShape(s, j);
    LiveShape(s, i);
    StillClaimed(s, j);
    LiveDisjoint(s, i, j);
    SliceFrame(s.bytes, Slot(s.n, s.log[i].start) + HEADER_SIZE, data,
               Slot(s.n, s.log[j].start) + HEADER_SIZE, s.log[j].PayloadLen());
  }

  /** What a producer past its compare-and-swap holds. */
  lemma TicketFacts(s: State, w: nat)
    requires ClaimsOk(s) && CursorsOk(s) && LayoutOk(s) && WindowOk(s) && w < |s.producers|
    requires s.producers[w].Waiting? || s.producers[w].Granted? || s.producers[w].Skipping?
    ensures var p := s.producers[w]; var t := p.ticket;
      && TicketOf(s.log, w, p.size, t) && BlockShape(s.n, s.log[t.idx]) && s.wiped <= t.idx
      && |s.stages| == |s.log| == |s.contents|
      && s.stages[t.idx] == (if p.Waiting? then Claimed else if p.Granted? then Admitted else Open)
      && (p.Skipping? ==> s.log[t.idx].kind == Padding)
  {
    assert ProducerOk(s.n, s.log, s.stages, w, s.producers[w]);
  }

  // ---------------------------------------------------------------- past the wait

  lemma GrantWindow(s: State, w: nat)
    requires LayoutOk(s) && WindowOk(s) && ClaimsOk(s) && Enabled(s, Grant(w))
    ensures WindowOk(Apply(s, Grant(w)))
  {
  }

  lemma GrantClaims(s: State, w: nat)
    requires ClaimsOk(s) && Enabled(s, Grant(w))
    ensures ClaimsOk(Apply(s, Grant(w)))
  {
  }

  lemma GrantHeaders(s: State, w: nat)
    requires HeadersOk(s) && ClaimsOk(s) && Enabled(s, Grant(w))
    ensures HeadersOk(Apply(s, Grant(w)))
  {
  }

  lemma GrantPayloads(s: State, w: nat)
    requires PayloadsOk(s) && ClaimsOk(s) && Enabled(s, Grant(w))
    ensures PayloadsOk(Apply(s, Grant(w)))
  {
  }

  lemma GrantInv(s: State, w: nat)
    requires Inv(s) && Enabled(s, Grant(w))
    ensures Inv(Apply(s, Grant(w)))
  {
    hide Layout, Window, Claims, Cursors, Accounting, Headers, Payloads;
    var i := s.producers[w].ticket.idx;
    TicketFacts(s, w);
    GrantWindow(s, w);
    GrantClaims(s, w);
    GrantHeaders(s, w);
    GrantPayloads(s, w);
    CursorsStage(s, i, Admitted, s.contents[i]);
    assert s.contents[i := s.contents[i]] == s.contents;
  }

  // ---------------------------------------------------------------- the header

  /** The header that the code writes is the one the log promises: the size matches the
      bytes won, and the flag left in place by the previous lap reads NOT_READY. */
  lemma NewHeader(s: State, w: nat)
    requires Inv(s) && Enabled(s, WriteHeader(w))
    ensures var i := s.producers[w].ticket.idx;
      && i < |s.log|
      && HeaderAt(Apply(s, WriteHeader(w)).headers, Slot(s.n, s.log[i].start))
         == HeaderOf(s.log[i], Open, Waiters(s.readers, s.log[i].quorum, i))
  {
    hide Layout, Window, Claims, Cursors, Accounting, Headers, Payloads, Waiters, Slot, Slice;
    TicketFacts(s, w);
    var i := s.producers[w].ticket.idx;
    FreeSlot(s, i);
    NobodyYet(s, i);
    RingBound(s);
  }

  lemma RingBound(s: State)
    requires LayoutOk(s)
    ensures HEADER_SIZE <= s.n < SIZE_LIMIT
  {
  }

  /** Nobody has given back a block that is not final. */
  lemma NobodyYet(s: State, i: nat)
    requires CursorsOk(s) && AccountingOk(s) && i < |s.log| && !s.stages[i].Final()
    ensures Waiters(s.readers, s.log[i].quorum, i) == s.log[i].quorum
  {
    forall r | 0 <= r < s.log[i].quorum ensures s.readers[r].next <= i {
      assert ReaderOk(s.n, s.log, s.offset, s.stages, s.contents, s.retired, s.readers[r]);
    }
    WaitersFull(s.readers, s.log[i].quorum, i);
  }

  /** The flag at an admitted block's position. */
  lemma FreeSlot(s: State, i: nat)
    requires LayoutOk(s) && WindowOk(s) && HeadersOk(s)
    requires i < |s.log| && s.stages[i] == Admitted
    ensures HeaderAt(s.headers, Slot(s.n, s.log[i].start)).flag == NotReady
  {
    var pos := Slot(s.n, s.log[i].start);
    if HeaderAt(s.headers, pos).flag != NotReady {
      LiveDisjoint(s, i, s.tenant[pos]);
    }
  }

  lemma WriteWindow(s: State, w: nat)
    requires WindowOk(s) && ClaimsOk(s) && Enabled(s, WriteHeader(w))
    ensures WindowOk(Apply(s, WriteHeader(w)))
  {
  }

  lemma WriteClaims(s: State, w: nat)
    requires ClaimsOk(s) && Enabled(s, WriteHeader(w))
    requires TicketOf(s.log, w, s.producers[w].size, s.producers[w].ticket)
    requires BlockShape(s.n, s.log[s.producers[w].ticket.idx])
    ensures ClaimsOk(Apply(s, WriteHeader(w)))
  {
    assert ProducerOk(s.n, s.log, s.stages, w, s.producers[w]);
  }

  lemma OtherSlots(s: State, i: nat)
    requires LayoutOk(s) && WindowOk(s) && s.wiped <= i < |s.log| && s.stages[i] != Claimed
    ensures forall j :: s.wiped <= j < |s.log| && j != i && Written(s.stages[j]) ==>
              Slot(s.n, s.log[j].start) != Slot(s.n, s.log[i].start)
  {
    forall j | s.wiped <= j < |s.log| && j != i && Written(s.stages[j])
      ensures Slot(s.n, s.log[j].start) != Slot(s.n, s.log[i].start)
    {
      LiveDisjoint(s, i, j);
    }
  }

  lemma WriteHeadersFrame(s: State, w: nat)
    requires HeadersOk(s) && Enabled(s, WriteHeader(w))
    requires var i := s.producers[w].ticket.idx;
      && i < |s.log| && s.log[i].start == s.producers[w].ticket.at && s.stages[i] == Admitted
      && HeaderAt(Apply(s, WriteHeader(w)).headers, Slot(s.n, s.log[i].start))
         == HeaderOf(s.log[i], Open, Waiters(s.readers, s.log[i].quorum, i))
      && forall j :: s.wiped <= j < |s.log| && j != i && Written(s.stages[j]) ==>
           Slot(s.n, s.log[j].start) != Slot(s.n, s.log[i].start)
    ensures HeadersOk(Apply(s, WriteHeader(w)))
  {
  }

  lemma WritePayloads(s: State, w: nat)
    requires PayloadsOk(s) && Enabled(s, WriteHeader(w))
    requires HEADER_SIZE <= s.n < SIZE_LIMIT
    requires TicketOf(s.log, w, s.producers[w].size, s.producers[w].ticket)
    requires BlockShape(s.n, s.log[s.producers[w].ticket.idx])
    requires !Written(s.stages[s.producers[w].ticket.idx])
    ensures PayloadsOk(Apply(s, WriteHeader(w)))
  {
    WrittenBody(s, w);
    hide ApplyWriteHeader, Slot, BlockShape;
  }

  /** The size field, narrowed to 32 bits, is the payload room of the bytes won. */
  lemma WrittenBody(s: State, w: nat)
    requires Enabled(s, WriteHeader(w)) && HEADER_SIZE <= s.n < SIZE_LIMIT
    requires TicketOf(s.log, w, s.producers[w].size, s.producers[w].ticket)
    requires BlockShape(s.n, s.log[s.producers[w].ticket.idx])
    ensures var s' := Apply(s, WriteHeader(w));
      var i := s.producers[w].ticket.idx;
      && s' == s.(headers := s'.headers, producers := s'.producers, stages := s.stages[i := Open],
                  contents := s.contents[i :=
                    Slice(s.bytes, Slot(s.n, s.log[i].start) + HEADER_SIZE, s.log[i].PayloadLen())])
      && HeaderAt(s'.headers, Slot(s.n, s.log[i].start)).size == s.log[i].PayloadLen()
  {
    hide Slot, Slice;
  }

  lemma WriteHeaderInv(s: State, w: nat)
    requires Inv(s) && Enabled(s, WriteHeader(w))
    ensures Inv(Apply(s, WriteHeader(w)))
  {
    hide Layout, Window, Claims, Cursors, Accounting, Headers, Payloads;
    TicketFacts(s, w);
    var s' := ApplyWriteHeader(s, w);
    var i := s.producers[w].ticket.idx;
    RingBound(s);
    WriteWindow(s, w);
    WriteClaims(s, w);
    NewHeader(s, w);
    OtherSlots(s, i);
    WriteHeadersFrame(s, w);
    WritePayloads(s, w);
    CursorsStage(s, i, Open, s'.contents[i]);
  }

  // ---------------------------------------------------------------- finishing

  lemma SkipClaims(s: State, w: nat)
    requires ClaimsOk(s) && Enabled(s, CommitSkip(w))
    requires TicketOf(s.log, w, s.producers[w].size, s.producers[w].ticket)
    requires BlockShape(s.n, s.log[s.producers[w].ticket.idx])
    ensures ClaimsOk(Apply(s, CommitSkip(w)))
  {
    assert ProducerOk(s.n, s.log, s.stages, w, s.producers[w]);
  }

  lemma FinishWindow(s: State, i: nat, stage: Stage)
    requires WindowOk(s) && i < |s.log| && s.stages[i] == Open
    requires stage == Committed || (stage == Dropped && s.log[i].kind == Normal)
    ensures WindowOk(s.(stages := s.stages[i := stage]))
  {
  }

  lemma FinishPayloads(s: State, i: nat)
    requires PayloadsOk(s) && i < |s.log| && s.stages[i] == Open
    ensures PayloadsOk(s.(stages := s.stages[i := Committed]))
  {
  }

  lemma CommitSkipInv(s: State, w: nat)
    requires Inv(s) && Enabled(s, CommitSkip(w))
    ensures Inv(Apply(s, CommitSkip(w)))
  {
    hide Layout, Window, Claims, Cursors, Accounting, Headers, Payloads;
    var i := s.producers[w].ticket.idx;
    TicketFacts(s, w);
    SkipClaims(s, w);
    FinishWindow(s, i, Committed);
    FinishPayloads(s, i);
    HeadersFlag(s, i, Committed);
    CursorsStage(s, i, Committed, s.contents[i]);
    assert s.contents[i := s.contents[i]] == s.contents;
  }

  lemma CommitInv(s: State, i: nat)
    requires Inv(s) && Enabled(s, Commit(i))
    ensures Inv(Apply(s, Commit(i)))
  {
    hide Layout, Window, Claims, Cursors, Accounting, Headers, Payloads;
    OutstandingFacts(s, i);
    OutstandingClaims(s, i, Committed);
    FinishWindow(s, i, Committed);
    FinishPayloads(s, i);
    HeadersFlag(s, i, Committed);
    CursorsStage(s, i, Committed, s.contents[i]);
    assert s.contents[i := s.contents[i]] == s.contents;
  }

  /** The block behind an outstanding wrapper. */
  lemma OutstandingFacts(s: State, i: nat)
    requires LayoutOk(s) && WindowOk(s) && HeadersOk(s) && PayloadsOk(s) && Outstanding(s, i)
    ensures s.wiped <= i && BlockShape(s.n, s.log[i])
    ensures |s.stages| == |s.log| == |s.contents| && |s.bytes| == s.n
    ensures |s.contents[i]| == s.log[i].PayloadLen()
    ensures HeaderAt(s.headers, Slot(s.n, s.log[i].start))
            == HeaderOf(s.log[i], Open, Waiters(s.readers, s.log[i].quorum, i))
  {
  }

  lemma OutstandingClaims(s: State, i: nat, stage: Stage)
    requires ClaimsOk(s) && Outstanding(s, i) && (stage == Open || stage.Final())
    ensures ClaimsOk(s.(stages := s.stages[i := stage]))
  {
  }

  lemma BlockFacts(s: State, i: nat)
    requires LayoutOk(s) && WindowOk(s) && Outstanding(s, i)
    ensures s.wiped <= i && BlockShape(s.n, s.log[i]) && Slot(s.n, s.log[i].start) + s.log[i].len <= s.n
  {
  }

  /** A block's own bytes rewritten, the same way in memory and in its history. */
  lemma RewritePayloads(s: State, i: nat, data: Bytes, stage: Stage, body: Bytes)
    requires PayloadsOk(s) && LayoutOk(s) && WindowOk(s) && Outstanding(s, i)
    requires |data| <= s.log[i].PayloadLen() && Written(stage)
    requires body == Splice(s.contents[i], 0, data)
    ensures PayloadsOk(s.(bytes := Splice(s.bytes, Slot(s.n, s.log[i].start) + HEADER_SIZE, data),
                          stages := s.stages[i := stage],
                          contents := s.contents[i := body]))
  {
    hide Layout, Window, Claims, Cursors, Accounting, Headers, Slot;
    BlockFacts(s, i);
    SliceSelf(s.bytes, Slot(s.n, s.log[i].start) + HEADER_SIZE, data, s.log[i].PayloadLen());
    forall j | s.wiped <= j < |s.log| && j != i && Written(s.stages[j])
      ensures var at := Slot(s.n, s.log[i].start) + HEADER_SIZE;
        var from := Slot(s.n, s.log[j].start) + HEADER_SIZE;
        Slice(Splice(s.bytes, at, data), from, s.log[j].PayloadLen()) == Slice(s.bytes, from, s.log[j].PayloadLen())
    {
      PayloadsSplice(s, i, data, j);
    }
  }

  lemma FillInv(s: State, i: nat, data: Bytes)
    requires Inv(s) && Enabled(s, Fill(i, data))
    ensures Inv(Apply(s, Fill(i, data)))
  {
    hide Layout, Window, Claims, Cursors, Accounting, Headers, Payloads;
    OutstandingFacts(s, i);
    assert s.stages[i := Open] == s.stages;
    RewritePayloads(s, i, data, Open, Splice(s.contents[i], 0, data));
    CursorsStage(s, i, Open, Splice(s.contents[i], 0, data));
  }

  lemma AbortInv(s: State, i: nat)
    requires Inv(s) && Enabled(s, Abort(i))
    ensures Inv(Apply(s, Abort(i)))
  {
    hide Layout, Window, Claims, Cursors, Accounting, Headers, Payloads;
    OutstandingFacts(s, i);
    var size := s.log[i].PayloadLen();
    assert Splice(s.contents[i], 0, Zeros(size)) == Zeros(size);
    RewritePayloads(s, i, Zeros(size), Dropped, Zeros(size));
    HeadersFlag(s, i, Dropped);
    FinishWindow(s, i, Dropped);
    OutstandingClaims(s, i, Dropped);
    CursorsStage(s, i, Dropped, Zeros(size));
  }
}
