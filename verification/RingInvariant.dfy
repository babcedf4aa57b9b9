/**
 The invariant of the ring, one predicate a concern, each over the components it
 speaks about.
 */
module RingInvariant {
  import opened RingGeometry
  import opened Broadcast
  import opened RingModel

  // ---------------------------------------------------------------- the log

  ghost predicate BlockShape(n: RingSize, b: Block) {
    && 1 <= b.want && b.want + HEADER_SIZE <= n
    && b.kind == (if NeedsSkip(n, b.start, b.want + HEADER_SIZE) then Padding else Normal)
    && b.len == BumpLength(n, b.start, b.want + HEADER_SIZE)
    && Slot(n, b.start) + HEADER_SIZE <= n
    && HEADER_SIZE <= b.len
    && Slot(n, b.start) + b.len <= n
    && 1 <= b.quorum < READER_LIMIT
  }

  /** The claimed blocks tile [0, offset) in order. */
  ghost predicate Layout(n: RingSize, log: seq<Block>, offset: nat) {
    && HEADER_SIZE <= n <= MAX_QUEUE_SIZE
    && offset < OFFSET_LIMIT
    && Slot(n, offset) + HEADER_SIZE <= n
    && StartAt(log, offset, 0) == 0
    && (forall i :: 0 <= i < |log| ==> BlockShape(n, log[i]))
    && (forall i, j :: 0 <= i < |log| && j == i + 1 ==> log[i].End() == StartAt(log, offset, j))
    && (forall i, j :: 0 <= i < j < |log| ==> log[i].End() <= log[j].start)
  }

  /** Absolute offset of the i-th block, or of the next claim. */
  function StartAt(log: seq<Block>, offset: nat, i: nat): nat {
    if i < |log| then log[i].start else offset
  }

  // ---------------------------------------------------------------- the watermark

  ghost predicate Window(n: RingSize, log: seq<Block>, offset: nat, stages: seq<Stage>,
                         readOffset: nat, retired: nat, wiped: nat) {
    && |stages| == |log|
    && retired <= wiped <= retired + 1 && wiped <= |log|
    && readOffset == StartAt(log, offset, retired)
    && (forall i :: 0 <= i < |log| && stages[i] != Claimed ==> log[i].End() <= readOffset + n)
    && (forall i :: 0 <= i < wiped ==> stages[i].Final())
    && (forall i :: 0 <= i < |log| && stages[i] == Dropped ==> log[i].kind == Normal)
  }

  // ---------------------------------------------------------------- producers

  ghost predicate TicketOf(log: seq<Block>, w: nat, size: nat, t: Ticket) {
    && t.idx < |log|
    && log[t.idx].start == t.at && log[t.idx].len == t.bump
    && log[t.idx].want == size && log[t.idx].quorum == t.count && log[t.idx].owner == w
  }

  ghost predicate ProducerOk(n: RingSize, log: seq<Block>, stages: seq<Stage>, w: nat, p: Producer)
    requires |stages| == |log|
  {
    match p
    case Idle => true
    case Trying(size) => 1 <= size && size + HEADER_SIZE <= n
    case Loaded(size, _, _) => 1 <= size && size + HEADER_SIZE <= n
    case Waiting(size, t) => TicketOf(log, w, size, t) && stages[t.idx] == Claimed
    case Granted(size, t) => TicketOf(log, w, size, t) && stages[t.idx] == Admitted
    case Skipping(size, t) =>
      TicketOf(log, w, size, t) && stages[t.idx] == Open && log[t.idx].kind == Padding
  }

  /** Who finishes block i: its producer is at the matching point of `claim_buffer`. */
  ghost predicate OwnedBy(b: Block, stage: Stage, i: nat, producers: seq<Producer>) {
    && b.owner < |producers|
    && var p := producers[b.owner];
    && (stage == Claimed ==> p.Waiting? && p.ticket.idx == i)
    && (stage == Admitted ==> p.Granted? && p.ticket.idx == i)
    && (stage == Open && b.kind == Padding ==> p.Skipping? && p.ticket.idx == i)
  }

  ghost predicate Claims(n: RingSize, log: seq<Block>, stages: seq<Stage>, producers: seq<Producer>) {
    && |stages| == |log|
    && (forall w :: 0 <= w < |producers| ==> ProducerOk(n, log, stages, w, producers[w]))
    && (forall i :: 0 <= i < |log| ==> OwnedBy(log[i], stages[i], i, producers))
  }

  // ---------------------------------------------------------------- readers

  function EntryOf(b: Block, stage: Stage, body: Bytes): Entry {
    match stage
    case Committed => if b.kind == Normal then Message(body) else Gap
    case Dropped => Gap
    case _ => Unresolved
  }

  /** The log as a broadcast feed sees it. */
  function Entries(log: seq<Block>, stages: seq<Stage>, contents: seq<Bytes>): (e: seq<Entry>)
    requires |stages| == |log| == |contents|
    ensures |e| == |log|
    ensures forall i :: 0 <= i < |log| ==> e[i] == EntryOf(log[i], stages[i], contents[i])
  {
    seq(|log|, i requires 0 <= i < |log| => EntryOf(log[i], stages[i], contents[i]))
  }

  /** First block a reader has not started to give back. */
  function Upto(rd: Reader): nat {
    rd.next + if rd.phase.Bumped? then 1 else 0
  }

  ghost predicate PhaseOk(n: RingSize, log: seq<Block>, offset: nat, stages: seq<Stage>, rd: Reader)
    requires |stages| == |log| && rd.next <= |log|
  {
    match rd.phase
    case Resting => rd.cursor == StartAt(log, offset, rd.next)
    case Seen(flag, near) =>
      && rd.cursor == StartAt(log, offset, rd.next) && flag != NotReady
      && (near ==> rd.next < |log| && stages[rd.next] == (if flag == Ready then Committed else Dropped))
    case Holding(pos, span) =>
      && rd.cursor == StartAt(log, offset, rd.next)
      && rd.next < |log| && stages[rd.next] == Committed && log[rd.next].kind == Normal
      && pos == Slot(n, log[rd.next].start) && span == log[rd.next].len
    case Bumped(pos, total) =>
      && rd.next < |log| && stages[rd.next].Final()
      && pos == Slot(n, log[rd.next].start) && total == log[rd.next].len
      && rd.cursor == log[rd.next].End()
    case Last(pos, total) =>
      && rd.cursor == StartAt(log, offset, rd.next) && rd.next > 0
      && pos == Slot(n, log[rd.next - 1].start) && total == log[rd.next - 1].len
    case Wiped(total) =>
      && rd.cursor == StartAt(log, offset, rd.next) && rd.next > 0
      && total == log[rd.next - 1].len
  }

  ghost predicate ReaderOk(n: RingSize, log: seq<Block>, offset: nat, stages: seq<Stage>,
                           contents: seq<Bytes>, retired: nat, rd: Reader)
    requires |stages| == |log| == |contents|
  {
    && rd.join <= rd.next <= |log| && retired <= rd.next
    && Upto(rd) <= |log|
    && PhaseOk(n, log, offset, stages, rd)
    && (forall i :: rd.join <= i < rd.next ==> stages[i].Final())
    && rd.inbox == Bodies(Entries(log, stages, contents), rd.join, Upto(rd))
  }

  /** Block i counts exactly the readers whose join precedes its claim. */
  ghost predicate Quorums(log: seq<Block>, readers: seq<Reader>) {
    forall r, i :: 0 <= r < |readers| && 0 <= i < |log| ==> (readers[r].join <= i <==> r < log[i].quorum)
  }

  ghost predicate Cursors(n: RingSize, log: seq<Block>, offset: nat, stages: seq<Stage>,
                          contents: seq<Bytes>, retired: nat, readers: seq<Reader>) {
    && |stages| == |log| == |contents|
    && (forall r :: 0 <= r < |readers| ==> ReaderOk(n, log, offset, stages, contents, retired, readers[r]))
    && Quorums(log, readers)
  }

  // ---------------------------------------------------------------- reader accounting

  /** Readers among the first q that have not yet done their fetch_sub on block i. */
  function Waiters(readers: seq<Reader>, q: nat, i: nat): nat {
    if q == 0 then 0
    else Waiters(readers, q - 1, i)
         + if q - 1 < |readers| && readers[q - 1].next <= i then 1 else 0
  }

  predicate Closing(rd: Reader) {
    rd.phase.Last? || rd.phase.Wiped?
  }

  /** At most one reader is past a last fetch_sub, it is giving back the oldest block,
      and otherwise somebody still owes the oldest block its fetch_sub. */
  ghost predicate Accounting(log: seq<Block>, readers: seq<Reader>, count: nat,
                             retired: nat, wiped: nat, closer: Option<nat>) {
    && count == |readers| < READER_LIMIT
    && (forall i :: 0 <= i < |log| ==> log[i].quorum <= |readers|)
    && match closer
       case None =>
         && (forall r :: 0 <= r < |readers| ==> !Closing(readers[r]))
         && wiped == retired
         && (retired < |log| ==> Waiters(readers, log[retired].quorum, retired) > 0)
       case Some(c) =>
         && c < |readers| && Closing(readers[c]) && readers[c].next == retired + 1 && retired < |log|
         && (forall r :: 0 <= r < |readers| ==> r != c ==> !Closing(readers[r]))
         && (forall r :: 0 <= r < |readers| ==> retired < readers[r].next)
         && wiped == retired + (if readers[c].phase.Wiped? then 1 else 0)
  }

  // ---------------------------------------------------------------- shared memory

  function FlagOf(stage: Stage): Flag {
    match stage
    case Committed => Ready
    case Dropped => Aborted
    case _ => NotReady
  }

  predicate Written(stage: Stage) {
    stage == Open || stage.Final()
  }

  /** The header of a block that has been written and not yet cleared. */
  function HeaderOf(b: Block, stage: Stage, waiters: nat): Header {
    Header(b.start, b.PayloadLen(), b.kind, waiters, FlagOf(stage))
  }

  ghost predicate Headers(n: RingSize, log: seq<Block>, stages: seq<Stage>, readers: seq<Reader>,
                          wiped: nat, headers: map<nat, Header>, tenant: map<nat, nat>) {
    && |stages| == |log|
    && (forall i :: wiped <= i < |log| && Written(stages[i]) ==>
          HeaderAt(headers, Slot(n, log[i].start))
          == HeaderOf(log[i], stages[i], Waiters(readers, log[i].quorum, i)))
    && (forall p :: p in headers && headers[p].flag != NotReady ==>
          && p in tenant && wiped <= tenant[p] < |log|
          && Slot(n, log[tenant[p]].start) == p && stages[tenant[p]].Final())
  }

  ghost predicate Payloads(n: RingSize, log: seq<Block>, stages: seq<Stage>, contents: seq<Bytes>,
                           wiped: nat, bytes: Bytes) {
    && |stages| == |log| == |contents|
    && |bytes| == n
    && (forall i :: wiped <= i < |log| && Written(stages[i]) && log[i].kind == Normal ==>
          contents[i] == Slice(bytes, Slot(n, log[i].start) + HEADER_SIZE, log[i].PayloadLen()))
  }

  ghost predicate LayoutOk(s: State) {
    Layout(s.n, s.log, s.offset)
  }

  ghost predicate WindowOk(s: State) {
    Window(s.n, s.log, s.offset, s.stages, s.readOffset, s.retired, s.wiped)
  }

  ghost predicate ClaimsOk(s: State) {
    Claims(s.n, s.log, s.stages, s.producers)
  }

  ghost predicate CursorsOk(s: State) {
    Cursors(s.n, s.log, s.offset, s.stages, s.contents, s.retired, s.readers)
  }

  ghost predicate AccountingOk(s: State) {
    Accounting(s.log, s.readers, s.count, s.retired, s.wiped, s.closer)
  }

  ghost predicate HeadersOk(s: State) {
    Headers(s.n, s.log, s.stages, s.readers, s.wiped, s.headers, s.tenant)
  }

  ghost predicate PayloadsOk(s: State) {
    Payloads(s.n, s.log, s.stages, s.contents, s.wiped, s.bytes)
  }

  ghost predicate Inv(s: State) {
    && LayoutOk(s)
    && WindowOk(s)
    && ClaimsOk(s)
    && CursorsOk(s)
    && AccountingOk(s)
    && HeadersOk(s)
    && PayloadsOk(s)
  }

  lemma InitInv(s: State)
    requires Init(s)
    ensures Inv(s)
  {
    SlotUnique(s.n, 0, 0, 0);
  }

  // ---------------------------------------------------------------- facts about Waiters

  lemma {:induction false} WaitersBound(readers: seq<Reader>, q: nat, i: nat)
    ensures Waiters(readers, q, i) <= q
  {
    if q > 0 { WaitersBound(readers, q - 1, i); }
  }

  lemma {:induction false} WaitersZero(readers: seq<Reader>, q: nat, i: nat)
    ensures Waiters(readers, q, i) == 0 <==> forall r :: 0 <= r < q && r < |readers| ==> i < readers[r].next
  {
    if q > 0 { WaitersZero(readers, q - 1, i); }
  }

  lemma {:induction false} WaitersFull(readers: seq<Reader>, q: nat, i: nat)
    requires q <= |readers|
    requires forall r :: 0 <= r < q ==> readers[r].next <= i
    ensures Waiters(readers, q, i) == q
  {
    if q > 0 { WaitersFull(readers, q - 1, i); }
  }

  lemma {:induction false} WaitersFrame(readers: seq<Reader>, readers': seq<Reader>, q: nat, i: nat)
    requires q <= |readers| && q <= |readers'|
    requires forall r :: 0 <= r < q ==> readers[r].next == readers'[r].next
    ensures Waiters(readers', q, i) == Waiters(readers, q, i)
  {
    if q > 0 { WaitersFrame(readers, readers', q - 1, i); }
  }

  /** One reader moving on by one block changes the count of that block only, and only
      if the reader is counted there. */
  lemma {:induction false} WaitersMove(readers: seq<Reader>, r: nat, rd: Reader, q: nat, i: nat)
    requires r < |readers| && rd.next == readers[r].next + 1
    ensures Waiters(readers[r := rd], q, i)
            == Waiters(readers, q, i) - (if r < q && readers[r].next == i then 1 else 0)
  {
    if q > 0 { WaitersMove(readers, r, rd, q - 1, i); }
  }

  // ---------------------------------------------------------------- facts about the log

  lemma SameLengths(s: State)
    requires CursorsOk(s)
    ensures |s.stages| == |s.log| == |s.contents|
  {
  }

  lemma StartsIncrease(log: seq<Block>, offset: nat, n: RingSize, i: nat, j: nat)
    requires Layout(n, log, offset) && i < j <= |log|
    ensures log[i].End() <= StartAt(log, offset, j)
    ensures log[i].start < StartAt(log, offset, j)
  {
    if j == |log| {
      assert log[|log| - 1].End() == StartAt(log, offset, |log|);
    }
  }

  /** No lapping: two blocks past the wait and not yet retired share no ring byte. */
  lemma LiveDisjoint(s: State, i: nat, j: nat)
    requires LayoutOk(s) && WindowOk(s)
    requires s.retired <= i < |s.log| && s.retired <= j < |s.log| && i != j
    requires s.stages[i] != Claimed && s.stages[j] != Claimed
    ensures Disjoint(Slot(s.n, s.log[i].start), s.log[i].len, Slot(s.n, s.log[j].start), s.log[j].len)
    ensures Slot(s.n, s.log[i].start) != Slot(s.n, s.log[j].start)
  {
    var lo, hi := if i < j then i else j, if i < j then j else i;
    if s.retired < lo { StartsIncrease(s.log, s.offset, s.n, s.retired, lo); }
    WindowDisjoint(s.n, s.log[lo].start, s.log[lo].len, s.log[hi].start, s.log[hi].len);
  }

  /** A reader outside a last release has not passed the blocks already cleared. */
  lemma NextNotWiped(s: State, r: nat)
    requires CursorsOk(s) && AccountingOk(s) && r < |s.readers|
    ensures s.wiped <= s.readers[r].next
  {
  }

  // ---------------------------------------------------------------- facts about bytes

  lemma SliceFrame(bytes: Bytes, at: nat, data: Bytes, from: nat, k: nat)
    requires from + k <= at || at + |data| <= from || data == []
    ensures Slice(Splice(bytes, at, data), from, k) == Slice(bytes, from, k)
  {
  }

  lemma SliceSelf(bytes: Bytes, at: nat, data: Bytes, k: nat)
    requires at + k <= |bytes| && |data| <= k
    ensures Slice(Splice(bytes, at, data), at, k) == Splice(Slice(bytes, at, k), 0, data)
  {
    var tail := bytes[at + |data|..at + k];
    assert Slice(Splice(bytes, at, data), at, k) == data + tail;
    assert Slice(bytes, at, k)[|data|..] == tail;
    assert Splice(Slice(bytes, at, k), 0, data) == data + tail;
  }
}
