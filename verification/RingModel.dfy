/**
 The shared-memory ring as a step system. One `Action` is one atomic access of the
 C++ code (or a run of accesses no other agent can observe apart), so a sequence of
 actions is an interleaving of producers and readers.

 Two kinds of state live side by side. The first group of fields of `State` is what
 the mapped file and the agents' locals hold. The second group is history: it is
 written by the actions and never read by one to choose what to do.
 */
module RingModel {
  import opened RingGeometry
  import opened Broadcast

  datatype Kind = Normal | Padding

  datatype Flag = NotReady | Ready | Aborted

  datatype Header = Header(absOffset: nat, size: nat, kind: Kind, numReaders: nat, flag: Flag)

  // The ring is zeroed when the file is created.
  const ZERO_HEADER := Header(0, 0, Normal, 0, NotReady)

  /** History of one successful compare-and-swap: the bytes won, the payload size asked
      for, the readers counted in the word at that moment and the producer. */
  datatype Block = Block(start: nat, len: nat, kind: Kind, want: nat, quorum: nat, owner: nat) {
    function End(): nat { start + len }
    function PayloadLen(): nat { if len < HEADER_SIZE then 0 else len - HEADER_SIZE }
  }

  /** How far a block has come. */
  datatype Stage = Claimed | Admitted | Open | Committed | Dropped {
    predicate Final() { Committed? || Dropped? }
  }

  /** A producer's locals after its compare-and-swap: the unpacked old word, the bump,
      and (history) the index of the block won. */
  datatype Ticket = Ticket(count: nat, at: nat, bump: nat, idx: nat)

  /** Where a producer is inside `claim_buffer`. */
  datatype Producer =
    | Idle
    | Trying(size: nat)
    | Loaded(size: nat, count: nat, offset: nat)
    | Waiting(size: nat, ticket: Ticket)
    | Granted(size: nat, ticket: Ticket)
    | Skipping(size: nat, ticket: Ticket)

  /** Where a reader is inside `poll_buffer` and `release_buffer`. `Holding` is an
      outstanding wrapper. `near` is history: see FreshLoad. */
  datatype Phase =
    | Resting
    | Seen(flag: Flag, near: bool)
    | Holding(pos: nat, span: nat)
    | Bumped(pos: nat, total: nat)
    | Last(pos: nat, total: nat)
    | Wiped(total: nat)

  /** `cursor` is abs_read_offset. History: `join` and `next` are the log indices of the
      first block counted for this reader and of the first one it has not given back;
      `inbox` is what its wrappers showed when they were released. */
  datatype Reader = Reader(join: nat, next: nat, cursor: nat, phase: Phase, inbox: seq<Bytes>)

  datatype Option<T> = None | Some(value: T)

  datatype State = State(
    n: RingSize,
    count: nat,                   // readers_and_write_offset, low 8 bits
    offset: nat,                  // readers_and_write_offset, high 56 bits
    readOffset: nat,              // read_offset, the low watermark
    headers: map<nat, Header>,    // by ring position
    bytes: Bytes,                 // payload bytes of the ring
    producers: seq<Producer>,
    readers: seq<Reader>,
    // history
    log: seq<Block>,
    stages: seq<Stage>,
    contents: seq<Bytes>,
    retired: nat,                 // blocks the watermark has passed
    wiped: nat,                   // blocks whose header has been cleared
    closer: Option<nat>,          // the reader between its last fetch_sub and the watermark bump
    tenant: map<nat, nat>)        // block that last set the flag at a position

  function HeaderAt(headers: map<nat, Header>, p: nat): Header {
    if p in headers then headers[p] else ZERO_HEADER
  }

  function Zeros(k: nat): (z: Bytes)
    ensures |z| == k
  {
    seq(k, _ => 0)
  }

  function Splice(bytes: Bytes, at: nat, data: Bytes): (r: Bytes)
    ensures |r| == |bytes|
  {
    if at + |data| <= |bytes| then bytes[..at] + data + bytes[at + |data|..] else bytes
  }

  function Slice(bytes: Bytes, at: nat, k: nat): Bytes {
    if at + k <= |bytes| then bytes[at..at + k] else []
  }

  ghost predicate Init(s: State) {
    && HEADER_SIZE <= s.n <= MAX_QUEUE_SIZE
    && s.count == 0 && s.offset == 0 && s.readOffset == 0
    && s.headers == map[] && s.bytes == Zeros(s.n)
    && (forall w :: 0 <= w < |s.producers| ==> s.producers[w] == Idle)
    && s.readers == []
    && s.log == [] && s.stages == [] && s.contents == []
    && s.retired == 0 && s.wiped == 0 && s.closer == None && s.tenant == map[]
  }

  datatype Action =
    | Join
    | Begin(w: nat, size: nat)
    | Load(w: nat)
    | Cas(w: nat)
    | CasFail(w: nat)
    | Grant(w: nat)
    | WriteHeader(w: nat)
    | CommitSkip(w: nat)
    | Fill(i: nat, data: Bytes)
    | Commit(i: nat)
    | Abort(i: nat)
    | PollLoad(r: nat)
    | PollDecide(r: nat)
    | MarkAsRead(r: nat)
    | Release(r: nat)
    | Sub(r: nat)
    | Clear(r: nat)
    | Advance(r: nat)

  /** An outstanding writer wrapper: a message block with its header written. */
  predicate Outstanding(s: State, i: nat) {
    i < |s.log| && i < |s.stages| && i < |s.contents| && s.stages[i] == Open && s.log[i].kind == Normal
  }

  /** When the code can take this step. Waiting for the watermark is a Grant that is not
      enabled yet: the test is `write_offset - read_offset <= n` on unsigned numbers. */
  predicate Enabled(s: State, a: Action) {
    match a
    case Join => true
    case Begin(w, size) =>
      w < |s.producers| && s.producers[w].Idle? && 1 <= size && size + HEADER_SIZE <= s.n
    case Load(w) => w < |s.producers| && s.producers[w].Trying?
    case Cas(w) =>
      w < |s.producers| && s.producers[w].Loaded?
      && s.producers[w].count == s.count && s.producers[w].offset == s.offset
    case CasFail(w) => w < |s.producers| && s.producers[w].Loaded?
    case Grant(w) =>
      w < |s.producers| && s.producers[w].Waiting?
      && var end := s.producers[w].ticket.at + s.producers[w].ticket.bump;
      s.readOffset <= end && end - s.readOffset <= s.n
    case WriteHeader(w) =>
      w < |s.producers| && s.producers[w].Granted?
      && s.producers[w].ticket.idx < |s.stages| && s.producers[w].ticket.idx < |s.contents|
    case CommitSkip(w) =>
      w < |s.producers| && s.producers[w].Skipping? && s.producers[w].ticket.idx < |s.stages|
    case Fill(i, data) => Outstanding(s, i) && |data| + HEADER_SIZE <= s.log[i].len
    case Commit(i) => Outstanding(s, i)
    case Abort(i) => Outstanding(s, i)
    case PollLoad(r) => r < |s.readers| && s.readers[r].phase.Resting?
    case PollDecide(r) => r < |s.readers| && s.readers[r].phase.Seen?
    case MarkAsRead(r) => r < |s.readers| && s.readers[r].phase.Holding?
    case Release(r) => r < |s.readers| && s.readers[r].phase.Holding?
    case Sub(r) => r < |s.readers| && s.readers[r].phase.Bumped?
    case Clear(r) => r < |s.readers| && s.readers[r].phase.Last?
    case Advance(r) => r < |s.readers| && s.readers[r].phase.Wiped?
  }

  /** The effect of a step. */
  function Apply(s: State, a: Action): State
    requires Enabled(s, a)
  {
    match a
    case Join => ApplyJoin(s)
    case Begin(w, size) => s.(producers := s.producers[w := Trying(size)])
    case Load(w) =>
      s.(producers := s.producers[w := Loaded(s.producers[w].size, s.count, s.offset)])
    case Cas(w) => ApplyCas(s, w)
    case CasFail(w) => s.(producers := s.producers[w := Trying(s.producers[w].size)])
    case Grant(w) => ApplyGrant(s, w)
    case WriteHeader(w) => ApplyWriteHeader(s, w)
    case CommitSkip(w) => ApplyCommitSkip(s, w)
    case Fill(i, data) => ApplyFill(s, i, data)
    case Commit(i) => ApplyCommit(s, i)
    case Abort(i) => ApplyAbort(s, i)
    case PollLoad(r) => ApplyPollLoad(s, r)
    case PollDecide(r) => ApplyPollDecide(s, r)
    case MarkAsRead(r) => s.(readers := s.readers[r := s.readers[r].(phase := Resting)])
    case Release(r) => ApplyRelease(s, r)
    case Sub(r) => ApplySub(s, r)
    case Clear(r) => ApplyClear(s, r)
    case Advance(r) => ApplyAdvance(s, r)
  }

  /** The successful compare-and-swap of `modify_readers(true)`: the count wraps at 8
      bits, the new reader starts at the write offset it saw. */
  function ApplyJoin(s: State): State {
    s.(count := (s.count + 1) % READER_LIMIT,
       readers := s.readers + [Reader(|s.log|, |s.log|, s.offset, Resting, [])])
  }

  /** The successful compare-and-swap of `wait_for_next_write_offset`: the offset wraps
      at 56 bits. */
  function ApplyCas(s: State, w: nat): State
    requires w < |s.producers| && s.producers[w].Loaded?
  {
    var p := s.producers[w];
    var total := p.size + HEADER_SIZE;
    var bump := BumpLength(s.n, p.offset, total);
    var kind := if NeedsSkip(s.n, p.offset, total) then Padding else Normal;
    s.(offset := (p.offset + bump) % OFFSET_LIMIT,
       producers := s.producers[w := Waiting(p.size, Ticket(p.count, p.offset, bump, |s.log|))],
       log := s.log + [Block(p.offset, bump, kind, p.size, p.count, w)],
       stages := s.stages + [Claimed],
       contents := s.contents + [[]])
  }

  function ApplyGrant(s: State, w: nat): State
    requires w < |s.producers| && s.producers[w].Waiting?
  {
    var p := s.producers[w];
    s.(producers := s.producers[w := Granted(p.size, p.ticket)],
       stages := if p.ticket.idx < |s.stages| then s.stages[p.ticket.idx := Admitted] else s.stages)
  }

  /** Both branches after the wait in `claim_buffer`: `insert_skip_message` up to its
      commit, or the header of a message. Neither writes the commit flag. */
  function ApplyWriteHeader(s: State, w: nat): State
    requires w < |s.producers| && s.producers[w].Granted?
    requires s.producers[w].ticket.idx < |s.stages| && s.producers[w].ticket.idx < |s.contents|
  {
    var p := s.producers[w];
    var t := p.ticket;
    var pos := Slot(s.n, t.at);
    var skip := NeedsSkip(s.n, t.at, p.size + HEADER_SIZE);
    var size := if skip then (s.n - pos - HEADER_SIZE) % SIZE_LIMIT else p.size % SIZE_LIMIT;
    var header := Header(t.at, size, if skip then Padding else Normal, t.count % READER_LIMIT,
                         HeaderAt(s.headers, pos).flag);
    s.(headers := s.headers[pos := header],
       producers := s.producers[w := if skip then Skipping(p.size, t) else Idle],
       stages := s.stages[t.idx := Open],
       contents := s.contents[t.idx := Slice(s.bytes, pos + HEADER_SIZE, size)])
  }

  function SetFlag(headers: map<nat, Header>, pos: nat, flag: Flag): map<nat, Header> {
    headers[pos := HeaderAt(headers, pos).(flag := flag)]
  }

  function ApplyCommitSkip(s: State, w: nat): State
    requires w < |s.producers| && s.producers[w].Skipping? && s.producers[w].ticket.idx < |s.stages|
  {
    var p := s.producers[w];
    var pos := Slot(s.n, p.ticket.at);
    s.(headers := SetFlag(s.headers, pos, Ready),
       producers := s.producers[w := Trying(p.size)],
       stages := s.stages[p.ticket.idx := Committed],
       tenant := s.tenant[pos := p.ticket.idx])
  }

  /** The copy made by `write_to_buffer`, or a direct write through `get_as_span`. */
  function ApplyFill(s: State, i: nat, data: Bytes): State
    requires Outstanding(s, i)
  {
    var pos := Slot(s.n, s.log[i].start);
    s.(bytes := Splice(s.bytes, pos + HEADER_SIZE, data),
       contents := s.contents[i := Splice(s.contents[i], 0, data)])
  }

  function ApplyCommit(s: State, i: nat): State
    requires Outstanding(s, i)
  {
    var pos := Slot(s.n, s.log[i].start);
    s.(headers := SetFlag(s.headers, pos, Ready),
       stages := s.stages[i := Committed],
       tenant := s.tenant[pos := i])
  }

  function ApplyAbort(s: State, i: nat): State
    requires Outstanding(s, i)
  {
    var pos := Slot(s.n, s.log[i].start);
    var size := HeaderAt(s.headers, pos).size;
    s.(headers := SetFlag(s.headers, pos, Aborted),
       bytes := Splice(s.bytes, pos + HEADER_SIZE, Zeros(size)),
       stages := s.stages[i := Dropped],
       contents := s.contents[i := Zeros(size)],
       tenant := s.tenant[pos := i])
  }

  /** A flag loaded less than one lap ahead of the watermark. */
  predicate FreshLoad(s: State, r: nat)
    requires r < |s.readers|
  {
    s.readers[r].cursor < s.readOffset + s.n
  }

  /** First load of `poll_buffer`: the commit flag at the cursor's ring position. */
  function ApplyPollLoad(s: State, r: nat): State
    requires r < |s.readers|
  {
    var rd := s.readers[r];
    var flag := HeaderAt(s.headers, Slot(s.n, rd.cursor)).flag;
    if flag == NotReady then s
    else s.(readers := s.readers[r := rd.(phase := Seen(flag, FreshLoad(s, r)))])
  }

  /** The first statements of `release_buffer`: the cursor moves by the header's size. */
  function StartRelease(rd: Reader, header: Header, pos: nat): Reader {
    var total := header.size + HEADER_SIZE;
    rd.(cursor := rd.cursor + total, phase := Bumped(pos, total))
  }

  /** The rest of `poll_buffer`. READY is checked against the cursor; ABORTED is not. */
  function ApplyPollDecide(s: State, r: nat): State
    requires r < |s.readers| && s.readers[r].phase.Seen?
  {
    var rd := s.readers[r];
    var pos := Slot(s.n, rd.cursor);
    var header := HeaderAt(s.headers, pos);
    var rd' :=
      if rd.phase.flag == Aborted then StartRelease(rd, header, pos)
      else if header.absOffset != rd.cursor then rd.(phase := Resting)
      else if header.kind == Padding then StartRelease(rd, header, pos)
      else rd.(phase := Holding(pos, header.size + HEADER_SIZE));
    s.(readers := s.readers[r := rd'])
  }

  /** The payload a wrapper shows: `span` bytes from the header on, less the header. */
  function View(s: State, pos: nat, span: nat): Bytes {
    if span < HEADER_SIZE then [] else Slice(s.bytes, pos + HEADER_SIZE, span - HEADER_SIZE)
  }

  /** `release()` of a wrapper whose payload the reader has used. */
  function ApplyRelease(s: State, r: nat): State
    requires r < |s.readers| && s.readers[r].phase.Holding?
  {
    var rd := s.readers[r];
    var pos := rd.phase.pos;
    var rd' := StartRelease(rd, HeaderAt(s.headers, pos), pos);
    s.(readers := s.readers[r := rd'.(inbox := rd.inbox + [View(s, pos, rd.phase.span)])])
  }

  /** `num_readers.fetch_sub(1)` on 8 bits. */
  function ApplySub(s: State, r: nat): State
    requires r < |s.readers| && s.readers[r].phase.Bumped?
  {
    var rd := s.readers[r];
    var pos := rd.phase.pos;
    var header := HeaderAt(s.headers, pos);
    var prev := header.numReaders;
    var phase := if prev > 1 then Resting else Last(pos, rd.phase.total);
    s.(headers := s.headers[pos := header.(numReaders := (prev + READER_LIMIT - 1) % READER_LIMIT)],
       readers := s.readers[r := rd.(next := rd.next + 1, phase := phase)],
       closer := if prev > 1 then s.closer else Some(r))
  }

  /** The last reader clears the payload and the header; abs_offset stays behind. */
  function ApplyClear(s: State, r: nat): State
    requires r < |s.readers| && s.readers[r].phase.Last?
  {
    var rd := s.readers[r];
    var pos := rd.phase.pos;
    var header := HeaderAt(s.headers, pos);
    s.(headers := s.headers[pos := header.(size := 0, kind := Normal, flag := NotReady)],
       bytes := Splice(s.bytes, pos + HEADER_SIZE, Zeros(header.size)),
       readers := s.readers[r := rd.(phase := Wiped(rd.phase.total))],
       wiped := s.wiped + 1)
  }

  /** `read_offset.fetch_add(total_message_len)`. */
  function ApplyAdvance(s: State, r: nat): State
    requires r < |s.readers| && s.readers[r].phase.Wiped?
  {
    s.(readOffset := s.readOffset + s.readers[r].phase.total,
       readers := s.readers[r := s.readers[r].(phase := Resting)],
       retired := s.retired + 1,
       closer := None)
  }

  /** The header read by a poll's decision. */
  function PolledHeader(s: State, r: nat): Header
    requires r < |s.readers|
  {
    HeaderAt(s.headers, Slot(s.n, s.readers[r].cursor))
  }

  /** What the code takes for granted about a step. Every clause reads shared memory or
      a local just before the step.
      - There is room for one more reader in 8 bits.
      - A claim counts at least one reader and ends below 2^56.
      - If a decision is about to act on the header, the header is still the cursor's own
        and still carries the flag that was loaded (an ABORTED decision may also skip a
        committed padding block). `poll_buffer` makes only part of this test. */
  predicate Assumed(s: State, a: Action)
    requires Enabled(s, a)
  {
    match a
    case Join => s.count + 1 < READER_LIMIT
    case Cas(w) =>
      && s.count >= 1
      && s.offset + BumpLength(s.n, s.offset, s.producers[w].size + HEADER_SIZE) < OFFSET_LIMIT
    case PollDecide(r) =>
      var header := PolledHeader(s, r);
      var own := header.absOffset == s.readers[r].cursor;
      if s.readers[r].phase.flag == Aborted
      then own && (header.flag == Aborted || (header.flag == Ready && header.kind == Padding))
      else own ==> header.flag == Ready
    case _ => true
  }

  /** A run: every step enabled, and the assumptions met at every step. */
  ghost predicate Run(s: State, acts: seq<Action>)
    decreases |acts|
  {
    acts == [] || (Enabled(s, acts[0]) && Assumed(s, acts[0]) && Run(Apply(s, acts[0]), acts[1..]))
  }

  /** The state a run ends in. */
  ghost function After(s: State, acts: seq<Action>): State
    requires Run(s, acts)
    decreases |acts|
  {
    if acts == [] then s else After(Apply(s, acts[0]), acts[1..])
  }
}
