/** The packed message header as bytes, and stores to its fields. */
module HeaderBytes {
  import opened RingGeometry
  import opened Broadcast
  import opened RingModel

  function LittleEndian(v: nat, k: nat): (b: Bytes)
    ensures |b| == k
  {
    if k == 0 then [] else [v % 256] + LittleEndian(v / 256, k - 1)
  }

  function FromLittleEndian(b: Bytes): nat {
    if b == [] then 0 else b[0] + 256 * FromLittleEndian(b[1..])
  }

  function Pow256(k: nat): nat {
    if k == 0 then 1 else 256 * Pow256(k - 1)
  }

  lemma {:induction false} LittleEndianRoundTrip(v: nat, k: nat)
    requires v < Pow256(k)
    ensures FromLittleEndian(LittleEndian(v, k)) == v
  {
    if k > 0 {
      LittleEndianRoundTrip(v / 256, k - 1);
      assert LittleEndian(v, k)[1..] == LittleEndian(v / 256, k - 1);
    }
  }

  lemma Widths()
    ensures Pow256(4) == SIZE_LIMIT && Pow256(8) == 256 * OFFSET_LIMIT
  {
    assert Pow256(4) == SIZE_LIMIT;
    assert Pow256(7) == 0x100_0000 * Pow256(4);
  }

  lemma OffsetRoundTrip(v: nat)
    requires v < OFFSET_LIMIT
    ensures FromLittleEndian(LittleEndian(v, 8)) == v
  {
    Widths();
    hide LittleEndian, FromLittleEndian, Pow256;
    LittleEndianRoundTrip(v, 8);
  }

  lemma SizeRoundTrip(v: nat)
    requires v < SIZE_LIMIT
    ensures FromLittleEndian(LittleEndian(v, 4)) == v
  {
    Widths();
    hide LittleEndian, FromLittleEndian, Pow256;
    LittleEndianRoundTrip(v, 4);
  }

  function KindCode(kind: Kind): nat {
    if kind == Padding then 1 else 0
  }

  function KindOf(code: nat): Kind {
    if code == 1 then Padding else Normal
  }

  function FlagCode(flag: Flag): Byte {
    match flag
    case NotReady => 0
    case Ready => 1
    case Aborted => 2
  }

  /** An unknown flag falls to the default case of `poll_buffer`, as NOT_READY does. */
  function FlagOfByte(b: Byte): Flag {
    if b == 1 then Ready else if b == 2 then Aborted else NotReady
  }

  /** The struct, packed: abs_offset, message_size, type, num_readers, commit_flag. */
  function Encode(h: Header): (b: Bytes)
    ensures |b| == HEADER_SIZE
  {
    LittleEndian(h.absOffset, 8) + LittleEndian(h.size, 4) + LittleEndian(KindCode(h.kind), 4)
    + [h.numReaders % 256] + [FlagCode(h.flag)]
  }

  /** What a reader of the struct sees. */
  function Decode(b: Bytes): Header
    requires |b| == HEADER_SIZE
  {
    Header(FromLittleEndian(b[0..8]), FromLittleEndian(b[8..12]), KindOf(FromLittleEndian(b[12..16])),
           b[16], FlagOfByte(b[17]))
  }

  /** Fields within their widths. */
  predicate Fits(h: Header) {
    h.absOffset < OFFSET_LIMIT && h.size < SIZE_LIMIT && h.numReaders < READER_LIMIT
  }

  lemma HeaderRoundTrip(h: Header)
    requires Fits(h)
    ensures Decode(Encode(h)) == h
  {
    hide LittleEndian, FromLittleEndian;
    var b := Encode(h);
    OffsetRoundTrip(h.absOffset);
    SizeRoundTrip(h.size);
    SizeRoundTrip(KindCode(h.kind));
    assert b[0..8] == LittleEndian(h.absOffset, 8);
    assert b[8..12] == LittleEndian(h.size, 4);
    assert b[12..16] == LittleEndian(KindCode(h.kind), 4);
  }

  /** The codes of the struct's two enumerations, as they lie in memory: a header is padding
      exactly when its type field reads 1, and acted on exactly when its flag reads 1 or 2. */
  lemma TypeAndFlagCodes(h: Header, b: Bytes)
    requires |b| == HEADER_SIZE
    ensures Encode(h)[12..16] == (if h.kind == Padding then [1, 0, 0, 0] else [0, 0, 0, 0])
    ensures Encode(h)[17] == (match h.flag case NotReady => 0 case Ready => 1 case Aborted => 2)
    ensures Decode(b).kind == Padding <==> b[12..16] == [1, 0, 0, 0]
    ensures Decode(b).flag == Ready <==> b[17] == 1
    ensures Decode(b).flag == Aborted <==> b[17] == 2
  {
    hide LittleEndian, FromLittleEndian;
    FourBytes(KindCode(h.kind), b[12..16]);
    assert Encode(h)[12..16] == LittleEndian(KindCode(h.kind), 4);
  }

  lemma FourBytes(code: nat, b: Bytes)
    requires code < 256 && |b| == 4
    ensures LittleEndian(code, 4) == [code, 0, 0, 0]
    ensures FromLittleEndian(b) == 1 <==> b == [1, 0, 0, 0]
  {
    assert LittleEndian(0, 3) == [0] + LittleEndian(0, 2);
    assert LittleEndian(0, 2) == [0] + LittleEndian(0, 1) == [0, 0];
    assert b[1..][1..] == b[2..] && b[2..][1..] == b[3..] && b[3..][1..] == [];
    assert FromLittleEndian(b) == b[0] + 256 * FromLittleEndian(b[1..]);
    assert FromLittleEndian(b[1..]) == b[1] + 256 * FromLittleEndian(b[2..]);
    assert FromLittleEndian(b[2..]) == b[2] + 256 * FromLittleEndian(b[3..]);
    assert FromLittleEndian(b[3..]) == b[3] + 256 * FromLittleEndian([]);
  }

  // ---------------------------------------------------------------- a header in the ring

  /** The header that the bytes from ring position p on amount to. */
  function HeaderIn(raw: Bytes, p: nat): Header {
    if p + HEADER_SIZE <= |raw| then Decode(raw[p..p + HEADER_SIZE]) else ZERO_HEADER
  }

  lemma SplicedByte(raw: Bytes, at: nat, data: Bytes, x: nat)
    requires x < |raw| && at + |data| <= |raw|
    ensures Splice(raw, at, data)[x] == if at <= x < at + |data| then data[x - at] else raw[x]
  {
  }

  lemma SpliceInside(raw: Bytes, p: nat, len: nat, field: nat, data: Bytes)
    requires p + len <= |raw| && field + |data| <= len
    ensures Splice(raw, p + field, data)[p..p + len] == Splice(raw[p..p + len], field, data)
  {
    hide Splice;
    var left, right := Splice(raw, p + field, data)[p..p + len], Splice(raw[p..p + len], field, data);
    assert |left| == |right| == len;
    forall x | 0 <= x < len ensures left[x] == right[x] {
      SplicedByte(raw, p + field, data, p + x);
      SplicedByte(raw[p..p + len], field, data, x);
    }
  }

  /** Equal bytes are equal headers. */
  lemma SameHeader(raw: Bytes, raw': Bytes, p: nat)
    requires |raw| == |raw'| && p + HEADER_SIZE <= |raw|
    requires forall x :: p <= x < p + HEADER_SIZE ==> raw'[x] == raw[x]
    ensures HeaderIn(raw', p) == HeaderIn(raw, p)
  {
    assert raw'[p..p + HEADER_SIZE] == raw[p..p + HEADER_SIZE];
  }

  // Stores to the fields.

  lemma FieldKept(b: Bytes, field: nat, data: Bytes, lo: nat, hi: nat)
    requires field + |data| <= |b| && lo <= hi <= |b| && (hi <= field || field + |data| <= lo)
    ensures Splice(b, field, data)[lo..hi] == b[lo..hi]
  {
    hide Splice;
    var left, right := Splice(b, field, data)[lo..hi], b[lo..hi];
    forall x | 0 <= x < hi - lo ensures left[x] == right[x] {
      SplicedByte(b, field, data, lo + x);
    }
  }

  lemma FieldSet(b: Bytes, field: nat, data: Bytes)
    requires field + |data| <= |b|
    ensures Splice(b, field, data)[field..field + |data|] == data
  {
    hide Splice;
    var left := Splice(b, field, data)[field..field + |data|];
    forall x | 0 <= x < |data| ensures left[x] == data[x] {
      SplicedByte(b, field, data, field + x);
    }
  }

  /** A store to one field is a store to that field of the decoded bytes. */
  lemma FieldStore(raw: Bytes, p: nat, field: nat, data: Bytes)
    requires p + HEADER_SIZE <= |raw| && field + |data| <= HEADER_SIZE
    ensures HeaderIn(raw, p) == Decode(raw[p..p + HEADER_SIZE])
    ensures HeaderIn(Splice(raw, p + field, data), p) == Decode(Splice(raw[p..p + HEADER_SIZE], field, data))
  {
    SpliceInside(raw, p, HEADER_SIZE, field, data);
  }

  lemma StoreOffset(raw: Bytes, p: nat, v: nat)
    requires p + HEADER_SIZE <= |raw| && v < OFFSET_LIMIT
    ensures HeaderIn(Splice(raw, p + 0, LittleEndian(v, 8)), p) == HeaderIn(raw, p).(absOffset := v)
  {
    hide Splice, HeaderIn, LittleEndian, FromLittleEndian;
    OffsetRoundTrip(v);
    var b, data := raw[p..p + HEADER_SIZE], LittleEndian(v, 8);
    FieldStore(raw, p, 0, data);
    FieldSet(b, 0, data);
    FieldKept(b, 0, data, 8, 12);
    FieldKept(b, 0, data, 12, 16);
    SplicedByte(b, 0, data, 16);
    SplicedByte(b, 0, data, 17);
  }

  lemma StoreSize(raw: Bytes, p: nat, v: nat)
    requires p + HEADER_SIZE <= |raw| && v < SIZE_LIMIT
    ensures HeaderIn(Splice(raw, p + 8, LittleEndian(v, 4)), p) == HeaderIn(raw, p).(size := v)
  {
    hide Splice, HeaderIn, LittleEndian, FromLittleEndian;
    SizeRoundTrip(v);
    var b, data := raw[p..p + HEADER_SIZE], LittleEndian(v, 4);
    FieldStore(raw, p, 8, data);
    FieldKept(b, 8, data, 0, 8);
    FieldSet(b, 8, data);
    FieldKept(b, 8, data, 12, 16);
    SplicedByte(b, 8, data, 16);
    SplicedByte(b, 8, data, 17);
  }

  lemma StoreKind(raw: Bytes, p: nat, kind: Kind)
    requires p + HEADER_SIZE <= |raw|
    ensures HeaderIn(Splice(raw, p + 12, LittleEndian(KindCode(kind), 4)), p) == HeaderIn(raw, p).(kind := kind)
  {
    hide Splice, HeaderIn, LittleEndian, FromLittleEndian;
    SizeRoundTrip(KindCode(kind));
    var b, data := raw[p..p + HEADER_SIZE], LittleEndian(KindCode(kind), 4);
    FieldStore(raw, p, 12, data);
    FieldKept(b, 12, data, 0, 8);
    FieldKept(b, 12, data, 8, 12);
    FieldSet(b, 12, data);
    SplicedByte(b, 12, data, 16);
    SplicedByte(b, 12, data, 17);
  }

  lemma StoreReaders(raw: Bytes, p: nat, v: Byte)
    requires p + HEADER_SIZE <= |raw|
    ensures HeaderIn(Splice(raw, p + 16, [v]), p) == HeaderIn(raw, p).(numReaders := v)
  {
    hide Splice, HeaderIn, FromLittleEndian;
    var b := raw[p..p + HEADER_SIZE];
    FieldStore(raw, p, 16, [v]);
    FieldKept(b, 16, [v], 0, 8);
    FieldKept(b, 16, [v], 8, 12);
    FieldKept(b, 16, [v], 12, 16);
    SplicedByte(b, 16, [v], 16);
    SplicedByte(b, 16, [v], 17);
  }

  lemma StoreFlag(raw: Bytes, p: nat, flag: Flag)
    requires p + HEADER_SIZE <= |raw|
    ensures HeaderIn(Splice(raw, p + 17, [FlagCode(flag)]), p) == HeaderIn(raw, p).(flag := flag)
  {
    hide Splice, HeaderIn, FromLittleEndian;
    var b, data := raw[p..p + HEADER_SIZE], [FlagCode(flag)];
    FieldStore(raw, p, 17, data);
    FieldKept(b, 17, data, 0, 8);
    FieldKept(b, 17, data, 8, 12);
    FieldKept(b, 17, data, 12, 16);
    SplicedByte(b, 17, data, 16);
    SplicedByte(b, 17, data, 17);
  }
}
