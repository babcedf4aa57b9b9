/**
 The 64-bit word that packs the reader count (8 bits) with the write offset (56 bits),
 with the shifts and masks of `UnpackedReadersAndWriterOffset`.
 */
module PackedWord {
  import opened Division
  import opened Bits
  import opened RingGeometry

  const WORD_LIMIT: nat := 0x1_0000_0000_0000_0000
  const COUNT_MASK: nat := 0xFF
  const OFFSET_MASK: nat := 0x00FF_FFFF_FFFF_FFFF
  const SHIFTED_MASK: nat := 0xFFFF_FFFF_FFFF_FF00

  type Word = v: nat | v < WORD_LIMIT

  /** The two masks of `unwrap`. */
  function UnwrapCount(v: Word): nat {
    And(v, COUNT_MASK)
  }

  function UnwrapOffset(v: Word): nat {
    And(v / 256, OFFSET_MASK)
  }

  /** The expression that the three return_ functions end with, in 64-bit arithmetic. */
  function Repack(count: Word, offset: Word): nat {
    Or(And(count, COUNT_MASK), And((offset * 256) % WORD_LIMIT, SHIFTED_MASK))
  }

  lemma Powers()
    ensures Pow2(8) == READER_LIMIT && Pow2(56) == OFFSET_LIMIT && Pow2(64) == WORD_LIMIT
  {
    assert Pow2(8) == 256;
    assert Pow2(16) == 256 * Pow2(8);
    assert Pow2(24) == 256 * Pow2(16);
    assert Pow2(32) == 256 * Pow2(24);
    assert Pow2(40) == 256 * Pow2(32);
    assert Pow2(48) == 256 * Pow2(40);
    assert Pow2(56) == 256 * Pow2(48);
    assert Pow2(64) == 256 * Pow2(56);
  }

  lemma UnwrapMeans(v: Word)
    ensures UnwrapCount(v) == v % READER_LIMIT && UnwrapOffset(v) == v / READER_LIMIT
    ensures UnwrapCount(v) < READER_LIMIT && UnwrapOffset(v) < OFFSET_LIMIT
  {
    Powers();
    AndMask(v, 8);
    AndMask(v / 256, 56);
    DivModUnique(OFFSET_LIMIT, 0, v / 256, v / 256);
  }

  lemma RepackMeans(count: Word, offset: Word)
    ensures Repack(count, offset) == count % READER_LIMIT + (offset % OFFSET_LIMIT) * READER_LIMIT
    ensures Repack(count, offset) < WORD_LIMIT
  {
    Powers();
    hide And, Or, Pow2;
    var kept := offset % OFFSET_LIMIT;
    AndMask(count, 8);
    DivModUnique(WORD_LIMIT, offset / OFFSET_LIMIT, kept * 256, offset * 256);
    AndShift(kept, OFFSET_MASK, 8);
    AndMask(kept, 56);
    OrDisjoint(count % 256, kept, 8);
  }

  /** The count is in bits 0 to 7 and the offset in bits 8 to 63; unwrapping inverts packing,
      and packing inverts unwrapping. */
  lemma PackRoundTrip(count: nat, offset: nat, v: Word)
    requires count < READER_LIMIT && offset < OFFSET_LIMIT
    ensures Repack(count, offset) < WORD_LIMIT
    ensures UnwrapCount(Repack(count, offset)) == count && UnwrapOffset(Repack(count, offset)) == offset
    ensures Repack(count, offset) == offset * 256 + count
    ensures UnwrapCount(v) < WORD_LIMIT && UnwrapOffset(v) < WORD_LIMIT
    ensures Repack(UnwrapCount(v), UnwrapOffset(v)) == v
  {
    hide And, Or, UnwrapCount, UnwrapOffset, Repack;
    RepackFields(count, offset);
    RepackMeans(count, offset);
    Uncut(count, offset);
    UnwrapMeans(v);
    RepackMeans(UnwrapCount(v), UnwrapOffset(v));
  }

  // ---------------------------------------------------------------- updates

  /** One successful compare-and-swap on the word. */
  datatype WordOp = AddReader | SubReader | AddOffset(bytes: Word)

  /** What the code computes: unwrap, change one 64-bit field, pack. */
  function Update(v: Word, op: WordOp): Word {
    UnwrapMeans(v);
    var count, offset := UnwrapCount(v), UnwrapOffset(v);
    var count' := match op
      case AddReader => count + 1
      case SubReader => (count + WORD_LIMIT - 1) % WORD_LIMIT
      case AddOffset(_) => count;
    var offset' := match op
      case AddOffset(bytes) => (offset + bytes) % WORD_LIMIT
      case _ => offset;
    RepackMeans(count', offset');
    Repack(count', offset')
  }

  /** The same on a pair of counters of 8 and 56 bits. */
  function UpdatePair(p: (nat, nat), op: WordOp): (nat, nat) {
    match op
    case AddReader => ((p.0 + 1) % READER_LIMIT, p.1)
    case SubReader => ((p.0 + READER_LIMIT - 1) % READER_LIMIT, p.1)
    case AddOffset(bytes) => (p.0, (p.1 + bytes) % OFFSET_LIMIT)
  }

  function Unwrap(v: Word): (nat, nat) {
    (UnwrapCount(v), UnwrapOffset(v))
  }

  function UpdateAll(v: Word, ops: seq<WordOp>): Word
    decreases |ops|
  {
    if ops == [] then v else UpdateAll(Update(v, ops[0]), ops[1..])
  }

  function UpdatePairAll(p: (nat, nat), ops: seq<WordOp>): (nat, nat)
    decreases |ops|
  {
    if ops == [] then p else UpdatePairAll(UpdatePair(p, ops[0]), ops[1..])
  }

  /** Each update changes its own field, modulo its width, and leaves the other alone. */
  lemma UpdateIsPair(v: Word, op: WordOp)
    ensures Unwrap(Update(v, op)) == UpdatePair(Unwrap(v), op)
  {
    hide Repack, UnwrapCount, UnwrapOffset;
    UnwrapMeans(v);
    var count, offset := UnwrapCount(v), UnwrapOffset(v);
    Uncut(count, offset);
    match op
    case AddReader => RepackFields(count + 1, offset);
    case SubReader =>
      RepackFields((count + WORD_LIMIT - 1) % WORD_LIMIT, offset);
      CountDown(count);
    case AddOffset(bytes) =>
      RepackFields(count, (offset + bytes) % WORD_LIMIT);
      ModOfMultiple(offset + bytes, READER_LIMIT, OFFSET_LIMIT, WORD_LIMIT);
  }

  lemma OffsetMoved(v: Word, count: nat, offset: nat, bytes: Word)
    requires Unwrap(v) == (count, offset) && offset + bytes < OFFSET_LIMIT
    ensures Unwrap(Update(v, AddOffset(bytes))) == (count, offset + bytes)
  {
    hide Update, Unwrap;
    UpdateIsPair(v, AddOffset(bytes));
    Uncut(0, offset + bytes);
  }

  lemma Uncut(count: nat, offset: nat)
    requires count < READER_LIMIT && offset < OFFSET_LIMIT
    ensures count % READER_LIMIT == count && offset % OFFSET_LIMIT == offset
  {
  }

  /** Subtracting one in 64 bits and cutting to 8 is subtracting one in 8. */
  lemma CountDown(count: nat)
    requires count < READER_LIMIT
    ensures (count + WORD_LIMIT - 1) % WORD_LIMIT % READER_LIMIT == (count + READER_LIMIT - 1) % READER_LIMIT
  {
    if count == 0 {
      assert (WORD_LIMIT - 1) % READER_LIMIT == READER_LIMIT - 1;
    } else {
      assert (count + WORD_LIMIT - 1) % WORD_LIMIT == count - 1;
      assert (count + READER_LIMIT - 1) % READER_LIMIT == count - 1;
    }
  }

  lemma RepackFields(count: Word, offset: Word)
    ensures Repack(count, offset) < WORD_LIMIT
    ensures UnwrapCount(Repack(count, offset)) == count % READER_LIMIT
    ensures UnwrapOffset(Repack(count, offset)) == offset % OFFSET_LIMIT
  {
    hide And, Or, UnwrapCount, UnwrapOffset, Repack;
    RepackMeans(count, offset);
    UnwrapMeans(Repack(count, offset));
    DivModUnique(READER_LIMIT, offset % OFFSET_LIMIT, count % READER_LIMIT, Repack(count, offset));
  }

  /** The packed word refines the pair: any sequence of joins, leaves and claims, in any
      order, has the same effect on both, wrap-around included. */
  lemma {:induction false} WordRefinesPair(v: Word, ops: seq<WordOp>)
    ensures Unwrap(UpdateAll(v, ops)) == UpdatePairAll(Unwrap(v), ops)
    decreases |ops|
  {
    hide Unwrap, Update, UpdatePair;
    if ops != [] {
      UpdateIsPair(v, ops[0]);
      WordRefinesPair(Update(v, ops[0]), ops[1..]);
    }
  }

  /** For every ring size that the constructor accepts, the offset cut to 56 bits and the
      offset itself give the same ring position. */
  lemma TruncatedOffsetSameSlot(n: RingSize, offset: nat)
    requires IsPowerOfTwo(n) && n <= OFFSET_LIMIT
    ensures Slot(n, offset % OFFSET_LIMIT) == Slot(n, offset)
  {
    Powers();
    var k := Exponent(n);
    if k > 56 {
      var c := Pow2Divides(57, k);
      Pow2Positive(c, 57);
    }
    TruncationKeepsRemainder(offset, k, 56);
  }

  lemma Pow2Positive(c: nat, k: nat)
    requires c * Pow2(k) > 0
    ensures c * Pow2(k) >= Pow2(k)
  {
    assert c * Pow2(k) == (c - 1) * Pow2(k) + Pow2(k);
  }

  /** The size guard of `claim_buffer`, in unsigned 64-bit arithmetic. */
  predicate Oversized(n: RingSize, size: Word) {
    size > (n + WORD_LIMIT - HEADER_SIZE) % WORD_LIMIT
  }

  /** `total_message_len`, and the test for a skip made on it, in the same arithmetic. */
  function TotalLength(size: Word): Word {
    (size + HEADER_SIZE) % WORD_LIMIT
  }

  predicate SkipsWord(n: RingSize, offset: nat, size: Word) {
    (TotalLength(size) + HEADER_SIZE) % WORD_LIMIT > Remaining(n, offset)
  }

  /** The guard means what it says exactly when the ring holds a header. */
  lemma GuardMeansFitsIff(n: RingSize)
    requires n <= MAX_QUEUE_SIZE
    ensures HEADER_SIZE <= n
            <==> forall size: Word :: Oversized(n, size) <==> size + HEADER_SIZE > n
  {
    if n < HEADER_SIZE {
      assert !Oversized(n, n) && n + HEADER_SIZE > n;
    }
  }

  /** Then no sum wraps around for a size that it admits. */
  lemma AdmittedDoesNotWrap(n: RingSize, offset: nat, size: Word)
    requires HEADER_SIZE <= n <= MAX_QUEUE_SIZE && !Oversized(n, size)
    ensures TotalLength(size) == size + HEADER_SIZE
    ensures SkipsWord(n, offset, size) <==> Skips(n, offset, size)
  {
    hide Slot;
    assert size + 2 * HEADER_SIZE < WORD_LIMIT;
  }

  /** A smaller ring, which the constructor also accepts, has no room for the header of any
      claim (318 fails for a skip). The guard wraps around and refuses only sizes near
      2^64; a claim is a skip exactly unless both sums of its size wrap around to at most
      what is left of the lap, and then its bump moves the write offset backwards. */
  lemma TinyRing(n: RingSize, offset: nat, size: Word)
    requires n < HEADER_SIZE
    ensures Slot(n, offset) + HEADER_SIZE > n
    ensures Oversized(n, size) <==> size > WORD_LIMIT - HEADER_SIZE + n
    ensures !SkipsWord(n, offset, size)
            <==> WORD_LIMIT - 2 * HEADER_SIZE <= size <= WORD_LIMIT - 2 * HEADER_SIZE + Remaining(n, offset)
    ensures !SkipsWord(n, offset, size) ==> WORD_LIMIT - HEADER_SIZE <= TotalLength(size)
  {
    hide Slot;
    var twice := size + 2 * HEADER_SIZE;
    assert (TotalLength(size) + HEADER_SIZE) % WORD_LIMIT == if twice < WORD_LIMIT then twice else twice - WORD_LIMIT;
  }

  /** The struct itself: `unwrap` fills its fields, and each return_ function first
      changes one of them and then packs. */
  class UnpackedReadersAndWriterOffset {
    var numReaders: Word
    var writeOffset: Word
    var originalValue: Word

    constructor (value: Word)
      ensures (numReaders, writeOffset) == Unwrap(value) && originalValue == value
    {
      UnwrapMeans(value);
      numReaders, writeOffset, originalValue := UnwrapCount(value), UnwrapOffset(value), value;
    }

    method Reload(value: Word)
      modifies this
      ensures (numReaders, writeOffset) == Unwrap(value) && originalValue == value
    {
      UnwrapMeans(value);
      numReaders, writeOffset, originalValue := UnwrapCount(value), UnwrapOffset(value), value;
    }

    method ReturnAddReader() returns (desired: Word)
      requires (numReaders, writeOffset) == Unwrap(originalValue)
      modifies this`numReaders
      ensures numReaders == old(numReaders) + 1
      ensures desired == Update(originalValue, AddReader)
    {
      hide And, Or, UnwrapCount, UnwrapOffset, Repack;
      UnwrapMeans(originalValue);
      numReaders := numReaders + 1;
      RepackMeans(numReaders, writeOffset);
      desired := Repack(numReaders, writeOffset);
    }

    method ReturnSubReader() returns (desired: Word)
      requires (numReaders, writeOffset) == Unwrap(originalValue)
      modifies this`numReaders
      ensures numReaders == (old(numReaders) + WORD_LIMIT - 1) % WORD_LIMIT
      ensures desired == Update(originalValue, SubReader)
    {
      hide And, Or, UnwrapCount, UnwrapOffset, Repack;
      UnwrapMeans(originalValue);
      numReaders := (numReaders + WORD_LIMIT - 1) % WORD_LIMIT;
      RepackMeans(numReaders, writeOffset);
      desired := Repack(numReaders, writeOffset);
    }

    method ReturnAddOffset(messageSize: Word) returns (desired: Word)
      requires (numReaders, writeOffset) == Unwrap(originalValue)
      modifies this`writeOffset
      ensures writeOffset == (old(writeOffset) + messageSize) % WORD_LIMIT
      ensures desired == Update(originalValue, AddOffset(messageSize))
    {
      hide And, Or, UnwrapCount, UnwrapOffset, Repack;
      UnwrapMeans(originalValue);
      writeOffset := (writeOffset + messageSize) % WORD_LIMIT;
      RepackMeans(numReaders, writeOffset);
      desired := Repack(numReaders, writeOffset);
    }
  }
}
