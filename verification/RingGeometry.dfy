/**
 Constants of the shared layout and the modular arithmetic of the ring: where an
 absolute offset lands, how many bytes a claim takes, and when two claims are
 kept apart.
 */
module RingGeometry {
  import opened Division

  // sizeof(MessageHeader), packed: 8 + 4 + 4 + 1 + 1 bytes.
  const HEADER_SIZE: nat := 18
  // Largest ring the constructor accepts: 1 GiB.
  const MAX_QUEUE_SIZE: nat := 0x4000_0000
  // The write offset occupies 56 bits of the shared word.
  const OFFSET_LIMIT: nat := 0x100_0000_0000_0000
  // The reader count occupies the other 8.
  const READER_LIMIT: nat := 256
  // message_size is a uint32_t.
  const SIZE_LIMIT: nat := 0x1_0000_0000

  type RingSize = n: nat | 0 < n witness 1

  /** Ring position of an absolute offset. */
  function Slot(n: RingSize, offset: nat): (p: nat)
    ensures p < n
  {
    offset % n
  }

  /** Bytes from an offset's ring position to the end of the ring. */
  function Remaining(n: RingSize, offset: nat): (bytes: nat)
    ensures 0 < bytes <= n
  {
    n - Slot(n, offset)
  }

  /** Bytes the compare-and-swap loop adds to the write offset. */
  function BumpLength(n: RingSize, offset: nat, total: nat): nat {
    if total + HEADER_SIZE <= Remaining(n, offset) then total else Remaining(n, offset)
  }

  /** The test made again, after the wait, to choose between a message and a skip. */
  predicate NeedsSkip(n: RingSize, offset: nat, total: nat) {
    total + HEADER_SIZE > Remaining(n, offset)
  }

  lemma SlotUnique(n: RingSize, offset: nat, lap: nat, p: nat)
    requires offset == lap * n + p && p < n
    ensures Slot(n, offset) == p
  {
    DivModUnique(n, lap, p, offset);
  }

  /** An offset as a lap number and a ring position. */
  lemma Laps(n: RingSize, offset: nat) returns (lap: nat)
    ensures offset == lap * n + Slot(n, offset)
  {
    lap := offset / n;
  }

  /** Moving on inside a lap moves the ring position by the same amount. */
  lemma SlotAdvance(n: RingSize, offset: nat, d: nat)
    requires Slot(n, offset) + d < n
    ensures Slot(n, offset + d) == Slot(n, offset) + d
  {
    var lap := Laps(n, offset);
    hide Slot;
    SlotUnique(n, offset + d, lap, Slot(n, offset) + d);
  }

  /** Taking all that is left of a lap lands on a lap boundary. */
  lemma SlotRoundUp(n: RingSize, offset: nat)
    ensures Slot(n, offset + Remaining(n, offset)) == 0
  {
    var lap := Laps(n, offset);
    hide Slot;
    assert offset + Remaining(n, offset) == (lap + 1) * n + 0;
    SlotUnique(n, offset + Remaining(n, offset), lap + 1, 0);
  }

  /** Offsets at the same ring position are a whole number of laps apart. */
  lemma SameSlotApart(n: RingSize, a: nat, b: nat)
    requires a < b && Slot(n, a) == Slot(n, b)
    ensures a + n <= b
  {
    var la := Laps(n, a);
    var lb := Laps(n, b);
    hide Slot;
    if lb < la {
      LapOrder(n, lb, la);
    } else if la < lb {
      LapOrder(n, la, lb);
    }
  }

  /** Two ring ranges share no byte. */
  predicate Disjoint(p: nat, a: nat, q: nat, b: nat) {
    p + a <= q || q + b <= p
  }

  /** Two blocks that follow each other in the log within one window of n bytes,
      neither crossing the ring end, occupy disjoint ring ranges. */
  lemma WindowDisjoint(n: RingSize, x: nat, a: nat, y: nat, b: nat)
    requires x + a <= y && y + b <= x + n
    requires Slot(n, x) + a <= n && Slot(n, y) + b <= n
    ensures Disjoint(Slot(n, x), a, Slot(n, y), b)
  {
    var lx := Laps(n, x);
    var ly := Laps(n, y);
    hide Slot;
    if ly < lx {
      LapOrder(n, ly, lx);
    } else if ly > lx + 1 {
      LapOrder(n, lx + 1, ly);
    } else if ly == lx + 1 {
      assert ly * n == lx * n + n;
    }
  }

  /** A claim keeps the room for one more header before the ring end, stays inside
      the lap, and takes exactly the bytes that the later decision writes about. */
  lemma ClaimShape(n: RingSize, offset: nat, total: nat)
    requires Slot(n, offset) + HEADER_SIZE <= n
    ensures var len := BumpLength(n, offset, total);
      && Slot(n, offset) + len <= n
      && Slot(n, offset + len) + HEADER_SIZE <= n
      && (NeedsSkip(n, offset, total) ==>
            && len == Remaining(n, offset)
            && HEADER_SIZE <= len
            && Slot(n, offset + len) == 0)
      && (!NeedsSkip(n, offset, total) ==>
            && len == total
            && Slot(n, offset) + len + HEADER_SIZE <= n)
  {
    if NeedsSkip(n, offset, total) {
      SlotRoundUp(n, offset);
    } else {
      SlotAdvance(n, offset, total);
    }
  }

  /** A claim of `size` payload bytes at `offset` finds only room for a skip. */
  predicate Skips(n: RingSize, offset: nat, size: nat) {
    NeedsSkip(n, offset, size + HEADER_SIZE)
  }

  /** Where an uncontested retry lands after the claim at `offset`. */
  function NextTry(n: RingSize, offset: nat, size: nat): nat {
    offset + BumpLength(n, offset, size + HEADER_SIZE)
  }

  /** A claim, retried without competition, becomes a message after at most one skip
      exactly when two headers fit beside it in the ring. For the larger sizes that
      the guard of `claim_buffer` still admits, every try at every offset is a skip,
      however often it is repeated. */
  lemma ClaimSucceedsIff(n: RingSize, size: nat)
    requires HEADER_SIZE <= n && 1 <= size <= n - HEADER_SIZE
    ensures size + 2 * HEADER_SIZE <= n <==>
            forall offset: nat :: !Skips(n, offset, size) || !Skips(n, NextTry(n, offset, size), size)
    ensures size + 2 * HEADER_SIZE > n <==>
            forall offset: nat :: Skips(n, offset, size)
  {
    assert Slot(n, 0) == 0 by { SlotUnique(n, 0, 0, 0); }
    if size + 2 * HEADER_SIZE <= n {
      forall offset: nat
        ensures !Skips(n, offset, size) || !Skips(n, NextTry(n, offset, size), size)
      {
        SlotRoundUp(n, offset);
      }
      assert !Skips(n, 0, size);
    } else {
      assert Skips(n, 0, size) && Skips(n, NextTry(n, 0, size), size);
    }
  }
}
