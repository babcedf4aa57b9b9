/**
 The mapped file: the packed word, the watermark, the headers and the payload bytes, as
 one object that every agent updates in place. A ghost copy of the step system's state
 moves along with it; `Valid` ties the two.
 */
module SharedMemory {
  import opened RingGeometry
  import opened Broadcast
  import opened Bits
  import opened PackedWord
  import opened RingModel
  import opened RingInvariant
  import opened RingSafety

  /** What the constructor of a queue makes of a requested ring size. */
  datatype Creation = Created(ring: SharedRing) | TooLarge | NotPowerOfTwo

  /** The two size tests of the constructor, then `init_new_file`. Sizes too small for one
      header are accepted too, but such a ring is of no use: see TinyRing. */
  method CreateRing(size: Word, ghost producers: nat) returns (result: Creation)
    ensures result.TooLarge? <==> size > 1024 * 1024 * 1024
    ensures result.NotPowerOfTwo? <==> size <= 1024 * 1024 * 1024 && !exists k :: size == Pow2(k)
    ensures result.Created? ==>
              && result.ring.n == size == result.ring.bytes.Length
              && (forall x :: 0 <= x < size ==> result.ring.bytes[x] == 0)
              && result.ring.word == 0 && result.ring.readOffset == 0 && result.ring.headers == map[]
              && |result.ring.model.producers| == producers
    ensures result.Created? ==>
              && fresh(result.ring) && fresh(result.ring.bytes) && result.ring.Agrees()
              && result.ring.model == FreshState(size, producers) && result.ring.departed == 0
              && (HEADER_SIZE <= size ==> result.ring.Valid() && Init(result.ring.model))
  {
    PowerOfTwoIff(size);
    if size > MAX_QUEUE_SIZE {
      result := TooLarge;
    } else if !IsPowerOfTwo(size) {
      result := NotPowerOfTwo;
    } else {
      var ring := new SharedRing(size, producers);
      result := Created(ring);
    }
  }

  /** The contents of a new file. `producers` is the number of producers that will ever
      attach. */
  ghost function FreshState(size: RingSize, producers: nat): State {
    State(size, 0, 0, 0, map[], Zeros(size), seq(producers, _ => Idle), [], [], [], [], 0, 0, None, map[])
  }

  class SharedRing {
    const n: RingSize
    var word: Word
    var readOffset: nat
    var headers: map<nat, Header>
    const bytes: array<Byte>
    ghost var model: State
    // Readers that have left the count. Their blocks are drained, not recounted.
    ghost var departed: nat

    /** The fields are what the step system says they are. */
    ghost predicate Agrees()
      reads this, bytes
    {
      && model.n == n == bytes.Length
      && IsPowerOfTwo(n)
      && departed <= model.count && Unwrap(word) == (model.count - departed, model.offset)
      && readOffset == model.readOffset
      && headers == model.headers
      && bytes[..] == model.bytes
    }

    ghost predicate Valid()
      reads this, bytes
    {
      Inv(model) && Agrees()
    }

    /** `init_new_file`, after the size test of the constructor. */
    constructor (size: RingSize, ghost producers: nat)
      requires size <= MAX_QUEUE_SIZE && IsPowerOfTwo(size)
      ensures n == size == bytes.Length && forall x :: 0 <= x < size ==> bytes[x] == 0
      ensures word == 0 && readOffset == 0 && headers == map[]
      ensures Agrees() && model == FreshState(size, producers) && |model.producers| == producers
      ensures HEADER_SIZE <= size ==> Valid() && Init(model)
      ensures departed == 0 && fresh(bytes)
    {
      n := size;
      word := 0;
      readOffset := 0;
      headers := map[];
      bytes := new Byte[size](_ => 0);
      model := FreshState(size, producers);
      departed := 0;
      new;
      UnwrapMeans(0);
      if HEADER_SIZE <= size { InitInv(model); }
    }

    /** One step of the step system, taken by the ghost copy. */
    ghost method Step(a: Action)
      requires Enabled(model, a) && Assumed(model, a) && Inv(model)
      modifies this`model
      ensures model == Apply(old(model), a) && Inv(model)
    {
      hide Inv, Apply, Enabled, Assumed;
      StepInv(model, a);
      model := Apply(model, a);
    }

    /** memset to zero. */
    method Zero(at: nat, k: nat)
      requires at + k <= bytes.Length
      modifies bytes
      ensures bytes[..] == Splice(old(bytes[..]), at, Zeros(k))
    {
      for i := 0 to k
        invariant forall j :: 0 <= j < bytes.Length ==>
                    bytes[j] == if at <= j < at + i then 0 else old(bytes[j])
      {
        bytes[at + i] := 0;
      }
    }

    /** memcpy into the ring. */
    method CopyIn(at: nat, data: Bytes)
      requires at + |data| <= bytes.Length
      modifies bytes
      ensures bytes[..] == Splice(old(bytes[..]), at, data)
    {
      for i := 0 to |data|
        invariant forall j :: 0 <= j < bytes.Length ==>
                    bytes[j] == if at <= j < at + i then data[j - at] else old(bytes[j])
      {
        bytes[at + i] := data[i];
      }
    }

    /** memcpy out of the ring into a caller's buffer. */
    method CopyOut(at: nat, k: nat, dest: array<Byte>)
      requires at + k <= bytes.Length && k <= dest.Length && dest != bytes
      modifies dest
      ensures dest[..k] == Slice(bytes[..], at, k)
      ensures dest[k..] == old(dest[k..])
    {
      for i := 0 to k
        invariant forall j :: 0 <= j < i ==> dest[j] == bytes[at + j]
        invariant dest[k..] == old(dest[k..])
      {
        dest[i] := bytes[at + i];
      }
    }

    /** `modify_readers(true)`. `failures` is how often the weak compare-and-swap fails
        without cause. The new reader's cursor is the write offset that it saw. */
    method AddReader(failures: nat) returns (offset: nat)
      requires Valid() && model.count + 1 < READER_LIMIT
      modifies this`word, this`model
      ensures Valid() && model == Apply(old(model), Join)
      ensures offset == model.readers[|old(model).readers|].cursor == old(model).offset
      ensures UnwrapCount(word) == UnwrapCount(old(word)) + 1 && UnwrapOffset(word) == UnwrapOffset(old(word))
    {
      hide Inv, Update, UnwrapCount, UnwrapOffset, Pow2;
      var wrapper := new UnpackedReadersAndWriterOffset(0);
      var left := failures;
      var swapped := false;
      while !swapped
        invariant fresh(wrapper)
        invariant !swapped ==> Valid() && model == old(model) && word == old(word)
        invariant swapped ==> word == Update(old(word), PackedWord.AddReader) && model == old(model)
                              && wrapper.writeOffset == old(model).offset
        decreases left, !swapped
      {
        var current := word;
        wrapper.Reload(current);
        var desired := wrapper.ReturnAddReader();
        if left > 0 {
          left := left - 1;
        } else {
          word := desired;
          swapped := true;
        }
      }
      UpdateIsPair(old(word), PackedWord.AddReader);
      Uncut(model.count - departed + 1, 0);
      Step(Join);
      offset := wrapper.writeOffset;
    }

    /** `modify_readers(false)`: the count goes down by one; the write offset that it saw is
        returned. */
    method RemoveReader(failures: nat) returns (offset: nat)
      requires Valid() && departed < model.count
      modifies this`word, this`departed
      ensures Valid() && departed == old(departed) + 1
      ensures offset == model.offset
      ensures UnwrapCount(word) == UnwrapCount(old(word)) - 1 && UnwrapOffset(word) == UnwrapOffset(old(word))
    {
      hide Inv, Update, UnwrapCount, UnwrapOffset, Pow2;
      var wrapper := new UnpackedReadersAndWriterOffset(0);
      var left := failures;
      var swapped := false;
      while !swapped
        invariant fresh(wrapper)
        invariant departed == old(departed) && (!swapped ==> word == old(word))
        invariant swapped ==> word == Update(old(word), SubReader) && wrapper.writeOffset == model.offset
        decreases left, !swapped
      {
        var current := word;
        wrapper.Reload(current);
        var desired := wrapper.ReturnSubReader();
        if left > 0 {
          left := left - 1;
        } else {
          word := desired;
          swapped := true;
        }
      }
      UpdateIsPair(old(word), SubReader);
      CountBound(model);
      OneFewer(model.count - departed);
      departed := departed + 1;
      offset := wrapper.writeOffset;
    }
  }

  lemma OneFewer(count: nat)
    requires 0 < count < READER_LIMIT
    ensures (count + READER_LIMIT - 1) % READER_LIMIT == count - 1
  {
  }

  lemma CountBound(s: State)
    requires Inv(s)
    ensures s.count == |s.readers| < READER_LIMIT
  {
  }
}
