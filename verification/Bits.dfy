/** Bitwise operators on natural numbers, defined bit by bit, and the masks that the
    packed word and the power-of-two test are written with. */
module Bits {
  import opened Division

  function Pow2(k: nat): (p: nat)
    ensures p > 0
  {
    if k == 0 then 1 else 2 * Pow2(k - 1)
  }

  function And(a: nat, b: nat): nat {
    if a == 0 || b == 0 then 0
    else (if a % 2 == 1 && b % 2 == 1 then 1 else 0) + 2 * And(a / 2, b / 2)
  }

  function Or(a: nat, b: nat): nat {
    if a == 0 then b
    else if b == 0 then a
    else (if a % 2 == 1 || b % 2 == 1 then 1 else 0) + 2 * Or(a / 2, b / 2)
  }

  /** `n != 0 && (n & (n - 1)) == 0`. */
  predicate IsPowerOfTwo(n: nat) {
    n != 0 && And(n, n - 1) == 0
  }

  lemma {:induction false} AndSelf(a: nat)
    ensures And(a, a) == a
  {
    if a > 0 { AndSelf(a / 2); }
  }

  /** One bit of a conjunction, zeros included. */
  lemma AndStep(a: nat, b: nat)
    ensures And(a, b) == (if a % 2 == 1 && b % 2 == 1 then 1 else 0) + 2 * And(a / 2, b / 2)
  {
    if a == 0 || b == 0 { assert a / 2 == 0 || b / 2 == 0; }
  }

  lemma TwiceLessOne(m: nat)
    requires m > 0
    ensures (2 * m - 1) % 2 == 1 && (2 * m - 1) / 2 == m - 1
  {
    assert 2 * m - 1 == 2 * (m - 1) + 1;
  }

  lemma OnesStep(k: nat)
    requires k > 0
    ensures Pow2(k) == 2 * Pow2(k - 1)
    ensures (Pow2(k) - 1) % 2 == 1 && (Pow2(k) - 1) / 2 == Pow2(k - 1) - 1
  {
    var m := Pow2(k - 1);
    assert Pow2(k) == 2 * m;
    hide Pow2;
    TwiceLessOne(m);
  }

  /** A mask of k ones keeps the value modulo two to the k. */
  lemma {:induction false} AndMask(v: nat, k: nat)
    ensures And(v, Pow2(k) - 1) == v % Pow2(k)
  {
    if k > 0 {
      hide And, Pow2;
      AndMask(v / 2, k - 1);
      OnesStep(k);
      AndStep(v, Pow2(k) - 1);
      HalfMod(v, Pow2(k - 1));
    }
  }

  lemma {:induction false} AndShift(a: nat, b: nat, k: nat)
    ensures And(a * Pow2(k), b * Pow2(k)) == And(a, b) * Pow2(k)
  {
    if k > 0 {
      AndShift(a, b, k - 1);
      var m := Pow2(k - 1);
      Doubled(a, m);
      Doubled(b, m);
      Doubled(And(a, b), m);
      if a == 0 || b == 0 { assert a * Pow2(k) == 0 || b * Pow2(k) == 0; }
    }
  }

  lemma Doubled(a: nat, m: nat)
    ensures a * (2 * m) == 2 * (a * m)
    ensures (2 * (a * m)) / 2 == a * m && (2 * (a * m)) % 2 == 0
  {
  }

  /** Or of a value below two to the k with a multiple of it is their sum. */
  lemma {:induction false} OrDisjoint(a: nat, b: nat, k: nat)
    requires a < Pow2(k)
    ensures Or(a, b * Pow2(k)) == a + b * Pow2(k)
  {
    if k > 0 {
      OrDisjoint(a / 2, b, k - 1);
      Doubled(b, Pow2(k - 1));
    }
  }

  /** The test accepts exactly the powers of two. */
  lemma {:induction false} PowerOfTwoIff(n: nat)
    ensures IsPowerOfTwo(n) <==> exists k :: n == Pow2(k)
  {
    if IsPowerOfTwo(n) {
      var k := Exponent(n);
    }
    if exists k :: n == Pow2(k) {
      var k :| n == Pow2(k);
      PowersPass(k);
    }
  }

  lemma {:induction false} Exponent(n: nat) returns (k: nat)
    requires IsPowerOfTwo(n)
    ensures n == Pow2(k)
    decreases n
  {
    k := 0;
    if n > 1 {
      AndSelf(n / 2);
      if n % 2 == 0 {
        assert (n - 1) / 2 == n / 2 - 1;
        k := Exponent(n / 2);
        k := k + 1;
      }
    }
  }

  lemma {:induction false} PowersPass(k: nat)
    ensures IsPowerOfTwo(Pow2(k))
  {
    if k > 0 {
      PowersPass(k - 1);
      assert (Pow2(k) - 1) / 2 == Pow2(k - 1) - 1;
    }
  }

  lemma {:induction false} Pow2Divides(j: nat, k: nat) returns (c: nat)
    requires j <= k
    ensures Pow2(k) == c * Pow2(j)
  {
    if j == k {
      c := 1;
    } else {
      c := Pow2Divides(j, k - 1);
      assert Pow2(k) == 2 * (c * Pow2(j)) == (2 * c) * Pow2(j);
      c := 2 * c;
    }
  }

  /** Cutting a number to k bits keeps its remainder by any smaller power of two. */
  lemma TruncationKeepsRemainder(x: nat, j: nat, k: nat)
    requires j <= k
    ensures (x % Pow2(k)) % Pow2(j) == x % Pow2(j)
  {
    var c := Pow2Divides(j, k);
    ModOfMultiple(x, c, Pow2(j), Pow2(k));
  }
}
