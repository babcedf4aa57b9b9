/** Quotients and remainders by a variable divisor. */
module Division {

  lemma LapOrder(n: nat, a: nat, b: nat)
    requires a < b
    ensures a * n + n <= b * n
  {
    assert b * n == a * n + n + (b - a - 1) * n;
  }

  lemma DivModUnique(m: nat, q: nat, r: nat, v: nat)
    requires v == q * m + r && r < m
    ensures v / m == q && v % m == r
  {
    var q' := v / m;
    assert v == q' * m + v % m;
    if q' < q {
      LapOrder(m, q', q);
    } else if q < q' {
      LapOrder(m, q, q');
    }
  }

  /** A remainder by an even divisor, from that of the half. */
  lemma HalfMod(v: nat, m: nat)
    requires m > 0
    ensures v % (2 * m) == v % 2 + 2 * (v / 2 % m)
  {
    var q, r := v / 2 / m, v / 2 % m;
    assert v / 2 == q * m + r;
    assert q * (2 * m) == 2 * (q * m);
    DivModUnique(2 * m, q, 2 * r + v % 2, v);
  }

  lemma Regroup(q: nat, c: nat, p: nat, m: nat)
    ensures q * (c * m) + p * m == (q * c + p) * m
  {
    assert q * (c * m) == (q * c) * m;
  }

  lemma ModOfMultiple(x: nat, c: nat, m: nat, k: nat)
    requires m > 0 && k > 0 && k == c * m
    ensures (x % k) % m == x % m
  {
    var q, t := x / k, x % k;
    var p, r := t / m, t % m;
    Regroup(q, c, p, m);
    DivModUnique(m, q * c + p, r, x);
  }
}
