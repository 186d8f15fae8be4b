/** Exact integer versions of the `Math` functions the application applies to
    ratios of amounts and of milliseconds: `Math.round(n / d)`,
    `Math.ceil(n / d)` and `Math.floor(n / d)`. */
module Arith {

  /** `Math.round(n / d)`: the integer nearest to `n / d`, a half rounded up
      (towards +infinity), as `Math.round` does. */
  function RoundDiv(n: int, d: int): (r: int)
    requires d != 0
    ensures d > 0 ==> 2 * (d * r) - d <= 2 * n < 2 * (d * r) + d
    ensures d < 0 ==> 2 * (d * r) - d >= 2 * n > 2 * (d * r) + d
  {
    if d > 0 then RoundPos(n, d) else RoundPos(-n, -d)
  }

  function RoundPos(n: int, d: int): (r: int)
    requires d > 0
    ensures 2 * (d * r) - d <= 2 * n < 2 * (d * r) + d
  {
    var q := (2 * n + d) / (2 * d);
    assert 2 * n + d == 2 * d * q + (2 * n + d) % (2 * d);
    assert 2 * d * q == 2 * (d * q);
    q
  }

  /** `Math.ceil(n / d)` for a positive `d`. */
  function CeilDiv(n: int, d: int): (r: int)
    requires d > 0
    ensures d * (r - 1) < n <= d * r
  {
    var q := (-n) / d;
    assert -n == d * q + (-n) % d;
    -q
  }

  /** `Math.floor(n / d)` for a positive `d`. */
  function FloorDiv(n: int, d: int): (r: int)
    requires d > 0
    ensures d * r <= n < d * (r + 1)
  {
    var q := n / d;
    assert n == d * q + n % d;
    q
  }

  /** Multiplying by a non-negative factor keeps an order. */
  lemma MulMonotone(a: int, b: int, c: int)
    ensures a >= 0 && b <= c ==> a * b <= a * c
  {
    if a >= 0 && b <= c {
      assert a * c - a * b == a * (c - b);
    }
  }

  /** A rounded quotient is pinned down by bounds on the numerator: if
      `d * (k - 1/2) <= n < d * (k + 1/2)` then it is `k`. */
  lemma RoundDivIs(n: int, d: int, k: int)
    requires d > 0 && 2 * (d * k) - d <= 2 * n < 2 * (d * k) + d
    ensures RoundDiv(n, d) == k
  {
    var r := RoundDiv(n, d);
    MulMonotone(d, r, k - 1);
    MulMonotone(d, k, r - 1);
    assert d * (k - 1) == d * k - d;
    assert d * (r - 1) == d * r - d;
  }

  /** Where a whole percentage `Math.round(total / t * 100)` of a positive
      `t` crosses 100: it is at least 100 from 99.5% of `t` on, and above
      100 from 100.5% on, since nothing caps it. */
  lemma RoundedPercent(total: int, t: int)
    requires t > 0
    ensures RoundDiv(100 * total, t) >= 100 <==> 200 * total >= 199 * t
    ensures RoundDiv(100 * total, t) > 100 <==> 200 * total >= 201 * t
  {
    var n := RoundDiv(100 * total, t);
    MulMonotone(t, 100, n);
    MulMonotone(t, n, 99);
    MulMonotone(t, n, 100);
    MulMonotone(t, 101, n);
  }
}
