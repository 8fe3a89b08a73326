/** The two roundings of decimal amounts, on exact fractions: half to even, the
    default of `quantize`, and half up (away from zero), which the ledger uses. */
module Rounding {

  function HalfEven(n: int, d: int): int
    requires d > 0
  {
    var q, r := n / d, n % d;
    if 2 * r < d then q
    else if 2 * r > d then q + 1
    else if q % 2 == 0 then q else q + 1
  }

  function HalfUp(n: int, d: int): int
    requires d > 0
  {
    if n >= 0 then (2 * n + d) / (2 * d) else -((2 * -n + d) / (2 * d))
  }

  lemma Scaled(d: int, k: int)
    requires d > 0
    ensures k >= 2 ==> d * k >= 2 * d
    ensures k <= -1 ==> d * k <= -d
    ensures d * 0 == 0 && d * 1 == d
  {
  }

  lemma Difference(d: int, r: int, q: int)
    ensures d * r == d * q + d * (r - q)
  {
  }

  /** Half-even is the nearest integer, the even one on a tie; nothing else is. */
  lemma HalfEvenNearest(n: int, d: int, r: int)
    requires d > 0
    ensures r == HalfEven(n, d) <==>
              -d <= 2 * (d * r - n) <= d && (2 * (d * r - n) == d || 2 * (d * r - n) == -d ==> r % 2 == 0)
  {
    var q, m := n / d, n % d;
    Difference(d, r, q);
    Scaled(d, r - q);
    var gap := d * r - n;
    assert gap == d * (r - q) - m;
    if r == q || r == q + 1 {
      assert gap == if r == q then -m else d - m;
    }
  }

  /** Half-up is the nearest integer, the one further from zero on a tie. */
  lemma HalfUpNearest(n: int, d: int)
    requires d > 0
    ensures -d <= 2 * (d * HalfUp(n, d) - n) <= d
    ensures n >= 0 ==> 2 * (d * HalfUp(n, d) - n) != -d
    ensures n <= 0 ==> 2 * (d * HalfUp(n, d) - n) != d
  {
    var m := if n >= 0 then n else -n;
    var q := (2 * m + d) / (2 * d);
    assert 2 * m + d == 2 * d * q + (2 * m + d) % (2 * d);
    assert d * HalfUp(n, d) == if n >= 0 then d * q else -(d * q);
    assert 2 * d * q == 2 * (d * q);
  }

  /** Amounts already at scale are untouched by either rounding. */
  lemma ExactUntouched(k: int, d: int)
    requires d > 0
    ensures HalfEven(k * d, d) == k && HalfUp(k * d, d) == k
  {
    HalfEvenNearest(k * d, d, k);
    HalfUpNearest(k * d, d);
    var r := HalfUp(k * d, d);
    Difference(d, r, k);
    Scaled(d, r - k);
    assert d * r - k * d == d * (r - k);
  }

  /** Rounding half to even never passes a whole number on the way. */
  lemma HalfEvenAtMost(n: int, d: int, k: int)
    requires d > 0 && n <= k * d
    ensures HalfEven(n, d) <= k
  {
    var r := HalfEven(n, d);
    HalfEvenNearest(n, d, r);
    Difference(d, r, k);
    Scaled(d, r - k);
    assert d * k == k * d;
  }

  lemma HalfEvenNonNegative(n: int, d: int)
    requires n >= 0 && d > 0
    ensures HalfEven(n, d) >= 0
  {
  }
}
