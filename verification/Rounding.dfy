/**
  Python's `round` on a rational number: the nearest integer, and the even one
  of the two neighbours when the value lies exactly between them.
 */
module Rounding {
  import opened Common

  /** The value of `round(n / d)` on exact rationals. */
  function RoundHalfEven(n: int, d: int): int
    requires d > 0
  {
    var q := n / d;
    var r := n % d;
    if 2 * r < d then q
    else if 2 * r > d then q + 1
    else if q % 2 == 0 then q
    else q + 1
  }

  /** Independent definition: `m` is a nearest integer to n/d, and even on a tie. */
  ghost predicate IsNearestEven(n: int, d: int, m: int)
    requires d > 0
  {
    && -d <= 2 * (m * d - n) <= d
    && (2 * (m * d - n) == d || 2 * (m * d - n) == -d ==> m % 2 == 0)
  }

  /** `RoundHalfEven` yields the one integer that the independent definition allows. */
  lemma RoundIsTheNearest(n: int, d: int, m: int)
    requires d > 0
    ensures IsNearestEven(n, d, m) <==> m == RoundHalfEven(n, d)
  {
    var q, r := n / d, n % d;
    assert n == q * d + r && 0 <= r < d;
    assert (q + 1) * d == q * d + d;
    if m <= q - 1 {
      MulMonotone(m, q - 1, d);
      assert (q - 1) * d == q * d - d;
    } else if m >= q + 2 {
      MulMonotone(q + 2, m, d);
      assert (q + 2) * d == q * d + 2 * d;
    } else {
      assert m == q || m == q + 1;
    }
  }

  /** Rounding preserves order. */
  lemma RoundMonotone(n1: int, n2: int, d: int)
    requires d > 0 && n1 <= n2
    ensures RoundHalfEven(n1, d) <= RoundHalfEven(n2, d)
  {
    var a, b := RoundHalfEven(n1, d), RoundHalfEven(n2, d);
    if a > b {
      MulMonotone(b + 1, a, d);
      assert (b + 1) * d == b * d + d;
    }
    // Were a > b, the two errors would add up to d: only if n1 == n2, and then a == b.
    RoundIsTheNearest(n1, d, a);
    RoundIsTheNearest(n2, d, b);
  }

  /** Whole numbers are left alone. */
  lemma RoundExact(k: int, d: int)
    requires d > 0
    ensures RoundHalfEven(k * d, d) == k
  {
    RoundIsTheNearest(k * d, d, k);
  }
}
