/**
 * The tier arithmetic of `calculate_mutations` in handlers/group_commands.py,
 * with the boost taken exactly in hundredths of a percent.
 */
module Boost {
  /**
   * `int(n + n * p / 100)` with the boost `p = q / 100` taken exactly: the
   * exact value `n * (10000 + q) / 10000` truncated toward zero.
   */
  function TierValue(n: int, q: nat): int
  {
    if n >= 0 then n * (10000 + q) / 10000 else -((-n) * (10000 + q) / 10000)
  }

  /** For `n >= 0` the tier value is the floor of the exact boosted value. */
  lemma TierValueFloor(n: nat, q: nat)
    ensures TierValue(n, q) * 10000 <= n * (10000 + q) < (TierValue(n, q) + 1) * 10000
  {
  }

  lemma MulMonotone(x: nat, y: nat, d: nat)
    requires x <= y
    ensures x * d <= y * d
  {
  }

  lemma DivMonotone(a: nat, b: nat, d: nat)
    requires a <= b && d > 0
    ensures a / d <= b / d
  {
    var qa, qb := a / d, b / d;
    assert qa * d <= a;
    assert b < (qb + 1) * d;
    if qb + 1 <= qa {
      MulMonotone(qb + 1, qa, d);
    }
  }

  /** For `n >= 0` a boost never lowers the number, and a larger boost never gives less. */
  lemma TierValueMonotone(n: nat, q1: nat, q2: nat)
    requires q1 <= q2
    ensures n <= TierValue(n, q1) <= TierValue(n, q2)
  {
    assert n * 10000 <= n * (10000 + q1) <= n * (10000 + q2);
    DivMonotone(n * 10000, n * (10000 + q1), 10000);
    DivMonotone(n * (10000 + q1), n * (10000 + q2), 10000);
  }

}
