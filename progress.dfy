/** The fixed problem totals and the overall progress percentage of the stats card. */
module Progress {

  /** Representative totals per difficulty class shown on the card. */
  const EasyTotal: int := 863
  const MediumTotal: int := 1807
  const HardTotal: int := 806

  /** The denominator of the overall percentage. */
  function OverallTotal(): (n: int)
    ensures n > 0
  {
    EasyTotal + MediumTotal + HardTotal
  }

  lemma OverallTotalValue()
    ensures OverallTotal() == 3476
  {
  }

  /** JavaScript's Math.round over exact reals: round half towards positive infinity. */
  function RoundHalfUp(x: real): int
  {
    (x + 0.5).Floor
  }

  /** The percentage before rounding, `(solvedCount / overallTotal) * 100`, evaluated exactly. */
  function ExactPercent(solvedCount: int): real
  {
    (solvedCount as real / OverallTotal() as real) * 100.0
  }

  /** Flooring an exact quotient agrees with Euclidean division by a positive divisor. */
  lemma FloorOfQuotient(n: int, d: int)
    requires d > 0
    ensures ((n as real) / (d as real)).Floor == n / d
  {
    var q, r := n / d, n % d;
    assert n == q * d + r && 0 <= r < d;
    var x := (n as real) / (d as real);
    assert n as real == q as real * d as real + r as real;
    assert x == q as real + (r as real) / (d as real);
    assert 0.0 <= (r as real) / (d as real) < 1.0;
  }

  /** Adding one half to the exact percentage gives a ratio of two integers. */
  lemma HalfShiftedPercent(solvedCount: int)
    ensures ExactPercent(solvedCount) + 0.5
         == ((200 * solvedCount + 3476) as real) / (6952 as real)
  {
    OverallTotalValue();
  }

  /** `Math.round((solvedCount / overallTotal) * 100)`, computed in integers as
      `(200 * solvedCount + 3476) / 6952`. */
  function OverallPercent(solvedCount: int): (p: int)
    ensures p == RoundHalfUp(ExactPercent(solvedCount))
  {
    HalfShiftedPercent(solvedCount);
    FloorOfQuotient(200 * solvedCount + 3476, 6952);
    (200 * solvedCount + 3476) / 6952
  }

  /** The rounded percentage is the integer nearest the exact one, and the exact value
      is never a tie: its distance to the result stays below one half by at least 1/3476. */
  lemma PercentNearest(solvedCount: int)
    ensures -1737 <= 100 * solvedCount - 3476 * OverallPercent(solvedCount) <= 1737
  {
    var p := OverallPercent(solvedCount);
    assert 6952 * p <= 200 * solvedCount + 3476 < 6952 * p + 6952;
    var e := 100 * solvedCount - 3476 * p;
    assert -1738 <= e < 1738;
    if e == -1738 {
      // 50 * solvedCount would equal 869 * (2 * p - 1), an even number equal to an odd one
      assert false;
    }
  }

  lemma PercentOfNone()
    ensures OverallPercent(0) == 0
  {
  }

  lemma PercentOfAll()
    ensures OverallPercent(OverallTotal()) == 100
  {
    OverallTotalValue();
  }

  /** More solved problems never lower the percentage. */
  lemma PercentMonotone(s1: int, s2: int)
    requires s1 <= s2
    ensures OverallPercent(s1) <= OverallPercent(s2)
  {
  }

  /** The percentage is not clamped: it passes 100 exactly from 3494 solved problems on. */
  lemma PercentAboveHundred(solvedCount: int)
    ensures OverallPercent(solvedCount) > 100 <==> solvedCount >= 3494
  {
  }

  /** Within 0 to 3493 solved problems the percentage stays in 0 to 100. */
  lemma PercentInRange(solvedCount: int)
    requires 0 <= solvedCount <= 3493
    ensures 0 <= OverallPercent(solvedCount) <= 100
  {
    PercentAboveHundred(solvedCount);
    PercentMonotone(0, solvedCount);
  }

  /** Whole multiples of the total give whole multiples of 100, so the percentage is unbounded. */
  lemma PercentOfMultiple(k: int)
    ensures OverallPercent(k * OverallTotal()) == 100 * k
  {
    OverallTotalValue();
    assert 200 * (k * 3476) + 3476 == 6952 * (100 * k) + 3476;
  }
}
