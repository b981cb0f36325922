/** `calculatePercentage` (client/lib/utils.js), with `value` and `total`
    as integers and `Math.round` over the exact quotient: rounding to the
    nearest integer, a half rounding up. */
module Utils {

  /** `total > 0 ? Math.round((value / total) * 100) : 0`, where
      `Math.round(x)` is the floor of `x + 1/2`. */
  function CalculatePercentage(value: int, total: int): (r: int)
    ensures total <= 0 ==> r == 0
    // r is the integer nearest to 100 * value / total, a tie going up:
    // -1/2 <= 100 * value / total - r < 1/2
    ensures total > 0 ==> -total <= 200 * value - 2 * total * r < total
  {
    if total > 0 then (200 * value + total) / (2 * total) else 0
  }

  /** Scaling a positive gap: two multiples of `t` that differ do so by at least `t`. */
  lemma MultiplesApart(t: int, r: int, r': int)
    requires t > 0 && r < r'
    ensures t * r' - t * r >= t
  {
    var d := r' - r;
    assert t * r' == t * r + t * d;
    AtLeastOnce(t, d);
  }

  lemma {:induction false} AtLeastOnce(t: int, d: int)
    requires t > 0 && d >= 1
    ensures t * d >= t
    decreases d
  {
    if d > 1 {
      AtLeastOnce(t, d - 1);
      assert t * d == t * (d - 1) + t;
    }
  }

  /** The characterisation above fixes the result: two integers within the
      same half-open unit window around 100 * value / total are equal. */
  lemma NearestIsUnique(value: int, total: int, r: int, r': int)
    requires total > 0
    requires -total <= 200 * value - 2 * total * r < total
    requires -total <= 200 * value - 2 * total * r' < total
    ensures r == r'
  {
    if r < r' {
      MultiplesApart(2 * total, r, r');
    } else if r' < r {
      MultiplesApart(2 * total, r', r);
    }
  }

  /** Nothing done gives 0 per cent and everything done gives 100. */
  lemma PercentageEndpoints(total: int)
    requires total > 0
    ensures CalculatePercentage(0, total) == 0
    ensures CalculatePercentage(total, total) == 100
  {
    NearestIsUnique(0, total, CalculatePercentage(0, total), 0);
    NearestIsUnique(total, total, CalculatePercentage(total, total), 100);
  }

  /** For a fixed positive total the percentage never decreases as the value grows. */
  lemma PercentageMonotonic(value: int, value': int, total: int)
    requires total > 0 && value <= value'
    ensures CalculatePercentage(value, total) <= CalculatePercentage(value', total)
  {
    var r, r' := CalculatePercentage(value, total), CalculatePercentage(value', total);
    if r' < r {
      MultiplesApart(2 * total, r', r);
    }
  }

  /** A part of the total is between 0 and 100 per cent. */
  lemma PercentageInRange(value: int, total: int)
    requires total > 0 && 0 <= value <= total
    ensures 0 <= CalculatePercentage(value, total) <= 100
  {
    PercentageEndpoints(total);
    PercentageMonotonic(0, value, total);
    PercentageMonotonic(value, total, total);
  }

  /** An exact half rounds up, as `Math.round` does. */
  lemma HalfRoundsUp(value: int, total: int, k: int)
    requires total > 0 && 200 * value == total * (2 * k + 1)
    ensures CalculatePercentage(value, total) == k + 1
  {
    NearestIsUnique(value, total, CalculatePercentage(value, total), k + 1);
  }
}
