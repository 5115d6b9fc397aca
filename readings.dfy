/**
 * Health readings and the two-reading trend percentage. Both dashboards
 * (src/pages/Dashboard.jsx and the frontend overview card) carry the same
 * `calculateTrend` arrow function; it is defined once here.
 */
module Readings {
  import opened Wrappers

  /** The numeric vital-sign fields a reading may carry. */
  datatype Field =
    | HeartRate
    | BloodPressureSystolic
    | BloodPressureDiastolic
    | BloodGlucose
    | OxygenLevel
    | RespirationRate

  /** The two timestamp shapes present in the data. The derivation never looks at them. */
  datatype Timestamp = EpochMs(ms: int) | Iso(text: string)

  /**
   * One reading record. A field that is not a key of `values` is `undefined`
   * in the JavaScript object; the empty record `{}` is `EmptyReading`.
   */
  datatype Reading = Reading(timestamp: Option<Timestamp>, values: map<Field, int>)

  const EmptyReading: Reading := Reading(None, map[])

  /** A JavaScript number as `calculateTrend` can produce it: NaN or an integer. */
  datatype TrendValue = NaN | Percent(value: int)

  /** `Math.round`: the integer nearest to `x`, a tie going to the larger one (toward +∞). */
  function RoundHalfUp(x: real): (r: int)
    ensures x - 0.5 < r as real <= x + 0.5
  {
    (x + 0.5).Floor
  }

  /** `((cur - prev) / prev) * 100`, computed exactly. */
  function Ratio(cur: int, prev: int): real
    requires prev != 0
  {
    (cur - prev) as real / prev as real * 100.0
  }

  /** The rounded percentage change from a non-zero baseline `prev` to `cur`. */
  function TrendOf(cur: int, prev: int): (p: int)
    requires prev != 0
    ensures Ratio(cur, prev) - 0.5 < p as real <= Ratio(cur, prev) + 0.5
  {
    RoundHalfUp(Ratio(cur, prev))
  }

  /**
   * `calculateTrend(current, previous, key)`. The `!previous` guard of
   * `calculateTrend` never fires (every caller passes an object), so only the zero
   * test on the baseline protects the division: a baseline of exactly 0
   * gives 0 even when the current value is missing; otherwise a missing
   * value on either side makes the arithmetic NaN.
   */
  function CalculateTrend(current: Reading, previous: Reading, f: Field): (t: TrendValue)
    ensures f in previous.values && previous.values[f] == 0 ==> t == Percent(0)
    ensures t == NaN <==>
      f !in previous.values || (previous.values[f] != 0 && f !in current.values)
    ensures t.Percent? && previous.values[f] != 0 ==>
      t.value == TrendOf(current.values[f], previous.values[f])
  {
    if f in previous.values && previous.values[f] == 0 then Percent(0)
    else if f !in previous.values || f !in current.values then NaN
    else Percent(TrendOf(current.values[f], previous.values[f]))
  }

  /** Unchanged readings give a trend of 0. */
  lemma TrendOfEqualValues(v: int)
    requires v != 0
    ensures TrendOf(v, v) == 0
  {
  }

  /**
   * Against a positive baseline the sign of the trend is faithful: a
   * positive trend means the value went up and a negative one that it went
   * down. (A change of under half a percent rounds to 0 either way.)
   */
  lemma TrendSign(cur: int, prev: int)
    requires prev > 0
    ensures TrendOf(cur, prev) > 0 ==> cur > prev
    ensures TrendOf(cur, prev) < 0 ==> cur < prev
  {
  }

  /** Against a positive baseline, a larger current value never gives a smaller trend. */
  lemma TrendMonotone(cur1: int, cur2: int, prev: int)
    requires prev > 0 && cur1 <= cur2
    ensures TrendOf(cur1, prev) <= TrendOf(cur2, prev)
  {
    assert (cur1 - prev) as real / prev as real <= (cur2 - prev) as real / prev as real;
    assert Ratio(cur1, prev) <= Ratio(cur2, prev);
  }

  /** Floor division for either sign of the divisor (Dafny's `/` is Euclidean). */
  function FloorDiv(n: int, m: int): int
    requires m != 0
  {
    if m > 0 then n / m else (-n) / (-m)
  }

  /** For a positive divisor, the floor of the exact quotient is the integer quotient. */
  lemma {:induction false} FloorOfQuotient(n: int, m: int)
    requires m > 0
    ensures (n as real / m as real).Floor == n / m
  {
    var q, r := n / m, n % m;
    assert n == q * m + r && 0 <= r < m;
    assert n as real == q as real * m as real + r as real;
    assert n as real / m as real == q as real + r as real / m as real;
    assert 0.0 <= r as real / m as real < 1.0;
  }

  /**
   * An integer-only reference for the trend: round-half-up of
   * 100·(cur−prev)/prev is the floor of (200·(cur−prev) + prev) / (2·prev).
   */
  function TrendByIntegers(cur: int, prev: int): int
    requires prev != 0
  {
    FloorDiv(200 * (cur - prev) + prev, 2 * prev)
  }

  /** Rearranging the rounded expression over one common denominator. */
  lemma ShiftedRatio(d: real, p: real)
    requires p != 0.0
    ensures d / p * 100.0 + 0.5 == (200.0 * d + p) / (2.0 * p)
  {
    var q := d / p;
    assert q * p == d;
    var x := q * 100.0 + 0.5;
    assert x * (2.0 * p) == 200.0 * d + p;
    var y := (200.0 * d + p) / (2.0 * p);
    assert y * (2.0 * p) == 200.0 * d + p;
    var e := x - y;
    assert e * (2.0 * p) == 0.0;
    if e != 0.0 {
      assert false;
    }
  }

  lemma TrendMatchesIntegerReference(cur: int, prev: int)
    requires prev != 0
    ensures TrendOf(cur, prev) == TrendByIntegers(cur, prev)
  {
    var n, m := 200 * (cur - prev) + prev, 2 * prev;
    ShiftedRatio((cur - prev) as real, prev as real);
    assert n as real == 200.0 * (cur - prev) as real + prev as real;
    assert Ratio(cur, prev) + 0.5 == n as real / m as real;
    if m > 0 {
      FloorOfQuotient(n, m);
    } else {
      assert n as real / m as real == (-n) as real / (-m) as real;
      FloorOfQuotient(-n, -m);
    }
  }

  /** The worked values: 70 → 75 is +7 %, and 8 → 7 is −12.5 %, which rounds up to −12 %. */
  lemma TrendExamples()
    ensures TrendOf(75, 70) == 7
    ensures TrendOf(7, 8) == -12
    ensures TrendOf(9, 8) == 13
  {
  }
}
