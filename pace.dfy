/**
 * The pacing of the uniform and directional emitters: each emit adds dt to
 * an accumulator and then spends one period (1 / rate) per emission event
 * while the accumulator still holds a whole period.
 */
module Pacing {
  /**
   * The number of whole periods in total: how often the emit loop
   * `while (acc >= period) acc -= period` runs from acc = total.
   */
  function Pace(total: real, period: real): (n: nat)
    requires 0.0 <= total && 0.0 < period
    ensures n as real * period <= total < (n + 1) as real * period
  {
    var x := total / period;
    QuotientBounds(total, period, x, x.Floor);
    x.Floor
  }

  /** The floor of total / period, restated without division. */
  lemma QuotientBounds(total: real, period: real, x: real, f: int)
    requires 0.0 <= total && 0.0 < period && x == total / period && f == x.Floor
    ensures 0 <= f
    ensures f as real * period <= total < (f + 1) as real * period
  {
    NonNegativeQuotient(total, period);
    QuotientTimesDivisor(total, period);
    ScaleWeak(f as real, x, period);
    var g := (f + 1) as real;
    ScaleStrict(x, g, period);
    assert x * period == total;
    assert x * period < g * period;
    assert total < g * period;
  }

  lemma NonNegativeQuotient(a: real, b: real)
    requires 0.0 <= a && 0.0 < b
    ensures 0.0 <= a / b
  {
  }

  lemma QuotientTimesDivisor(a: real, b: real)
    requires b != 0.0
    ensures (a / b) * b == a
  {
  }

  lemma ScaleWeak(a: real, b: real, c: real)
    requires a <= b && 0.0 < c
    ensures a * c <= b * c
  {
  }

  lemma ScaleStrict(a: real, b: real, c: real)
    requires a < b && 0.0 < c
    ensures a * c < b * c
  {
  }

  /** Comparing multiples of a positive period compares the counts. */
  lemma FewerPeriods(k: int, n: int, period: real, total: real)
    requires 0.0 < period && k as real * period <= total < n as real * period
    ensures k < n
  {
    if n <= k {
      ScaleWeak(n as real, k as real, period);
    }
  }

  /** Pace is the only count of periods that fits in total with less than a period to spare. */
  lemma PaceUnique(total: real, period: real, k: nat)
    requires 0.0 <= total && 0.0 < period
    requires k as real * period <= total < (k + 1) as real * period
    ensures Pace(total, period) == k
  {
    var n := Pace(total, period);
    FewerPeriods(k, n + 1, period, total);
    FewerPeriods(n, k + 1, period, total);
  }

  /** In exact arithmetic the events of one emit number floor(total * rate). */
  lemma PaceByRate(total: real, rate: real)
    requires 0.0 <= total && 0.0 < rate
    ensures Pace(total, 1.0 / rate) == (total * rate).Floor
  {
    DivideByInverse(total, rate);
  }

  lemma DivideByInverse(a: real, r: real)
    requires r != 0.0
    ensures a / (1.0 / r) == a * r
  {
  }

  /** Spending one more period: the multiples of a period grow by one period. */
  lemma NextMultiple(k: nat, period: real)
    ensures (k + 1) as real * period == k as real * period + period
  {
    Distribute(k as real, 1.0, period);
  }

  lemma Distribute(a: real, b: real, c: real)
    ensures (a + b) * c == a * c + b * c
  {
  }

  /** What the accumulator holds after spending k periods from total, one at a time. */
  function Remaining(total: real, period: real, k: nat): (acc: real)
    ensures acc == total - k as real * period
  {
    if k == 0 then total
    else
      var before := Remaining(total, period, k - 1);
      NextMultiple(k - 1, period);
      before - period
  }

  /**
   * One turn of the emit loop: while the accumulator still holds a whole
   * period, fewer than Pace(total, period) periods have been spent.
   */
  lemma PaceStep(total: real, period: real, k: nat)
    requires 0.0 <= total && 0.0 < period
    requires period <= Remaining(total, period, k)
    ensures k < Pace(total, period)
  {
    var n := Pace(total, period);
    NextMultiple(k, period);
    FewerPeriods(k + 1, n + 1, period, total);
  }

  /** The emit loop stops after exactly Pace(total, period) turns. */
  lemma PaceExit(total: real, period: real, k: nat)
    requires 0.0 <= total && 0.0 < period
    requires Remaining(total, period, k) < period
    requires k <= Pace(total, period)
    ensures k == Pace(total, period)
  {
    var n := Pace(total, period);
    NextMultiple(k, period);
    FewerPeriods(n, k + 1, period, total);
  }

  /** After the loop the accumulator keeps less than one period, and never goes negative. */
  lemma RemainingBounds(total: real, period: real)
    requires 0.0 <= total && 0.0 < period
    ensures 0.0 <= Remaining(total, period, Pace(total, period)) < period
  {
    NextMultiple(Pace(total, period), period);
  }
}
