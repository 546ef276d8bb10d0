/**
 * The numeric policy of the tracker: the orbital period derived from the mean
 * motion, the sampling window and step derived from the period, and the
 * marker size derived from the camera distance. JavaScript numbers are
 * modelled as reals; a value that would not be finite is modelled explicitly.
 */
module Policy {
  import opened Wrappers
  import opened Arith

  /** `Math.PI`, as the decimal that the double prints as. */
  const Pi: real := 3.141592653589793
  const TwoPi: real := 2.0 * Pi

  /** Fallback period, in minutes, for a record whose mean motion gives no usable period. */
  const DefaultPeriodMinutes: real := 90.0
  /** Shortest sampling window, in seconds. */
  const MinDurationSeconds: int := 600
  /** Smallest sampling step, in seconds. */
  const MinSampleSeconds: int := 5
  /** The window is cut into about this many steps. */
  const TargetSteps: int := 240

  /** `Math.round`: the nearest integer, halves rounded up. */
  function Round(x: real): (r: int)
    ensures r as real - 0.5 <= x < r as real + 0.5
  {
    (x + 0.5).Floor
  }

  /**
   * `computeOrbitalPeriodMinutes`: with `no` in radians per minute, one
   * revolution takes 2π / `no` minutes. When that is not a positive finite
   * number (`no` missing, not finite, zero or negative) the period is 90.
   */
  function OrbitalPeriodMinutes(no: Option<real>): (period: real)
    ensures period > 0.0
    ensures no.Some? && no.value > 0.0 ==> period * no.value == TwoPi
    ensures !(no.Some? && no.value > 0.0) ==> period == DefaultPeriodMinutes
  {
    match no
    case None => DefaultPeriodMinutes
    case Some(radPerMin) =>
      if radPerMin == 0.0 then DefaultPeriodMinutes  // 1 / 0 is Infinity: not finite
      else
        var revsPerMin := radPerMin / TwoPi;
        var periodMin := 1.0 / revsPerMin;
        if periodMin > 0.0 then periodMin else DefaultPeriodMinutes
  }

  /**
   * The sampling window: one period in whole seconds, but never less than
   * 600. From a 10-minute period on (less half a second), it is the period to
   * the nearest second; below that it is 600.
   */
  function DurationSeconds(periodMinutes: real): (d: int)
    ensures d >= MinDurationSeconds
    ensures periodMinutes * 60.0 >= MinDurationSeconds as real - 0.5 ==>
      d as real - 0.5 <= periodMinutes * 60.0 < d as real + 0.5
    ensures periodMinutes * 60.0 < MinDurationSeconds as real - 0.5 ==> d == MinDurationSeconds
  {
    var r := Round(periodMinutes * 60.0);
    if MinDurationSeconds > r then MinDurationSeconds else r
  }

  /**
   * The sampling step: a 240th of the window to the nearest second, but never
   * less than 5. From a 1320-second window on, 240 steps of that size cover
   * the window to within 120 seconds; below that it is 5.
   */
  function SampleSeconds(durationSeconds: int): (s: int)
    ensures s >= MinSampleSeconds
    ensures durationSeconds >= 1320 ==>
      s * TargetSteps - 120 <= durationSeconds < s * TargetSteps + 120
    ensures durationSeconds < 1320 ==> s == MinSampleSeconds
  {
    var r := Round(durationSeconds as real / TargetSteps as real);
    if MinSampleSeconds > r then MinSampleSeconds else r
  }

  /**
   * Whatever the record, the window and step chosen for it make the sampler
   * visit between 121 and 264 instants: the step is positive, and about 240
   * steps fit in the window.
   */
  lemma SamplesPerPath(no: Option<real>)
    ensures var d := DurationSeconds(OrbitalPeriodMinutes(no));
            var s := SampleSeconds(d);
            d >= MinDurationSeconds && s >= MinSampleSeconds && 120 <= d / s <= 263
  {
    var d := DurationSeconds(OrbitalPeriodMinutes(no));
    StepCountBounds(d);
  }

  /** For any window of at least 600 seconds, the window holds 120 to 263 whole steps. */
  lemma StepCountBounds(d: int)
    requires d >= MinDurationSeconds
    ensures var s := SampleSeconds(d); 120 <= d / s <= 263
  {
    var s := SampleSeconds(d);
    var r := Round(d as real / 240.0);
    if r <= 5 {
      assert d < 1320 by {
        assert d as real / 240.0 < 5.5;
      }
      QuotientBounds(d, 5, 120, 263);
    } else {
      assert 240 * s - 120 <= d < 240 * s + 120 by {
        assert (s as real) - 0.5 <= d as real / 240.0 < s as real + 0.5;
      }
      assert 220 * s <= d < 260 * s;
      QuotientBounds(d, s, 220, 259);
    }
  }

  /** Integer division by `s` lands in [lo, hi] when `d` lies in [lo·s, (hi+1)·s). */
  lemma QuotientBounds(d: int, s: int, lo: int, hi: int)
    requires s > 0 && lo * s <= d < (hi + 1) * s
    ensures lo <= d / s <= hi
  {
    var q := d / s;
    assert q * s <= d < (q + 1) * s;
    if q < lo {
      MulMonotone(q + 1, lo, s);
    } else if q > hi {
      MulMonotone(hi + 1, q, s);
    }
  }

  /** `Math.max(lo, Math.min(hi, x))`. */
  function Clamp(x: real, lo: real, hi: real): (r: real)
    requires lo <= hi
    ensures lo <= r <= hi
    ensures lo <= x <= hi ==> r == x
    ensures x > hi ==> r == hi
    ensures x < lo ==> r == lo
  {
    if x > hi then hi else if x < lo then lo else x
  }

  /**
   * The marker's pixel size at camera distance `dist` metres:
   * 12 · 10⁶ / (dist + 10⁶), clamped into [6, 20]. At `dist` = -10⁶ the
   * quotient is +Infinity in JavaScript, which clamps to 20.
   */
  function MarkerPixelSize(dist: real): (px: real)
    ensures 6.0 <= px <= 20.0
    ensures dist == 0.0 ==> px == 12.0
    ensures dist >= 1000000.0 ==> px == 6.0
    ensures -400000.0 <= dist <= 1000000.0 ==> px * (dist + 1000000.0) == 12000000.0
    ensures -1000000.0 <= dist <= -400000.0 ==> px == 20.0
  {
    var a := dist + 1000000.0;
    if a == 0.0 then 20.0
    else
      RawSize(a);
      Clamp(12.0 * (1000000.0 / a), 6.0, 20.0)
  }

  /** Where the unclamped size 12 · 10⁶ / a lies, for the shifted distance a. */
  lemma RawSize(a: real)
    requires a != 0.0
    ensures (12.0 * (1000000.0 / a)) * a == 12000000.0
    ensures a < 0.0 ==> 12.0 * (1000000.0 / a) < 6.0
    ensures a >= 2000000.0 ==> 12.0 * (1000000.0 / a) <= 6.0
    ensures 0.0 < a <= 600000.0 ==> 12.0 * (1000000.0 / a) >= 20.0
    ensures 600000.0 <= a <= 2000000.0 ==> 6.0 <= 12.0 * (1000000.0 / a) <= 20.0
  {
    var q := 1000000.0 / a;
    assert q * a == 1000000.0;
    var raw := 12.0 * q;
    assert raw * a == 12000000.0;
    if a < 0.0 {
      assert q < 0.0;
    } else if a >= 2000000.0 {
      assert (raw - 6.0) * a <= 0.0;
    } else if a <= 600000.0 {
      assert (raw - 20.0) * a >= 0.0;
    } else {
      assert (raw - 6.0) * a >= 0.0;
      assert (raw - 20.0) * a <= 0.0;
    }
  }

  /** The marker never grows as the camera moves away (from -10⁶ metres on). */
  lemma MarkerSizeNonIncreasing(d1: real, d2: real)
    requires -1000000.0 <= d1 <= d2
    ensures MarkerPixelSize(d2) <= MarkerPixelSize(d1)
  {
    var a, b := d1 + 1000000.0, d2 + 1000000.0;
    if a > 0.0 {
      var qa, qb := 1000000.0 / a, 1000000.0 / b;
      assert qa * a == 1000000.0 && qb * b == 1000000.0;
      assert qb * b <= qa * b by {
        assert qa * (b - a) >= 0.0;
      }
      assert qb <= qa;
    }
  }
}
