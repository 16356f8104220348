/**
 * Instants and offsets are held in whole microseconds (`int`); the collectors
 * report milliseconds with three decimals, `round($seconds * 1000, 3)`.
 */
module Time {

  /** PHP's round($v, 3): to three decimals, halves rounded away from zero. */
  function Round3(v: real): real {
    if v >= 0.0 then ((v * 1000.0 + 0.5).Floor as real) / 1000.0
    else -((((-v) * 1000.0 + 0.5).Floor as real) / 1000.0)
  }

  /** Round3 lands on a multiple of 0.001 no further than 0.0005 from its argument. */
  lemma Round3Bounds(v: real)
    ensures (Round3(v) * 1000.0).Floor as real == Round3(v) * 1000.0
    ensures -0.0005 <= Round3(v) - v <= 0.0005
  {
    if v >= 0.0 {
      var n := (v * 1000.0 + 0.5).Floor;
      assert n as real <= v * 1000.0 + 0.5 < n as real + 1.0;
      assert Round3(v) * 1000.0 == n as real;
    } else {
      var n := ((-v) * 1000.0 + 0.5).Floor;
      assert n as real <= (-v) * 1000.0 + 0.5 < n as real + 1.0;
      assert Round3(v) * 1000.0 == -(n as real);
      assert (-(n as real)).Floor == -n;
    }
  }

  /**
   * toMilliseconds for a duration held in microseconds: the collectors compute
   * round(seconds * 1000, 3), which is exact for whole microseconds.
   */
  function ToMilliseconds(us: int): (ms: real)
    ensures ms == Round3((us as real / 1000000.0) * 1000.0)
    ensures ms * 1000.0 == us as real
  {
    var x := (us as real / 1000000.0) * 1000.0;
    assert x * 1000.0 == us as real;
    assert if us >= 0 then (x * 1000.0 + 0.5).Floor == us else ((-x) * 1000.0 + 0.5).Floor == -us;
    us as real / 1000.0
  }

  /** On whole microseconds the conversion is linear: a helper for the span records built from offsets. */
  lemma DurationIsDifference(startUs: int, endUs: int)
    ensures ToMilliseconds(endUs - startUs) == ToMilliseconds(endUs) - ToMilliseconds(startUs)
  {
  }
}
