/**
 * The frequency calibration both NYU models apply to their parameters: a
 * value measured at 28 GHz and one measured at 140 GHz, held constant
 * outside that band and interpolated linearly inside it.
 */
module Calibration {
  import opened Common

  /** Lower end of the calibrated band, in GHz. */
  const FrequencyLowerBound: real := 28.0
  /** Upper end of the calibrated band, in GHz. */
  const FrequencyUpperBound: real := 140.0

  /** NYUChannelModel::GetCalibratedParameter; `frequency` is in GHz. */
  function GetCalibratedParameter(val1: real, val2: real, frequency: real): (r: real)
    ensures frequency < FrequencyLowerBound ==> r == val1
    ensures frequency > FrequencyUpperBound ==> r == val2
  {
    if frequency < FrequencyLowerBound then val1
    else if frequency > FrequencyUpperBound then val2
    else frequency * (val2 - val1) / (FrequencyUpperBound - FrequencyLowerBound) + (5.0 * val1 - val2) / 4.0
  }

  /**
   * Inside the band the value is the 28 GHz value plus the fraction of the
   * band covered times the difference; in particular it is val1 at 28 GHz
   * and val2 at 140 GHz.
   */
  lemma CalibratedIsInterpolation(val1: real, val2: real, frequency: real)
    requires FrequencyLowerBound <= frequency <= FrequencyUpperBound
    ensures GetCalibratedParameter(val1, val2, frequency)
            == val1 + (frequency - FrequencyLowerBound) / 112.0 * (val2 - val1)
    ensures frequency == FrequencyLowerBound ==> GetCalibratedParameter(val1, val2, frequency) == val1
    ensures frequency == FrequencyUpperBound ==> GetCalibratedParameter(val1, val2, frequency) == val2
  {
    var t := (frequency - FrequencyLowerBound) / 112.0;
    assert frequency * (val2 - val1) / 112.0 == t * (val2 - val1) + 28.0 * (val2 - val1) / 112.0;
  }

  /** Equal end values give a frequency-independent parameter. */
  lemma CalibratedConstant(val: real, frequency: real)
    ensures GetCalibratedParameter(val, val, frequency) == val
  {
    if FrequencyLowerBound <= frequency <= FrequencyUpperBound {
      CalibratedIsInterpolation(val, val, frequency);
    }
  }

  /** A point a fraction t of the way up from val1 to val2 lies between them. */
  lemma BetweenRising(val1: real, val2: real, t: real)
    requires 0.0 <= t <= 1.0 && val1 <= val2
    ensures val1 <= val1 + t * (val2 - val1) <= val2
  {
    var p := t * (val2 - val1);
    FractionBounds(t, val2 - val1);
    assert 0.0 <= p <= val2 - val1;
    assert val1 <= val1 + p <= val2;
  }

  /** A point a fraction t of the way down from val1 to val2 lies between them. */
  lemma BetweenFalling(val1: real, val2: real, t: real)
    requires 0.0 <= t <= 1.0 && val2 <= val1
    ensures val2 <= val1 + t * (val2 - val1) <= val1
  {
    var p, q := t * (val2 - val1), t * (val1 - val2);
    FractionBounds(t, val1 - val2);
    assert 0.0 <= q <= val1 - val2;
    assert p == -q;
    assert val2 <= val1 + p <= val1;
  }

  /** At every frequency the parameter lies between the two end values. */
  lemma CalibratedBetween(val1: real, val2: real, frequency: real)
    ensures val1 <= val2 ==> val1 <= GetCalibratedParameter(val1, val2, frequency) <= val2
    ensures val2 <= val1 ==> val2 <= GetCalibratedParameter(val1, val2, frequency) <= val1
  {
    if FrequencyLowerBound <= frequency <= FrequencyUpperBound {
      CalibratedIsInterpolation(val1, val2, frequency);
      var r := GetCalibratedParameter(val1, val2, frequency);
      var t := (frequency - FrequencyLowerBound) / 112.0;
      var p := t * (val2 - val1);
      assert r == val1 + p;
      if val1 <= val2 {
        BetweenRising(val1, val2, t);
        assert val1 <= val1 + p <= val2;
      }
      if val2 <= val1 {
        BetweenFalling(val1, val2, t);
        assert val2 <= val1 + p <= val1;
      }
    } else if frequency < FrequencyLowerBound {
      assert GetCalibratedParameter(val1, val2, frequency) == val1;
    } else {
      assert GetCalibratedParameter(val1, val2, frequency) == val2;
    }
  }

  /** The parameter moves monotonically from val1 to val2 as the frequency rises. */
  lemma CalibratedMonotone(val1: real, val2: real, f1: real, f2: real)
    requires f1 <= f2
    ensures val1 <= val2 ==> GetCalibratedParameter(val1, val2, f1) <= GetCalibratedParameter(val1, val2, f2)
    ensures val2 <= val1 ==> GetCalibratedParameter(val1, val2, f2) <= GetCalibratedParameter(val1, val2, f1)
  {
    CalibratedBetween(val1, val2, f1);
    CalibratedBetween(val1, val2, f2);
    if FrequencyLowerBound <= f1 && f2 <= FrequencyUpperBound {
      CalibratedIsInterpolation(val1, val2, f1);
      CalibratedIsInterpolation(val1, val2, f2);
      var t1, t2 := (f1 - FrequencyLowerBound) / 112.0, (f2 - FrequencyLowerBound) / 112.0;
      assert t1 <= t2;
      if val1 <= val2 {
        ScaleMonotone(t1, t2, val2 - val1);
      } else {
        ScaleMonotone(t1, t2, val1 - val2);
        assert t1 * (val2 - val1) == -(t1 * (val1 - val2));
        assert t2 * (val2 - val1) == -(t2 * (val1 - val2));
      }
    }
  }
}
