/**
 * Removal of weak subpaths: every subpath whose power in dB is not above
 * the strongest subpath's power minus the dynamic range is dropped.
 */
module ValidSubpaths {
  import opened Common
  import opened PowerSpectrum

  /** Power in dB: 10 log10(p). */
  function Db(m: MathLib, p: real): real
  {
    10.0 * m.log10(p)
  }

  /**
   * The strongest power, starting from 0 and replaced only by a strictly
   * larger power: 0 when no power is positive.
   */
  function MaxPower(s: seq<Subpath>): (r: real)
    ensures 0.0 <= r
    ensures forall k :: 0 <= k < |s| ==> s[k].power <= r
    ensures r == 0.0 || exists k :: 0 <= k < |s| && s[k].power == r
  {
    if |s| == 0 then 0.0 else Max(MaxPower(s[..|s| - 1]), s[|s| - 1].power)
  }

  /** The threshold in dB: the strongest power in dB less the dynamic range. */
  function Threshold(m: MathLib, s: seq<Subpath>, pwrthreshold: real): real
  {
    Db(m, MaxPower(s)) - pwrthreshold
  }

  /** The subpaths above `threshold` dB, in their original order. */
  function Above(m: MathLib, s: seq<Subpath>, threshold: real): (r: seq<Subpath>)
    ensures |r| <= |s|
    ensures forall x :: x in r <==> x in s && threshold < Db(m, x.power)
  {
    if |s| == 0 then []
    else
      var rest := Above(m, s[..|s| - 1], threshold);
      var last := s[|s| - 1];
      assert s == s[..|s| - 1] + [last];
      if threshold < Db(m, last.power) then rest + [last] else rest
  }

  /** The first loop of GetValidSubapths: the strongest power, 0 if none is positive. */
  method StrongestPower(powerSpectrum: seq<Subpath>) returns (maxSubpathPower: real)
    ensures maxSubpathPower == MaxPower(powerSpectrum)
  {
    maxSubpathPower := 0.0;
    var i := 0;
    while i < |powerSpectrum|
      invariant 0 <= i <= |powerSpectrum|
      invariant maxSubpathPower == MaxPower(powerSpectrum[..i])
    {
      assert powerSpectrum[..i + 1][..i] == powerSpectrum[..i];
      if powerSpectrum[i].power > maxSubpathPower {
        maxSubpathPower := powerSpectrum[i].power;
      }
      i := i + 1;
    }
    assert powerSpectrum[..i] == powerSpectrum;
  }

  /** Filtering one more element of a prefix appends it exactly when it passes. */
  lemma AboveStep(m: MathLib, s: seq<Subpath>, i: nat, threshold: real)
    requires i < |s|
    ensures Above(m, s[..i + 1], threshold)
      == if threshold < Db(m, s[i].power) then Above(m, s[..i], threshold) + [s[i]] else Above(m, s[..i], threshold)
  {
    assert s[..i + 1][..i] == s[..i];
  }

  /** NYUChannelModel::GetValidSubapths. */
  method GetValidSubpaths(m: MathLib, powerSpectrum: seq<Subpath>, pwrthreshold: real)
    returns (powerSpectrumOptimized: seq<Subpath>)
    ensures powerSpectrumOptimized == Above(m, powerSpectrum, Threshold(m, powerSpectrum, pwrthreshold))
  {
    var maxSubpathPower := StrongestPower(powerSpectrum);
    var threshold := 10.0 * m.log10(maxSubpathPower) - pwrthreshold;
    powerSpectrumOptimized := KeepAbove(m, powerSpectrum, threshold);
  }

  /** The second loop of GetValidSubapths: keep the subpaths above `threshold` dB. */
  method KeepAbove(m: MathLib, powerSpectrum: seq<Subpath>, threshold: real)
    returns (powerSpectrumOptimized: seq<Subpath>)
    ensures powerSpectrumOptimized == Above(m, powerSpectrum, threshold)
  {
    powerSpectrumOptimized := [];
    var i := 0;
    while i < |powerSpectrum|
      invariant 0 <= i <= |powerSpectrum|
      invariant powerSpectrumOptimized == Above(m, powerSpectrum[..i], threshold)
    {
      AboveStep(m, powerSpectrum, i, threshold);
      var subpathPower := 10.0 * m.log10(powerSpectrum[i].power);
      if subpathPower > threshold {
        powerSpectrumOptimized := powerSpectrumOptimized + [powerSpectrum[i]];
      }
      i := i + 1;
    }
    assert powerSpectrum[..i] == powerSpectrum;
  }

  /**
   * With a positive dynamic range and some positive power, the strongest
   * subpath is always kept.
   */
  lemma StrongestSubpathKept(m: MathLib, s: seq<Subpath>, pwrthreshold: real)
    requires 0.0 < pwrthreshold && 0.0 < MaxPower(s)
    ensures exists x :: x in Above(m, s, Threshold(m, s, pwrthreshold)) && x.power == MaxPower(s)
  {
    var k :| 0 <= k < |s| && s[k].power == MaxPower(s);
    assert s[k] in s;
  }

  /**
   * The kept set is closed upwards: a subpath at least as strong as a
   * kept one is kept as well.
   */
  lemma KeptIsUpwardClosed(m: MathLib, s: seq<Subpath>, threshold: real, weak: Subpath, strong: Subpath)
    requires Log10Laws(m)
    requires weak in Above(m, s, threshold) && strong in s
    requires 0.0 < weak.power <= strong.power
    ensures strong in Above(m, s, threshold)
  {
    if weak.power < strong.power {
      assert m.log10(weak.power) < m.log10(strong.power);
    }
  }

  /** `idx` lists, in increasing order, the positions in `s` of the elements of `r`. */
  predicate Embeds(r: seq<Subpath>, s: seq<Subpath>, idx: seq<nat>)
  {
    |idx| == |r|
    && (forall k :: 0 <= k < |idx| ==> idx[k] < |s| && r[k] == s[idx[k]])
    && (forall k :: 0 < k < |idx| ==> idx[k - 1] < idx[k])
  }

  /** An embedding into a prefix extends to the whole sequence, with or without its last element. */
  lemma EmbedsExtend(rest: seq<Subpath>, init: seq<Subpath>, idx: seq<nat>, last: Subpath)
    requires Embeds(rest, init, idx)
    ensures Embeds(rest, init + [last], idx)
    ensures Embeds(rest + [last], init + [last], idx + [|init|])
  {
    var s := init + [last];
    assert forall k :: 0 <= k < |idx| ==> s[idx[k]] == init[idx[k]];
    var r', idx' := rest + [last], idx + [|init|];
    assert forall k :: 0 <= k < |idx| ==> r'[k] == rest[k] && idx'[k] == idx[k];
  }

  /** Every subpath in the result is one of the input's, in the input's order. */
  lemma {:induction false} AboveIsSubsequence(m: MathLib, s: seq<Subpath>, threshold: real)
    ensures exists idx: seq<nat> :: Embeds(Above(m, s, threshold), s, idx)
  {
    if |s| == 0 {
      var none: seq<nat> := [];
      assert Embeds(Above(m, s, threshold), s, none);
    } else {
      var init, last := s[..|s| - 1], s[|s| - 1];
      assert s == init + [last];
      AboveIsSubsequence(m, init, threshold);
      var rest := Above(m, init, threshold);
      var idx: seq<nat> :| Embeds(rest, init, idx);
      EmbedsExtend(rest, init, idx, last);
      if threshold < Db(m, last.power) {
        assert Above(m, s, threshold) == rest + [last];
        assert Embeds(Above(m, s, threshold), s, idx + [|init|]);
      } else {
        assert Above(m, s, threshold) == rest;
        assert Embeds(Above(m, s, threshold), s, idx);
      }
    }
  }

  /** A filter that keeps a strongest subpath keeps the strongest power. */
  lemma MaxPowerKept(m: MathLib, s: seq<Subpath>, threshold: real, j: nat)
    requires j < |Above(m, s, threshold)| && Above(m, s, threshold)[j].power == MaxPower(s)
    ensures MaxPower(Above(m, s, threshold)) == MaxPower(s)
  {
    var once := Above(m, s, threshold);
    assert MaxPower(s) <= MaxPower(once);
    if MaxPower(once) != 0.0 {
      var k :| 0 <= k < |once| && once[k].power == MaxPower(once);
      assert once[k] in once;
      assert once[k] in s;
      var i :| 0 <= i < |s| && s[i] == once[k];
      assert once[k].power <= MaxPower(s);
    }
  }

  /**
   * Filtering twice is filtering once: the strongest subpath survives, so
   * the second pass computes the same threshold and keeps everything.
   */
  lemma ValidSubpathsIdempotent(m: MathLib, s: seq<Subpath>, pwrthreshold: real)
    requires 0.0 < pwrthreshold && 0.0 < MaxPower(s)
    ensures var once := Above(m, s, Threshold(m, s, pwrthreshold));
      Above(m, once, Threshold(m, once, pwrthreshold)) == once
  {
    var t := Threshold(m, s, pwrthreshold);
    var once := Above(m, s, t);
    assert exists j :: 0 <= j < |once| && once[j].power == MaxPower(s) by {
      StrongestSubpathKept(m, s, pwrthreshold);
      var x :| x in once && x.power == MaxPower(s);
      var j :| 0 <= j < |once| && once[j] == x;
    }
    var j :| 0 <= j < |once| && once[j].power == MaxPower(s);
    assert Threshold(m, once, pwrthreshold) == t by {
      MaxPowerKept(m, s, t, j);
    }
    AboveAllAbove(m, once, t);
  }

  /** Filtering a sequence whose every element passes keeps it whole. */
  lemma {:induction false} AboveAllAbove(m: MathLib, s: seq<Subpath>, threshold: real)
    requires forall x :: x in s ==> threshold < Db(m, x.power)
    ensures Above(m, s, threshold) == s
  {
    if |s| != 0 {
      AboveAllAbove(m, s[..|s| - 1], threshold);
      assert s == s[..|s| - 1] + [s[|s| - 1]];
    }
  }
}
