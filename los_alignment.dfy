/**
 * LOS alignment of a power spectrum: in line of sight the first subpath
 * is the direct path, so its arrival direction is turned to face its
 * departure direction and every other arrival angle is rotated by the
 * same amount.
 */
module LosAlignment {
  import opened Common
  import opened PowerSpectrum

  /** The azimuth opposite to `aod`: 180 degrees less when that is positive, else 180 degrees more. */
  function CorrectAzimuth(aod: real): (r: real)
    ensures r == aod - 180.0 || r == aod + 180.0
    ensures 0.0 <= aod < 360.0 && aod != 180.0 ==> 0.0 <= r < 360.0
  {
    if aod - 180.0 > 0.0 then aod - 180.0 else aod + 180.0
  }

  /** Folds a zenith offset that passed a pole back into [-90, 90]. */
  function FoldElevation(v: real): (r: real)
    ensures -270.0 <= v <= 270.0 ==> -90.0 <= r <= 90.0
    ensures -90.0 <= v <= 90.0 ==> r == v
  {
    if v > 90.0 then 180.0 - v
    else if v < -90.0 then -180.0 - v
    else v
  }

  /** One subpath with its arrival azimuth and elevation shifted back by the two differences. */
  function Realign(m: MathLib, p: Subpath, diffAzimuth: real, diffElevation: real): Subpath
  {
    p.(aoa := m.wrapTo360(p.aoa - diffAzimuth), zoa := FoldElevation(p.zoa - diffElevation))
  }

  /** The spectrum after LOS alignment; unchanged unless `los`. */
  function LosAligned(m: MathLib, s: seq<Subpath>, los: bool): (r: seq<Subpath>)
    requires los ==> 1 <= |s|
    ensures |r| == |s|
  {
    if !los then s
    else
      var diffAzimuth := s[0].aoa - CorrectAzimuth(s[0].aod);
      var diffElevation := s[0].zoa - -s[0].zod;
      seq(|s|, k requires 0 <= k < |s| => Realign(m, s[k], diffAzimuth, diffElevation))
  }

  /** The first loop of GetLosAlignedPowerSpectrum: every arrival azimuth shifted back by `diffAzimuth` and wrapped. */
  method RotateAzimuths(m: MathLib, powerSpectrum: array<Subpath>, diffAzimuth: real)
    modifies powerSpectrum
    ensures forall k :: 0 <= k < powerSpectrum.Length ==>
      powerSpectrum[k] == old(powerSpectrum[k]).(aoa := m.wrapTo360(old(powerSpectrum[k]).aoa - diffAzimuth))
  {
    var i := 0;
    while i < powerSpectrum.Length
      invariant 0 <= i <= powerSpectrum.Length
      invariant forall k :: 0 <= k < i ==>
        powerSpectrum[k] == old(powerSpectrum[k]).(aoa := m.wrapTo360(old(powerSpectrum[k]).aoa - diffAzimuth))
      invariant forall k :: i <= k < powerSpectrum.Length ==> powerSpectrum[k] == old(powerSpectrum[k])
    {
      powerSpectrum[i] := powerSpectrum[i].(aoa := m.wrapTo360(powerSpectrum[i].aoa - diffAzimuth));
      i := i + 1;
    }
  }

  /** The second loop of GetLosAlignedPowerSpectrum: every arrival elevation shifted back by `diffElevation` and folded. */
  method FoldElevations(powerSpectrum: array<Subpath>, diffElevation: real)
    modifies powerSpectrum
    ensures forall k :: 0 <= k < powerSpectrum.Length ==>
      powerSpectrum[k] == old(powerSpectrum[k]).(zoa := FoldElevation(old(powerSpectrum[k]).zoa - diffElevation))
  {
    var i := 0;
    while i < powerSpectrum.Length
      invariant 0 <= i <= powerSpectrum.Length
      invariant forall k :: 0 <= k < i ==>
        powerSpectrum[k] == old(powerSpectrum[k]).(zoa := FoldElevation(old(powerSpectrum[k]).zoa - diffElevation))
      invariant forall k :: i <= k < powerSpectrum.Length ==> powerSpectrum[k] == old(powerSpectrum[k])
    {
      var v := powerSpectrum[i].zoa - diffElevation;
      if v > 90.0 {
        v := 180.0 - v;
      } else if v < -90.0 {
        v := -180.0 - v;
      }
      powerSpectrum[i] := powerSpectrum[i].(zoa := v);
      i := i + 1;
    }
  }

  /** NYUChannelModel::GetLosAlignedPowerSpectrum, which updates its argument in place. */
  method GetLosAlignedPowerSpectrum(m: MathLib, powerSpectrum: array<Subpath>, los: bool)
    requires los ==> 1 <= powerSpectrum.Length
    modifies powerSpectrum
    ensures powerSpectrum[..] == LosAligned(m, old(powerSpectrum[..]), los)
  {
    if los {
      ghost var s := powerSpectrum[..];
      var correctAzimuth := CorrectAzimuth(powerSpectrum[0].aod);
      var diffAzimuth := powerSpectrum[0].aoa - correctAzimuth;
      RotateAzimuths(m, powerSpectrum, diffAzimuth);
      var correctElevation := -powerSpectrum[0].zod;
      var diffElevation := powerSpectrum[0].zoa - correctElevation;
      assert diffElevation == s[0].zoa - -s[0].zod;
      FoldElevations(powerSpectrum, diffElevation);
      assert forall k :: 0 <= k < powerSpectrum.Length ==> powerSpectrum[k] == Realign(m, s[k], diffAzimuth, diffElevation);
      assert powerSpectrum[..] == LosAligned(m, s, los);
    }
  }

  /** Only the arrival angles move; delays, powers, phases, departure angles and lobes are kept. */
  lemma LosAlignedKeepsOtherFields(m: MathLib, s: seq<Subpath>, los: bool)
    requires los ==> 1 <= |s|
    ensures var r := LosAligned(m, s, los);
      forall k :: 0 <= k < |s| ==> r[k] == s[k].(aoa := r[k].aoa, zoa := r[k].zoa)
  {
  }

  /** Under LOS the first subpath arrives from exactly opposite its departure azimuth. */
  lemma LosAlignedFirstAzimuthOpposite(m: MathLib, s: seq<Subpath>)
    requires 1 <= |s| && WrapLaws(m)
    requires 0.0 <= s[0].aod < 360.0 && s[0].aod != 180.0
    ensures var a := LosAligned(m, s, true)[0].aoa;
      0.0 <= a < 360.0 && (a == s[0].aod - 180.0 || a == s[0].aod + 180.0)
  {
    var c := CorrectAzimuth(s[0].aod);
    assert s[0].aoa - (s[0].aoa - c) == c;
  }

  /** Under LOS the first subpath's arrival elevation mirrors its departure elevation. */
  lemma LosAlignedFirstElevationMirrored(m: MathLib, s: seq<Subpath>)
    requires 1 <= |s| && -90.0 <= s[0].zod <= 90.0
    ensures LosAligned(m, s, true)[0].zoa == -s[0].zod
  {
    assert s[0].zoa - (s[0].zoa - -s[0].zod) == -s[0].zod;
  }

  /** Every aligned arrival azimuth lies in [0, 360). */
  lemma LosAlignedAzimuthsWrapped(m: MathLib, s: seq<Subpath>, k: nat)
    requires 1 <= |s| && k < |s| && WrapLaws(m)
    ensures 0.0 <= LosAligned(m, s, true)[k].aoa < 360.0
  {
  }

  /**
   * Arrival elevations within [-90, 90] (the generator clamps them to
   * [-60, 60]) stay within [-90, 90] after alignment.
   */
  lemma LosAlignedElevationsBounded(m: MathLib, s: seq<Subpath>, k: nat)
    requires 1 <= |s| && k < |s|
    requires -90.0 <= s[0].zod <= 90.0
    requires forall i :: 0 <= i < |s| ==> -90.0 <= s[i].zoa <= 90.0
    ensures -90.0 <= LosAligned(m, s, true)[k].zoa <= 90.0
  {
    var diffElevation := s[0].zoa - -s[0].zod;
    assert -270.0 <= s[k].zoa - diffElevation <= 270.0;
  }
}
