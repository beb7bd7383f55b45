/**
 * The last per-ray quantities of the NYU channel generator: the
 * cross-polarization ratios of every ray, and the conversion of the ray
 * angles from the NYU measurement coordinates to the global coordinate
 * system of 3GPP TR 38.901 (section 7.1).
 */
module Rays {
  import opened Common
  import opened PowerSpectrum

  /** The three polarization ratios of one ray, in dB: HH, VH and HV. */
  datatype Xpd = Xpd(phiPhi: real, thetaPhi: real, phiTheta: real)

  /** NYUChannelModel::GetXpdPerSubpath: two normal draws per ray, `normals[2n]` and `normals[2n + 1]`. */
  method GetXpdPerSubpath(totalNumberOfSubpaths: nat, xpdMean: real, xpdSd: real, normals: seq<real>)
    returns (xpd: seq<Xpd>)
    requires 2 * totalNumberOfSubpaths <= |normals|
    ensures |xpd| == totalNumberOfSubpaths
    ensures forall n :: 0 <= n < |xpd| ==>
      xpd[n].thetaPhi == xpdMean
      && xpd[n].phiPhi == normals[2 * n] * xpdSd
      && xpd[n].phiTheta - xpd[n].thetaPhi == normals[2 * n + 1] * xpdSd
  {
    xpd := [];
    var i := 0;
    while i < totalNumberOfSubpaths
      invariant 0 <= i <= totalNumberOfSubpaths && |xpd| == i
      invariant forall n :: 0 <= n < i ==>
        xpd[n].thetaPhi == xpdMean
        && xpd[n].phiPhi == normals[2 * n] * xpdSd
        && xpd[n].phiTheta - xpd[n].thetaPhi == normals[2 * n + 1] * xpdSd
    {
      var phiPhi := normals[2 * i] * xpdSd;
      var thetaPhi := xpdMean;
      var phiTheta := xpdMean + normals[2 * i + 1] * xpdSd;
      xpd := xpd + [Xpd(phiPhi, thetaPhi, phiTheta)];
      i := i + 1;
    }
  }

  /** M_PI as a decimal. */
  const Pi: real := 3.14159265358979323846

  /** Degrees to radians. */
  function DegreesToRadians(degrees: real): real
  {
    degrees * Pi / 180.0
  }

  /** An NYU azimuth (measured from north) as a 3GPP azimuth (measured from the x axis), in [0, 360). */
  function GcsAzimuth(m: MathLib, nyuAzimuth: real): real
  {
    m.wrapTo360(90.0 - nyuAzimuth)
  }

  /** An NYU elevation (from the horizon) as a 3GPP zenith angle (from the zenith). */
  function GcsZenith(nyuElevation: real): real
  {
    90.0 - nyuElevation
  }

  /** The m_angle rows in order: AOA, ZOA, AOD, ZOD. */
  const AoaRow := 0
  const ZoaRow := 1
  const AodRow := 2
  const ZodRow := 3

  /**
   * NYUChannelModel::NYUCordinateSystemToGlobalCordinateSystem: the
   * four angle rows, each over all rays, in radians.
   */
  method NYUCordinateSystemToGlobalCordinateSystem(m: MathLib, powerSpectrum: seq<Subpath>)
    returns (angle: seq<seq<real>>)
    ensures |angle| == 4 && forall r :: 0 <= r < 4 ==> |angle[r]| == |powerSpectrum|
    ensures forall n :: 0 <= n < |powerSpectrum| ==>
      angle[AoaRow][n] == DegreesToRadians(GcsAzimuth(m, powerSpectrum[n].aoa))
      && angle[ZoaRow][n] == DegreesToRadians(GcsZenith(powerSpectrum[n].zoa))
      && angle[AodRow][n] == DegreesToRadians(GcsAzimuth(m, powerSpectrum[n].aod))
      && angle[ZodRow][n] == DegreesToRadians(GcsZenith(powerSpectrum[n].zod))
    ensures WrapLaws(m) ==> forall n :: 0 <= n < |powerSpectrum| ==>
      0.0 <= angle[AoaRow][n] < 2.0 * Pi && 0.0 <= angle[AodRow][n] < 2.0 * Pi
    ensures forall n :: 0 <= n < |powerSpectrum| && -90.0 <= powerSpectrum[n].zoa <= 90.0 ==>
      0.0 <= angle[ZoaRow][n] <= Pi
    ensures forall n :: 0 <= n < |powerSpectrum| && -90.0 <= powerSpectrum[n].zod <= 90.0 ==>
      0.0 <= angle[ZodRow][n] <= Pi
  {
    var aod, zod, aoa, zoa: seq<real> := [], [], [], [];
    var i := 0;
    while i < |powerSpectrum|
      invariant 0 <= i <= |powerSpectrum| && |aod| == |zod| == |aoa| == |zoa| == i
      invariant forall n :: 0 <= n < i ==>
        aod[n] == powerSpectrum[n].aod && zod[n] == powerSpectrum[n].zod
        && aoa[n] == powerSpectrum[n].aoa && zoa[n] == powerSpectrum[n].zoa
    {
      aod, zod := aod + [powerSpectrum[i].aod], zod + [powerSpectrum[i].zod];
      aoa, zoa := aoa + [powerSpectrum[i].aoa], zoa + [powerSpectrum[i].zoa];
      i := i + 1;
    }
    i := 0;
    while i < |powerSpectrum|
      invariant 0 <= i <= |powerSpectrum| && |aod| == |zod| == |aoa| == |zoa| == |powerSpectrum|
      invariant forall n :: 0 <= n < i ==>
        aod[n] == GcsAzimuth(m, powerSpectrum[n].aod) && zod[n] == GcsZenith(powerSpectrum[n].zod)
        && aoa[n] == GcsAzimuth(m, powerSpectrum[n].aoa) && zoa[n] == GcsZenith(powerSpectrum[n].zoa)
      invariant forall n :: i <= n < |powerSpectrum| ==>
        aod[n] == powerSpectrum[n].aod && zod[n] == powerSpectrum[n].zod
        && aoa[n] == powerSpectrum[n].aoa && zoa[n] == powerSpectrum[n].zoa
    {
      aod := aod[i := m.wrapTo360(90.0 - aod[i])];
      zod := zod[i := 90.0 - zod[i]];
      aoa := aoa[i := m.wrapTo360(90.0 - aoa[i])];
      zoa := zoa[i := 90.0 - zoa[i]];
      i := i + 1;
    }
    var aodRadian := seq(|aod|, k requires 0 <= k < |aod| => DegreesToRadians(aod[k]));
    var zodRadian := seq(|zod|, k requires 0 <= k < |zod| => DegreesToRadians(zod[k]));
    var aoaRadian := seq(|aoa|, k requires 0 <= k < |aoa| => DegreesToRadians(aoa[k]));
    var zoaRadian := seq(|zoa|, k requires 0 <= k < |zoa| => DegreesToRadians(zoa[k]));
    angle := [aoaRadian, zoaRadian, aodRadian, zodRadian];
    GcsRowsInRange(m, powerSpectrum, angle);
  }

  /** Rows converted as NYUCordinateSystemToGlobalCordinateSystem does lie in the 3GPP angle ranges. */
  lemma GcsRowsInRange(m: MathLib, powerSpectrum: seq<Subpath>, angle: seq<seq<real>>)
    requires |angle| == 4 && forall r :: 0 <= r < 4 ==> |angle[r]| == |powerSpectrum|
    requires forall n :: 0 <= n < |powerSpectrum| ==>
      angle[AoaRow][n] == DegreesToRadians(GcsAzimuth(m, powerSpectrum[n].aoa))
      && angle[ZoaRow][n] == DegreesToRadians(GcsZenith(powerSpectrum[n].zoa))
      && angle[AodRow][n] == DegreesToRadians(GcsAzimuth(m, powerSpectrum[n].aod))
      && angle[ZodRow][n] == DegreesToRadians(GcsZenith(powerSpectrum[n].zod))
    ensures WrapLaws(m) ==> forall n :: 0 <= n < |powerSpectrum| ==>
      0.0 <= angle[AoaRow][n] < 2.0 * Pi && 0.0 <= angle[AodRow][n] < 2.0 * Pi
    ensures forall n :: 0 <= n < |powerSpectrum| && -90.0 <= powerSpectrum[n].zoa <= 90.0 ==>
      0.0 <= angle[ZoaRow][n] <= Pi
    ensures forall n :: 0 <= n < |powerSpectrum| && -90.0 <= powerSpectrum[n].zod <= 90.0 ==>
      0.0 <= angle[ZodRow][n] <= Pi
  {
    if WrapLaws(m) {
      forall n | 0 <= n < |powerSpectrum|
        ensures 0.0 <= angle[AoaRow][n] < 2.0 * Pi && 0.0 <= angle[AodRow][n] < 2.0 * Pi
      {
        GcsAzimuthInRange(m, powerSpectrum[n].aoa);
        GcsAzimuthInRange(m, powerSpectrum[n].aod);
      }
    }
    forall n | 0 <= n < |powerSpectrum| && -90.0 <= powerSpectrum[n].zoa <= 90.0
      ensures 0.0 <= angle[ZoaRow][n] <= Pi
    {
      GcsZenithInRange(powerSpectrum[n].zoa);
    }
    forall n | 0 <= n < |powerSpectrum| && -90.0 <= powerSpectrum[n].zod <= 90.0
      ensures 0.0 <= angle[ZodRow][n] <= Pi
    {
      GcsZenithInRange(powerSpectrum[n].zod);
    }
  }

  /** Global azimuths lie in [0, 2 pi). */
  lemma GcsAzimuthInRange(m: MathLib, nyuAzimuth: real)
    requires WrapLaws(m)
    ensures 0.0 <= DegreesToRadians(GcsAzimuth(m, nyuAzimuth)) < 2.0 * Pi
  {
    var a := GcsAzimuth(m, nyuAzimuth);
    assert 0.0 <= a < 360.0;
    assert a * Pi < 360.0 * Pi;
  }

  /** NYU elevations in [-90, 90] become zenith angles in [0, pi]. */
  lemma GcsZenithInRange(nyuElevation: real)
    requires -90.0 <= nyuElevation <= 90.0
    ensures 0.0 <= DegreesToRadians(GcsZenith(nyuElevation)) <= Pi
  {
    var z := GcsZenith(nyuElevation);
    assert 0.0 <= z <= 180.0;
    assert z * Pi <= 180.0 * Pi;
  }
}
