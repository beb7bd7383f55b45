/**
 * Bandwidth adjustment of a power spectrum: subpaths that arrive within
 * the receiver's time resolution of one another cannot be told apart, so
 * each group is replaced by its first subpath carrying the power of the
 * complex sum of the group's amplitudes.
 */
module SubpathCombiner {
  import opened Common
  import opened PowerSpectrum
  import opened LosAlignment

  /** r * e^(i phi): the source's `sqrt(p) * exp(complex(0, phi))` with `r = sqrt(p)`. */
  type Polar = (real, real) -> Complex

  /** A phasor of amplitude r has power r * r. */
  ghost predicate PolarLaws(polar: Polar)
  {
    forall r, phi {:trigger polar(r, phi)} :: 0.0 <= r ==> Norm(polar(r, phi)) == r * r
  }

  /** (1 / (B / 2)) * 1e9: the time resolution in ns of a receiver of bandwidth B Hz. */
  function MinTime(bandwidth: real): (t: real)
    requires 0.0 < bandwidth
    ensures 0.0 < t
  {
    (1.0 / (bandwidth / 2.0)) * 1.0e9
  }

  /**
   * The inner scan: starting at `index`, the first index that is the last
   * row or whose delay exceeds `boundary`.
   */
  function GroupEnd(ps: seq<Subpath>, boundary: real, index: nat): (e: nat)
    requires index < |ps|
    ensures index <= e < |ps|
    ensures e == |ps| - 1 || boundary < ps[e].delay
    ensures forall k :: index <= k < e ==> ps[k].delay <= boundary
    ensures index < |ps| - 1 && ps[index].delay <= boundary ==> index < e
    decreases |ps| - index
  {
    if ps[index].delay <= boundary && index < |ps| - 1 then GroupEnd(ps, boundary, index + 1) else index
  }

  /** The phasor of one subpath: amplitude sqrt(power), angle its phase. */
  function Phasor(m: MathLib, polar: Polar, p: Subpath): Complex
  {
    polar(m.sqrt(p.power), p.phase)
  }

  /** The sum of the phasors of rows [lo, hi), added left to right from zero. */
  function GroupSum(m: MathLib, polar: Polar, ps: seq<Subpath>, lo: nat, hi: nat): Complex
    requires lo <= hi <= |ps|
    decreases hi
  {
    if lo == hi then Zero
    else Add(GroupSum(m, polar, ps, lo, hi - 1), Phasor(m, polar, ps[hi - 1]))
  }

  /** Row i carrying the power of the group [i, e). */
  function LeaderRow(m: MathLib, polar: Polar, ps: seq<Subpath>, i: nat, e: nat): Subpath
    requires i <= e <= |ps| && i < |ps|
  {
    ps[i].(power := Norm(GroupSum(m, polar, ps, i, e)))
  }

  /** The rows that lead a group, from row i on. */
  ghost function Leaders(ps: seq<Subpath>, minTime: real, i: nat): (r: seq<nat>)
    requires 0.0 < minTime && i <= |ps|
    ensures forall k :: 0 <= k < |r| ==> i <= r[k] < |ps| - 1
    ensures 0 < |r| ==> r[0] == i
    decreases |ps| - i
  {
    if i + 1 < |ps| then [i] + Leaders(ps, minTime, GroupEnd(ps, ps[i].delay + minTime, i)) else []
  }

  /** The combined spectrum from row i on: each group's leader with the group's power. */
  function Combined(m: MathLib, polar: Polar, ps: seq<Subpath>, minTime: real, i: nat): (r: seq<Subpath>)
    requires 0.0 < minTime && i <= |ps|
    ensures 0 < |r| <==> i + 1 < |ps|
    ensures |r| <= |ps| - i
    ensures forall k :: 0 <= k < |r| ==> 0.0 <= r[k].power
    decreases |ps| - i
  {
    if i + 1 < |ps| then
      var e := GroupEnd(ps, ps[i].delay + minTime, i);
      [LeaderRow(m, polar, ps, i, e)] + Combined(m, polar, ps, minTime, e)
    else []
  }

  /** One step of Combined: the group led by row i, then the rest. */
  lemma CombinedStep(m: MathLib, polar: Polar, ps: seq<Subpath>, minTime: real, i: nat)
    requires 0.0 < minTime && i + 1 < |ps|
    ensures var e := GroupEnd(ps, ps[i].delay + minTime, i);
      i < e && Combined(m, polar, ps, minTime, i) == [LeaderRow(m, polar, ps, i, e)] + Combined(m, polar, ps, minTime, e)
  {
  }

  /**
   * Every combined row is a leader row of the input with only its power
   * replaced (the leaders start at row i and never include the last row).
   */
  lemma {:induction false} CombinedRowsAreLeaders(m: MathLib, polar: Polar, ps: seq<Subpath>, minTime: real, i: nat)
    requires 0.0 < minTime && i <= |ps|
    ensures var r, leaders := Combined(m, polar, ps, minTime, i), Leaders(ps, minTime, i);
      |leaders| == |r| && forall k :: 0 <= k < |r| ==> r[k] == ps[leaders[k]].(power := r[k].power)
    decreases |ps| - i
  {
    if i + 1 < |ps| {
      var e := GroupEnd(ps, ps[i].delay + minTime, i);
      CombinedRowsAreLeaders(m, polar, ps, minTime, e);
      assert Leaders(ps, minTime, i) == [i] + Leaders(ps, minTime, e);
      assert Combined(m, polar, ps, minTime, i) == [LeaderRow(m, polar, ps, i, e)] + Combined(m, polar, ps, minTime, e);
    }
  }

  /** Leaders increase strictly and each arrives more than `minTime` after the one before. */
  lemma {:induction false} LeadersSpacedBeyondResolution(ps: seq<Subpath>, minTime: real, i: nat)
    requires 0.0 < minTime && i <= |ps|
    ensures var leaders := Leaders(ps, minTime, i);
      forall k :: 0 < k < |leaders| ==> leaders[k - 1] < leaders[k] && ps[leaders[k - 1]].delay + minTime < ps[leaders[k]].delay
    decreases |ps| - i
  {
    if i + 1 < |ps| {
      var e := GroupEnd(ps, ps[i].delay + minTime, i);
      LeadersSpacedBeyondResolution(ps, minTime, e);
      assert Leaders(ps, minTime, i) == [i] + Leaders(ps, minTime, e);
    }
  }

  /**
   * Every row absorbed into a group arrives within `minTime` of the
   * group's leader: the rows from the k-th leader up to the next leader
   * (or up to the last row, which no group takes in).
   */
  lemma {:induction false} GroupsWithinResolution(ps: seq<Subpath>, minTime: real, i: nat, k: nat, x: nat)
    requires 0.0 < minTime && i <= |ps|
    requires var leaders := Leaders(ps, minTime, i);
      k < |leaders| && leaders[k] <= x < (if k + 1 < |leaders| then leaders[k + 1] else |ps| - 1)
    ensures var leaders := Leaders(ps, minTime, i);
      leaders[k] < |ps| && ps[x].delay <= ps[leaders[k]].delay + minTime
    decreases |ps| - i
  {
    var e := GroupEnd(ps, ps[i].delay + minTime, i);
    var rest := Leaders(ps, minTime, e);
    assert Leaders(ps, minTime, i) == [i] + rest;
    if k == 0 {
      if 0 < |rest| {
        assert rest[0] == e;
      }
    } else {
      GroupsWithinResolution(ps, minTime, e, k - 1, x);
    }
  }

  /** All rows from i on but the last: row i, then those from i + 1 on but the last. */
  lemma DropLastCons(ps: seq<Subpath>, i: nat)
    requires i + 1 < |ps|
    ensures ps[i..|ps| - 1] == [ps[i]] + (if i + 2 < |ps| then ps[i + 1..|ps| - 1] else [])
  {
    if i + 2 < |ps| {
      assert ps[i..|ps| - 1] == [ps[i]] + ps[i + 1..|ps| - 1];
    }
  }

  /** A group of one row keeps that row's power. */
  lemma SingleRowGroup(m: MathLib, polar: Polar, ps: seq<Subpath>, i: nat)
    requires i < |ps| && PolarLaws(polar) && SqrtLaws(m) && 0.0 <= ps[i].power
    ensures LeaderRow(m, polar, ps, i, i + 1) == ps[i]
  {
    var a := m.sqrt(ps[i].power);
    var z := polar(a, ps[i].phase);
    assert GroupSum(m, polar, ps, i, i + 1) == Add(Zero, z);
    assert Add(Zero, z) == z;
    assert Norm(z) == a * a == ps[i].power;
  }

  /**
   * When consecutive subpaths are all more than `minTime` apart nothing
   * is combined: every subpath keeps its power, and the last one is
   * dropped.
   */
  lemma {:induction false} ResolvedSubpathsKeepTheirPowers(m: MathLib, polar: Polar, ps: seq<Subpath>, minTime: real, i: nat)
    requires 0.0 < minTime && i <= |ps| && PolarLaws(polar) && SqrtLaws(m)
    requires forall k :: 0 < k < |ps| ==> ps[k - 1].delay + minTime < ps[k].delay
    requires forall k :: 0 <= k < |ps| ==> 0.0 <= ps[k].power
    ensures Combined(m, polar, ps, minTime, i) == if i + 1 < |ps| then ps[i..|ps| - 1] else []
    decreases |ps| - i
  {
    if i + 1 < |ps| {
      var boundary := ps[i].delay + minTime;
      var e := GroupEnd(ps, boundary, i);
      assert e == i + 1 by {
        assert boundary < ps[i + 1].delay;
        assert GroupEnd(ps, boundary, i + 1) == i + 1;
      }
      assert LeaderRow(m, polar, ps, i, e) == ps[i] by {
        SingleRowGroup(m, polar, ps, i);
      }
      ResolvedSubpathsKeepTheirPowers(m, polar, ps, minTime, e);
      assert Combined(m, polar, ps, minTime, i) == [ps[i]] + Combined(m, polar, ps, minTime, e) by {
        CombinedStep(m, polar, ps, minTime, i);
      }
      DropLastCons(ps, i);
    }
  }

  /**
   * The inner loop of GetBWAdjustedtedPowerSpectrum: from row `start`,
   * adds up the phasors of the rows up to `boundary`, stopping before the
   * last row.
   */
  method ScanGroup(m: MathLib, polar: Polar, ps: seq<Subpath>, boundary: real, start: nat, combined: bool)
    returns (index: nat, sum: Complex, isSubpathCombined: bool)
    requires start < |ps|
    ensures index == GroupEnd(ps, boundary, start)
    ensures sum == GroupSum(m, polar, ps, start, index)
    ensures isSubpathCombined == (combined || start < index)
  {
    index := start;
    sum := Zero;
    isSubpathCombined := combined;
    while ps[index].delay <= boundary && index < |ps| - 1
      invariant start <= index < |ps|
      invariant GroupEnd(ps, boundary, index) == GroupEnd(ps, boundary, start)
      invariant sum == GroupSum(m, polar, ps, start, index)
      invariant isSubpathCombined == (combined || start < index)
      decreases |ps| - index
    {
      sum := Add(sum, polar(m.sqrt(ps[index].power), ps[index].phase));
      assert sum == Add(GroupSum(m, polar, ps, start, index), Phasor(m, polar, ps[index]));
      isSubpathCombined := true;
      index := index + 1;
    }
  }

  /** Appending the group led by row i to any prefix leaves the rest of the combined spectrum to follow. */
  lemma CombinedAppend(m: MathLib, polar: Polar, ps: seq<Subpath>, minTime: real, i: nat, done: seq<Subpath>)
    requires 0.0 < minTime && i + 1 < |ps|
    ensures var e := GroupEnd(ps, ps[i].delay + minTime, i);
      (done + [LeaderRow(m, polar, ps, i, e)]) + Combined(m, polar, ps, minTime, e) == done + Combined(m, polar, ps, minTime, i)
  {
    var e := GroupEnd(ps, ps[i].delay + minTime, i);
    CombinedStep(m, polar, ps, minTime, i);
    assert (done + [LeaderRow(m, polar, ps, i, e)]) + Combined(m, polar, ps, minTime, e)
        == done + ([LeaderRow(m, polar, ps, i, e)] + Combined(m, polar, ps, minTime, e));
  }

  /**
   * One pass of the outer loop of GetBWAdjustedtedPowerSpectrum: row i is
   * appended, the rows up to its boundary are scanned, and the appended
   * row takes the power of their sum.
   */
  method CombineGroup(m: MathLib, polar: Polar, powerSpectrumOld: seq<Subpath>, minTimeSP: real, i: nat,
                      done: seq<Subpath>, combined: bool)
    returns (powerSpectrum: seq<Subpath>, index: nat, isSubpathCombined: bool)
    requires 0.0 < minTimeSP && i + 1 < |powerSpectrumOld|
    ensures i < index < |powerSpectrumOld| && isSubpathCombined
    ensures index == GroupEnd(powerSpectrumOld, powerSpectrumOld[i].delay + minTimeSP, i)
    ensures powerSpectrum == done + [LeaderRow(m, polar, powerSpectrumOld, i, index)]
  {
    // The source appends row i and then overwrites the power of the back
    // row; here the row is finished before it is appended.
    var leader := powerSpectrumOld[i];
    var boundaryTime := powerSpectrumOld[i].delay + minTimeSP;
    var sum;
    index, sum, isSubpathCombined := ScanGroup(m, polar, powerSpectrumOld, boundaryTime, i, combined);
    if isSubpathCombined {
      var combinedPower := Norm(sum);
      leader := leader.(power := combinedPower);
    }
    powerSpectrum := done + [leader];
  }

  /**
   * The outer loop of GetBWAdjustedtedPowerSpectrum: each group's leader
   * with the group's combined power.
   */
  method CombineSubpaths(m: MathLib, polar: Polar, powerSpectrumOld: seq<Subpath>, minTimeSP: real)
    returns (powerSpectrum: seq<Subpath>)
    requires 0.0 < minTimeSP
    ensures powerSpectrum == Combined(m, polar, powerSpectrumOld, minTimeSP, 0)
  {
    var numSP := |powerSpectrumOld|;
    var i := 0;
    var index := 0;
    var isSubpathCombined := false;
    powerSpectrum := [];
    ghost var target := Combined(m, polar, powerSpectrumOld, minTimeSP, 0);
    while i < numSP - 1
      invariant i <= numSP && index == i
      invariant powerSpectrum + Combined(m, polar, powerSpectrumOld, minTimeSP, i) == target
      decreases numSP - i
    {
      ghost var done := powerSpectrum;
      powerSpectrum, index, isSubpathCombined :=
        CombineGroup(m, polar, powerSpectrumOld, minTimeSP, i, powerSpectrum, isSubpathCombined);
      CombinedAppend(m, polar, powerSpectrumOld, minTimeSP, i, done);
      if isSubpathCombined {
        i := index;
      }
    }
    assert |Combined(m, polar, powerSpectrumOld, minTimeSP, i)| == 0;
    assert powerSpectrum + [] == powerSpectrum;
  }

  /**
   * NYUChannelModel::GetBWAdjustedtedPowerSpectrum: combines the
   * unresolvable subpaths (a single subpath is kept as it is) and aligns
   * the result for LOS.
   */
  method GetBWAdjustedPowerSpectrum(m: MathLib, polar: Polar, powerSpectrumOld: seq<Subpath>, rfBandwidth: real, los: bool)
    returns (powerSpectrum: seq<Subpath>)
    requires 0.0 < rfBandwidth
    requires los ==> 1 <= |powerSpectrumOld|
    ensures powerSpectrum == LosAligned(m, if |powerSpectrumOld| == 1 then powerSpectrumOld
                                           else Combined(m, polar, powerSpectrumOld, MinTime(rfBandwidth), 0), los)
  {
    var minTimeSP := MinTime(rfBandwidth);
    var combined := CombineSubpaths(m, polar, powerSpectrumOld, minTimeSP);
    var source := if |powerSpectrumOld| == 1 then powerSpectrumOld else combined;
    var a := new Subpath[|source|];
    forall k | 0 <= k < a.Length {
      a[k] := source[k];
    }
    assert a[..] == source;
    GetLosAlignedPowerSpectrum(m, a, los);
    powerSpectrum := a[..];
  }
}
