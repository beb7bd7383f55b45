/**
 * Step 8 of the NYU channel generator: every subpath is mapped to a
 * spatial lobe and gets an azimuth and an elevation spread around that
 * lobe's mean direction. The same function serves departure (AOD/ZOD)
 * and arrival (AOA/ZOA) angles.
 */
module Angles {
  import opened Common
  import opened Sequences
  import opened ChannelTable

  /**
   * Where each subpath sits: the n-th subpath, counting cluster by
   * cluster, is subpath `.1` of cluster `.0`.
   */
  function Positions(counts: seq<int>): (r: seq<(nat, nat)>)
    requires forall i :: 0 <= i < |counts| ==> 0 <= counts[i]
    ensures |r| == Total(counts)
    ensures forall n :: 0 <= n < |r| ==> r[n].0 < |counts| && r[n].1 < counts[r[n].0]
  {
    if |counts| == 0 then []
    else
      var last := |counts| - 1;
      Positions(counts[..last]) + seq(counts[last], j requires 0 <= j < counts[last] => (last, j))
  }

  /** Positions of a prefix of the clusters are followed by those of the next cluster. */
  lemma PositionsStep(counts: seq<int>, i: nat)
    requires i < |counts|
    requires forall k :: 0 <= k < |counts| ==> 0 <= counts[k]
    ensures Positions(counts[..i + 1]) == Positions(counts[..i]) + seq(counts[i], j requires 0 <= j < counts[i] => (i, j))
  {
    assert counts[..i + 1][..i] == counts[..i];
  }

  /**
   * Going from the first i clusters to the first i + 1 keeps every earlier
   * position and appends cluster i's subpaths, within the overall total.
   */
  lemma PositionsNext(counts: seq<int>, i: nat)
    requires i < |counts|
    requires forall k :: 0 <= k < |counts| ==> 0 <= counts[k]
    ensures Total(counts[..i + 1]) == Total(counts[..i]) + counts[i] <= Total(counts)
    ensures |Positions(counts[..i + 1])| == |Positions(counts[..i])| + counts[i]
    ensures forall n :: 0 <= n < Total(counts[..i]) ==> Positions(counts[..i + 1])[n] == Positions(counts[..i])[n]
    ensures forall j :: 0 <= j < counts[i] ==> Positions(counts[..i + 1])[Total(counts[..i]) + j] == (i, j)
  {
    TotalPrefix(counts, i + 1);
    assert Total(counts[..i + 1]) == Total(counts[..i]) + counts[i] by {
      assert counts[..i + 1][..i] == counts[..i];
    }
    var before, after := Positions(counts[..i]), Positions(counts[..i + 1]);
    var tail := seq(counts[i], j requires 0 <= j < counts[i] => (i, j));
    assert after == before + tail by {
      PositionsStep(counts, i);
    }
    assert forall n :: 0 <= n < |before| ==> after[n] == before[n];
    assert forall j :: 0 <= j < counts[i] ==> after[|before| + j] == tail[j];
  }

  /** The first cluster's subpaths come first, in order. */
  lemma {:induction false} PositionsHead(counts: seq<int>, j: nat)
    requires 1 <= |counts| && j < counts[0]
    requires forall k :: 0 <= k < |counts| ==> 0 <= counts[k]
    ensures j < Total(counts) && Positions(counts)[j] == (0, j)
    decreases |counts|
  {
    var last := |counts| - 1;
    if last == 0 {
      assert counts[..last] == [];
    } else {
      assert counts[..last][0] == counts[0];
      PositionsHead(counts[..last], j);
    }
  }

  /** One row of the mapping: cluster, subpath, lobe, azimuth and elevation (degrees). */
  datatype LobeAngles = LobeAngles(cluster: nat, subpath: nat, lobe: int, azimuth: real, elevation: real)

  /** The draws for one spatial lobe: a normal draw for its mean elevation, a uniform one on [0, 1] for its mean azimuth. */
  datatype LobeDraw = LobeDraw(normal: real, uniform: real)

  /**
   * The draws for one subpath: its lobe (uniform on [1, lobes]) and one
   * draw each for the azimuth and the elevation spread, a normal draw for
   * a Gaussian spread and a uniform one on [0, 1] for a Laplacian spread.
   */
  datatype SubpathDraw = SubpathDraw(lobe: int, azimuth: real, elevation: real)

  /** The mean direction of a spatial lobe, in degrees. */
  datatype Lobe = Lobe(meanAzimuth: real, meanElevation: real)

  /** 360 * k / lobes: the azimuth where sector k of `lobes` equal sectors begins. */
  function SectorStart(k: nat, lobes: nat): real
    requires 1 <= lobes
  {
    360.0 * (k as real) / (lobes as real)
  }

  /** A point a fraction `u` of the way through sector k. */
  function InSector(k: nat, lobes: nat, u: real): real
    requires 1 <= lobes
  {
    SectorStart(k, lobes) + (SectorStart(k + 1, lobes) - SectorStart(k, lobes)) * u
  }

  /** mean + sigma * N. */
  function Scatter(mean: real, sigma: real, normal: real): real
  {
    mean + sigma * normal
  }

  /** The mean directions of the lobes; entry k is lobe k + 1. */
  function LobeMeans(lobes: nat, mean: real, sigma: real, draws: seq<LobeDraw>): (r: seq<Lobe>)
    requires 1 <= lobes <= |draws|
    ensures |r| == lobes
  {
    seq(lobes, k requires 0 <= k < lobes => Lobe(InSector(k, lobes, draws[k].uniform), Scatter(mean, sigma, draws[k].normal)))
  }

  /**
   * Lobe k + 1 points into the k-th of `lobes` equal azimuth sectors, so
   * every mean azimuth lies in [0, 360].
   */
  lemma LobeMeansInSectors(lobes: nat, mean: real, sigma: real, draws: seq<LobeDraw>, k: nat)
    requires 1 <= lobes <= |draws| && k < lobes
    requires 0.0 <= draws[k].uniform <= 1.0
    ensures var az := LobeMeans(lobes, mean, sigma, draws)[k].meanAzimuth;
      SectorStart(k, lobes) <= az <= SectorStart(k + 1, lobes) && 0.0 <= az <= 360.0
  {
    var a, b := SectorStart(k, lobes), SectorStart(k + 1, lobes);
    var l := lobes as real;
    assert a == (360.0 * (k as real)) / l;
    assert b == (360.0 * (k as real)) / l + 360.0 / l;
    assert 0.0 < 360.0 / l;
    FractionBounds(draws[k].uniform, b - a);
    assert 0.0 <= a;
    assert b <= 360.0 by {
      assert 360.0 * ((k + 1) as real) <= 360.0 * l;
    }
  }

  predicate KnownDistribution(distribution: string)
  {
    distribution == Gaussian || distribution == Laplacian
  }

  /** b = std / sqrt(2), the scale of a Laplacian spread with standard deviation `std`. */
  function LaplacianScale(m: MathLib, std: real): real
    requires m.sqrt(2.0) != 0.0
  {
    std / m.sqrt(2.0)
  }

  /** -b * sgn(z) * ln(1 - 2|z|): an inverse-CDF Laplacian sample for z = U - 1/2. */
  function LaplacianSample(m: MathLib, b: real, z: real): real
  {
    -b * (Signum(z) as real) * m.ln(1.0 - 2.0 * (if z < 0.0 then -z else z))
  }

  /** The offset of a subpath from its lobe's mean, or None for an unknown distribution name. */
  function Spread(m: MathLib, distribution: string, std: real, draw: real): (r: Option<real>)
    requires m.sqrt(2.0) != 0.0
    ensures r.Some? <==> KnownDistribution(distribution)
  {
    if distribution == Gaussian then Some(Scatter(0.0, std, draw))
    else if distribution == Laplacian then Some(LaplacianSample(m, LaplacianScale(m, std), -0.5 + draw))
    else None
  }

  /** A Laplacian draw of exactly one half gives no offset. */
  lemma LaplacianMedianIsZero(m: MathLib, std: real)
    requires m.sqrt(2.0) != 0.0
    ensures Spread(m, Laplacian, std, 0.5) == Some(0.0)
  {
    assert Gaussian != Laplacian;
  }

  /** Elevations are clamped to [-60, 60] degrees. */
  function ClampElevation(elevation: real): real
  {
    Min(Max(elevation, -60.0), 60.0)
  }

  const AzimuthError: string := "Invalid Azimuth Distribution Type"
  const ElevationError: string := "Invalid Elevation Distribution Type"

  /**
   * The azimuth and elevation of one subpath: its lobe's mean direction
   * plus the spreads, the azimuth wrapped into [0, 360) and the elevation
   * clamped to [-60, 60]; an unknown distribution name is an error,
   * azimuth checked first.
   */
  function SubpathAngles(m: MathLib, lobeMeans: seq<Lobe>, azimuthDistribution: string, elevationDistribution: string,
                         stdAzimuth: real, stdElevation: real, d: SubpathDraw): (r: Result<(real, real)>)
    requires 1 <= d.lobe <= |lobeMeans| && m.sqrt(2.0) != 0.0
    ensures r.Err? <==> !(KnownDistribution(azimuthDistribution) && KnownDistribution(elevationDistribution))
    ensures r.Err? ==> r.message == if KnownDistribution(azimuthDistribution) then ElevationError else AzimuthError
  {
    var lobe := lobeMeans[d.lobe - 1];
    match Spread(m, azimuthDistribution, stdAzimuth, d.azimuth)
    case None => Err(AzimuthError)
    case Some(deltaAzimuth) =>
      match Spread(m, elevationDistribution, stdElevation, d.elevation)
      case None => Err(ElevationError)
      case Some(deltaElevation) =>
        Ok((m.wrapTo360(lobe.meanAzimuth + deltaAzimuth), ClampElevation(lobe.meanElevation + deltaElevation)))
  }

  /** Every subpath azimuth lies in [0, 360) and every elevation in [-60, 60]. */
  lemma SubpathAnglesBounded(m: MathLib, lobeMeans: seq<Lobe>, azimuthDistribution: string, elevationDistribution: string,
                             stdAzimuth: real, stdElevation: real, d: SubpathDraw)
    requires 1 <= d.lobe <= |lobeMeans| && m.sqrt(2.0) != 0.0 && WrapLaws(m)
    ensures var r := SubpathAngles(m, lobeMeans, azimuthDistribution, elevationDistribution, stdAzimuth, stdElevation, d);
      r.Ok? ==> 0.0 <= r.value.0 < 360.0 && -60.0 <= r.value.1 <= 60.0
  {
  }

  /**
   * The mean-direction tables of the lobes, indexed from 1 as in the
   * source (entry 0 is unused): lobe k points into the k-th azimuth
   * sector and scatters around the mean elevation.
   */
  method MeanLobeAngles(numberOfSpatialLobes: int, mean: real, sigma: real, lobeDraws: seq<LobeDraw>)
    returns (meanAzimuthAngles: seq<real>, meanElevationAngles: seq<real>)
    requires 1 <= numberOfSpatialLobes <= |lobeDraws|
    ensures |meanAzimuthAngles| == |meanElevationAngles| == numberOfSpatialLobes + 1
    ensures forall k :: 1 <= k <= numberOfSpatialLobes ==>
      Lobe(meanAzimuthAngles[k], meanElevationAngles[k]) == LobeMeans(numberOfSpatialLobes, mean, sigma, lobeDraws)[k - 1]
  {
    meanElevationAngles := [0.0];
    meanAzimuthAngles := [0.0];
    var i := 0;
    while i < numberOfSpatialLobes
      invariant 0 <= i <= numberOfSpatialLobes
      invariant |meanElevationAngles| == |meanAzimuthAngles| == i + 1
      invariant forall k :: 1 <= k <= i ==>
        Lobe(meanAzimuthAngles[k], meanElevationAngles[k]) == LobeMeans(numberOfSpatialLobes, mean, sigma, lobeDraws)[k - 1]
    {
      var azMin := SectorStart(i, numberOfSpatialLobes);
      var azMax := SectorStart(i + 1, numberOfSpatialLobes);
      meanElevationAngles := meanElevationAngles + [Scatter(mean, sigma, lobeDraws[i].normal)];
      meanAzimuthAngles := meanAzimuthAngles + [azMin + (azMax - azMin) * lobeDraws[i].uniform];
      i := i + 1;
    }
  }

  /** The angles of one subpath, computed from the lobe tables as the source does. */
  method SubpathAngle(m: MathLib, meanAzimuthAngles: seq<real>, meanElevationAngles: seq<real>, ghost lobeMeans: seq<Lobe>,
                      azimuthDistribution: string, elevationDistribution: string,
                      stdAzimuth: real, stdElevation: real, d: SubpathDraw)
    returns (r: Result<(real, real)>)
    requires 1 <= d.lobe <= |lobeMeans| && m.sqrt(2.0) != 0.0
    requires |meanAzimuthAngles| == |meanElevationAngles| == |lobeMeans| + 1
    requires forall k :: 1 <= k <= |lobeMeans| ==> Lobe(meanAzimuthAngles[k], meanElevationAngles[k]) == lobeMeans[k - 1]
    ensures r == SubpathAngles(m, lobeMeans, azimuthDistribution, elevationDistribution, stdAzimuth, stdElevation, d)
  {
    var meanElevation := meanElevationAngles[d.lobe];
    var meanAzimuth := meanAzimuthAngles[d.lobe];
    assert Lobe(meanAzimuth, meanElevation) == lobeMeans[d.lobe - 1];
    var deltaAzimuth: real;
    if azimuthDistribution == Gaussian {
      deltaAzimuth := Scatter(0.0, stdAzimuth, d.azimuth);
    } else if azimuthDistribution == Laplacian {
      var z := -0.5 + d.azimuth;
      var b := LaplacianScale(m, stdAzimuth);
      deltaAzimuth := LaplacianSample(m, b, z);
    } else {
      return Err(AzimuthError);
    }
    var deltaElevation: real;
    if elevationDistribution == Gaussian {
      deltaElevation := Scatter(0.0, stdElevation, d.elevation);
    } else if elevationDistribution == Laplacian {
      var z := -0.5 + d.elevation;
      var b := LaplacianScale(m, stdElevation);
      deltaElevation := LaplacianSample(m, b, z);
    } else {
      return Err(ElevationError);
    }
    var subpathAzimuth := m.wrapTo360(meanAzimuth + deltaAzimuth);
    var subpathElevation := Min(Max(meanElevation + deltaElevation, -60.0), 60.0);
    return Ok((subpathAzimuth, subpathElevation));
  }

  /** One row of the mapping: the subpath's position, its lobe and its angles. */
  ghost predicate MappingRow(m: MathLib, lobeMeans: seq<Lobe>, azimuthDistribution: string, elevationDistribution: string,
                             stdAzimuth: real, stdElevation: real, position: (nat, nat), d: SubpathDraw, row: LobeAngles)
    requires 1 <= d.lobe <= |lobeMeans| && m.sqrt(2.0) != 0.0
  {
    (row.cluster, row.subpath) == position
    && row.lobe == d.lobe
    && SubpathAngles(m, lobeMeans, azimuthDistribution, elevationDistribution, stdAzimuth, stdElevation, d)
       == Ok((row.azimuth, row.elevation))
  }

  /**
   * The inner loop of GetSubpathMappingAndAngles: the rows of cluster
   * `cluster`'s `numSP` subpaths, appended to `rows`, which hold the rows
   * of the positions before it in `after`.
   */
  method MapCluster(m: MathLib, meanAzimuthAngles: seq<real>, meanElevationAngles: seq<real>, ghost lobeMeans: seq<Lobe>,
                    azimuthDistribution: string, elevationDistribution: string,
                    stdAzimuth: real, stdElevation: real, draws: seq<SubpathDraw>,
                    cluster: nat, numSP: nat, rows: seq<LobeAngles>, ghost after: seq<(nat, nat)>)
    returns (r: Result<seq<LobeAngles>>)
    requires m.sqrt(2.0) != 0.0
    requires |meanAzimuthAngles| == |meanElevationAngles| == |lobeMeans| + 1
    requires forall k :: 1 <= k <= |lobeMeans| ==> Lobe(meanAzimuthAngles[k], meanElevationAngles[k]) == lobeMeans[k - 1]
    requires |rows| + numSP <= |draws| && |rows| + numSP <= |after|
    requires forall n :: 0 <= n < |draws| ==> 1 <= draws[n].lobe <= |lobeMeans|
    requires forall j :: 0 <= j < numSP ==> after[|rows| + j] == (cluster, j)
    requires forall n :: 0 <= n < |rows| ==>
      MappingRow(m, lobeMeans, azimuthDistribution, elevationDistribution, stdAzimuth, stdElevation,
                 after[n], draws[n], rows[n])
    ensures r.Err? <==> 0 < numSP && !(KnownDistribution(azimuthDistribution) && KnownDistribution(elevationDistribution))
    ensures r.Err? ==> r.message == if KnownDistribution(azimuthDistribution) then ElevationError else AzimuthError
    ensures r.Ok? ==> |r.value| == |rows| + numSP && r.value[..|rows|] == rows
    ensures r.Ok? ==> forall n :: 0 <= n < |r.value| ==>
      MappingRow(m, lobeMeans, azimuthDistribution, elevationDistribution, stdAzimuth, stdElevation,
                 after[n], draws[n], r.value[n])
  {
    var out := rows;
    var j := 0;
    while j < numSP
      invariant 0 <= j <= numSP && |out| == |rows| + j && out[..|rows|] == rows
      invariant !(KnownDistribution(azimuthDistribution) && KnownDistribution(elevationDistribution)) ==> j == 0
      invariant forall n :: 0 <= n < |out| ==>
        MappingRow(m, lobeMeans, azimuthDistribution, elevationDistribution, stdAzimuth, stdElevation,
                   after[n], draws[n], out[n])
    {
      var n := |out|;
      var angles := SubpathAngle(m, meanAzimuthAngles, meanElevationAngles, lobeMeans,
                                 azimuthDistribution, elevationDistribution, stdAzimuth, stdElevation, draws[n]);
      if angles.Err? {
        return Err(angles.message);
      }
      var row := LobeAngles(cluster, j, draws[n].lobe, angles.value.0, angles.value.1);
      assert after[n] == (cluster, j);
      assert MappingRow(m, lobeMeans, azimuthDistribution, elevationDistribution, stdAzimuth, stdElevation,
                        after[n], draws[n], row);
      assert forall k :: 0 <= k < n ==> (out + [row])[k] == out[k];
      out := out + [row];
      j := j + 1;
    }
    return Ok(out);
  }

  /** One pass of GetSubpathMappingAndAngles's outer loop: the rows of cluster i appended to those before it. */
  method MapNextCluster(m: MathLib, meanAzimuthAngles: seq<real>, meanElevationAngles: seq<real>, ghost lobeMeans: seq<Lobe>,
                        azimuthDistribution: string, elevationDistribution: string,
                        stdAzimuth: real, stdElevation: real, draws: seq<SubpathDraw>,
                        counts: seq<int>, i: nat, rows: seq<LobeAngles>)
    returns (r: Result<seq<LobeAngles>>)
    requires m.sqrt(2.0) != 0.0
    requires |meanAzimuthAngles| == |meanElevationAngles| == |lobeMeans| + 1
    requires forall k :: 1 <= k <= |lobeMeans| ==> Lobe(meanAzimuthAngles[k], meanElevationAngles[k]) == lobeMeans[k - 1]
    requires forall k :: 0 <= k < |counts| ==> 0 <= counts[k]
    requires i < |counts| && Total(counts) <= |draws|
    requires forall n :: 0 <= n < |draws| ==> 1 <= draws[n].lobe <= |lobeMeans|
    requires |rows| == Total(counts[..i]) <= Total(counts)
    requires forall n :: 0 <= n < |rows| ==>
      MappingRow(m, lobeMeans, azimuthDistribution, elevationDistribution, stdAzimuth, stdElevation,
                 Positions(counts[..i])[n], draws[n], rows[n])
    ensures r.Err? <==> 0 < counts[i] && !(KnownDistribution(azimuthDistribution) && KnownDistribution(elevationDistribution))
    ensures r.Err? ==> r.message == if KnownDistribution(azimuthDistribution) then ElevationError else AzimuthError
    ensures r.Ok? ==> |r.value| == |rows| + counts[i] == Total(counts[..i + 1]) <= Total(counts)
    ensures r.Ok? ==> forall n :: 0 <= n < |r.value| ==>
      MappingRow(m, lobeMeans, azimuthDistribution, elevationDistribution, stdAzimuth, stdElevation,
                 Positions(counts[..i + 1])[n], draws[n], r.value[n])
  {
    PositionsNext(counts, i);
    ghost var after := Positions(counts[..i + 1]);
    assert forall n :: 0 <= n < |rows| ==>
      MappingRow(m, lobeMeans, azimuthDistribution, elevationDistribution, stdAzimuth, stdElevation,
                 after[n], draws[n], rows[n]) by {
      forall n | 0 <= n < |rows|
        ensures after[n] == Positions(counts[..i])[n]
      {
      }
    }
    assert |rows| + counts[i] <= |draws| && |rows| + counts[i] <= |after|;
    assert forall j :: 0 <= j < counts[i] ==> after[|rows| + j] == (i, j);
    var mapped := MapCluster(m, meanAzimuthAngles, meanElevationAngles, lobeMeans, azimuthDistribution,
                             elevationDistribution, stdAzimuth, stdElevation, draws, i, counts[i], rows, after);
    return mapped;
  }

  /** NYUChannelModel::GetSubpathMappingAndAngles. */
  method GetSubpathMappingAndAngles(m: MathLib, numberOfSpatialLobes: int, counts: seq<int>, mean: real, sigma: real,
                                    stdElevation: real, stdAzimuth: real,
                                    azimuthDistribution: string, elevationDistribution: string,
                                    lobeDraws: seq<LobeDraw>, draws: seq<SubpathDraw>)
    returns (r: Result<seq<LobeAngles>>)
    requires 1 <= numberOfSpatialLobes <= |lobeDraws| && m.sqrt(2.0) != 0.0
    requires forall i :: 0 <= i < |counts| ==> 0 <= counts[i]
    requires Total(counts) <= |draws|
    requires forall n :: 0 <= n < |draws| ==> 1 <= draws[n].lobe <= numberOfSpatialLobes
    ensures r.Err? <==> 0 < Total(counts) && !(KnownDistribution(azimuthDistribution) && KnownDistribution(elevationDistribution))
    ensures r.Err? ==> r.message == if KnownDistribution(azimuthDistribution) then ElevationError else AzimuthError
    ensures r.Ok? ==> |r.value| == Total(counts)
    ensures r.Ok? ==> forall n :: 0 <= n < |r.value| ==>
      MappingRow(m, LobeMeans(numberOfSpatialLobes, mean, sigma, lobeDraws), azimuthDistribution, elevationDistribution,
                 stdAzimuth, stdElevation, Positions(counts)[n], draws[n], r.value[n])
  {
    var numTC := |counts|;
    ghost var lobeMeans := LobeMeans(numberOfSpatialLobes, mean, sigma, lobeDraws);
    var meanAzimuthAngles, meanElevationAngles := MeanLobeAngles(numberOfSpatialLobes, mean, sigma, lobeDraws);
    var rows: seq<LobeAngles> := [];
    var i := 0;
    assert counts[..numTC] == counts;
    TotalPrefix(counts, 0);
    assert |lobeMeans| == numberOfSpatialLobes;
    while i < numTC
      invariant 0 <= i <= numTC && |rows| == Total(counts[..i]) <= Total(counts)
      invariant !(KnownDistribution(azimuthDistribution) && KnownDistribution(elevationDistribution)) ==> |rows| == 0
      invariant forall n :: 0 <= n < |rows| ==>
        MappingRow(m, lobeMeans, azimuthDistribution, elevationDistribution, stdAzimuth, stdElevation,
                   Positions(counts[..i])[n], draws[n], rows[n])
    {
      var mapped := MapNextCluster(m, meanAzimuthAngles, meanElevationAngles, lobeMeans, azimuthDistribution,
                                   elevationDistribution, stdAzimuth, stdElevation, draws, counts, i, rows);
      if mapped.Err? {
        CountAtMostTotal(counts, i);
        return Err(mapped.message);
      }
      rows := mapped.value;
      i := i + 1;
    }
    assert counts[..numTC] == counts;
    return Ok(rows);
  }
}
