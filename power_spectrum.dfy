/**
 * Steps 9 to 11 of the NYU channel generator: the subpath parameters are
 * gathered into a power spectrum, subpaths the receiver bandwidth cannot
 * resolve are combined, the LOS subpath is aligned between the two ends,
 * and subpaths too weak for the dynamic range are dropped.
 */
module PowerSpectrum {
  import opened Common
  import opened Sequences
  import opened Angles

  /**
   * One row of the power spectrum: absolute delay (ns), power, phase
   * (radians), AOD, ZOD, AOA, ZOA (degrees) and the departure and arrival
   * lobes.
   */
  datatype Subpath = Subpath(delay: real, power: real, phase: real,
                             aod: real, zod: real, aoa: real, zoa: real,
                             aodLobe: int, aoaLobe: int)

  /**
   * Row n of the spectrum, subpath j of cluster i: its delay and power,
   * the first phase drawn for it, and the angles of row j (not row n) of
   * the departure and arrival mappings.
   */
  function SpectrumRow(absoluteDelays: seq<seq<real>>, powers: seq<seq<real>>, phases: seq<seq<real>>,
                       aodZod: seq<LobeAngles>, aoaZoa: seq<LobeAngles>, position: (nat, nat), n: nat): (r: Subpath)
    requires position.0 < |absoluteDelays| && position.1 < |absoluteDelays[position.0]|
    requires position.0 < |powers| && position.1 < |powers[position.0]|
    requires n < |phases| && 1 <= |phases[n]|
    requires position.1 < |aodZod| && position.1 < |aoaZoa|
    ensures r.delay == absoluteDelays[position.0][position.1] && r.power == powers[position.0][position.1]
    ensures r.phase == phases[n][0]
    ensures (r.aod, r.zod, r.aodLobe) == (aodZod[position.1].azimuth, aodZod[position.1].elevation, aodZod[position.1].lobe)
    ensures (r.aoa, r.zoa, r.aoaLobe) == (aoaZoa[position.1].azimuth, aoaZoa[position.1].elevation, aoaZoa[position.1].lobe)
  {
    var (i, j) := position;
    Subpath(absoluteDelays[i][j], powers[i][j], phases[n][0],
            aodZod[j].azimuth, aodZod[j].elevation, aoaZoa[j].azimuth, aoaZoa[j].elevation,
            aodZod[j].lobe, aoaZoa[j].lobe)
  }

  /** The per-cluster tables hold an entry for every subpath the counts announce. */
  ghost predicate SpectrumInputs(counts: seq<int>, absoluteDelays: seq<seq<real>>, powers: seq<seq<real>>,
                                 phases: seq<seq<real>>, aodZod: seq<LobeAngles>, aoaZoa: seq<LobeAngles>)
  {
    (forall i :: 0 <= i < |counts| ==> 0 <= counts[i])
    && |counts| <= |absoluteDelays| && |counts| <= |powers|
    && (forall i :: 0 <= i < |counts| ==>
          counts[i] <= |absoluteDelays[i]| && counts[i] <= |powers[i]| && counts[i] <= |aodZod| && counts[i] <= |aoaZoa|)
    && Total(counts) <= |phases|
    && (forall n :: 0 <= n < Total(counts) ==> 1 <= |phases[n]|)
  }

  /** The inner loop of GetPowerSpectrum: the rows of cluster i, appended after the `numSP` rows so far. */
  method AppendClusterRows(counts: seq<int>, absoluteDelays: seq<seq<real>>, powers: seq<seq<real>>,
                           phases: seq<seq<real>>, aodZod: seq<LobeAngles>, aoaZoa: seq<LobeAngles>,
                           i: nat, rows: seq<Subpath>, ghost positions: seq<(nat, nat)>)
    returns (powerSpectrum: seq<Subpath>)
    requires SpectrumInputs(counts, absoluteDelays, powers, phases, aodZod, aoaZoa) && i < |counts|
    requires |positions| == |rows| + counts[i] <= Total(counts)
    requires forall j :: 0 <= j < counts[i] ==> positions[|rows| + j] == (i, j)
    requires forall n :: 0 <= n < |positions| ==> positions[n].0 < |counts| && positions[n].1 < counts[positions[n].0]
    requires forall n :: 0 <= n < |rows| ==>
      rows[n] == SpectrumRow(absoluteDelays, powers, phases, aodZod, aoaZoa, positions[n], n)
    ensures |powerSpectrum| == |positions|
    ensures forall n :: 0 <= n < |powerSpectrum| ==>
      powerSpectrum[n] == SpectrumRow(absoluteDelays, powers, phases, aodZod, aoaZoa, positions[n], n)
  {
    powerSpectrum := rows;
    var numSP := |rows|;
    var j := 0;
    while j < counts[i]
      invariant 0 <= j <= counts[i] && numSP == |powerSpectrum| == |rows| + j
      invariant forall n :: 0 <= n < numSP ==>
        powerSpectrum[n] == SpectrumRow(absoluteDelays, powers, phases, aodZod, aoaZoa, positions[n], n)
    {
      var row := Subpath(absoluteDelays[i][j], powers[i][j], phases[numSP][0],
                         aodZod[j].azimuth, aodZod[j].elevation, aoaZoa[j].azimuth, aoaZoa[j].elevation,
                         aodZod[j].lobe, aoaZoa[j].lobe);
      assert positions[numSP] == (i, j);
      assert forall k :: 0 <= k < numSP ==> (powerSpectrum + [row])[k] == powerSpectrum[k];
      powerSpectrum := powerSpectrum + [row];
      numSP := numSP + 1;
      j := j + 1;
    }
  }

  /** One pass of GetPowerSpectrum's outer loop: cluster i's rows appended after those of the clusters before it. */
  method AppendNextCluster(counts: seq<int>, absoluteDelays: seq<seq<real>>, powers: seq<seq<real>>,
                           phases: seq<seq<real>>, aodZod: seq<LobeAngles>, aoaZoa: seq<LobeAngles>,
                           i: nat, rows: seq<Subpath>)
    returns (powerSpectrum: seq<Subpath>)
    requires SpectrumInputs(counts, absoluteDelays, powers, phases, aodZod, aoaZoa) && i < |counts|
    requires |rows| == Total(counts[..i]) <= Total(counts)
    requires forall n :: 0 <= n < |rows| ==>
      rows[n] == SpectrumRow(absoluteDelays, powers, phases, aodZod, aoaZoa, Positions(counts[..i])[n], n)
    ensures |powerSpectrum| == |rows| + counts[i] == Total(counts[..i + 1]) <= Total(counts)
    ensures forall n :: 0 <= n < |powerSpectrum| ==>
      powerSpectrum[n] == SpectrumRow(absoluteDelays, powers, phases, aodZod, aoaZoa, Positions(counts[..i + 1])[n], n)
  {
    PositionsNext(counts, i);
    ghost var after := Positions(counts[..i + 1]);
    assert forall n :: 0 <= n < |rows| ==>
      rows[n] == SpectrumRow(absoluteDelays, powers, phases, aodZod, aoaZoa, after[n], n) by {
      forall n | 0 <= n < |rows|
        ensures after[n] == Positions(counts[..i])[n]
      {
      }
    }
    assert |after| == |rows| + counts[i];
    assert forall j :: 0 <= j < counts[i] ==> after[|rows| + j] == (i, j);
    assert forall n :: 0 <= n < |after| ==> after[n].0 < |counts| && after[n].1 < counts[after[n].0] by {
      forall n | 0 <= n < |after|
        ensures after[n].0 < |counts| && after[n].1 < counts[after[n].0]
      {
        assert after[n].0 < i + 1 && after[n].1 < counts[..i + 1][after[n].0];
      }
    }
    powerSpectrum := AppendClusterRows(counts, absoluteDelays, powers, phases, aodZod, aoaZoa, i, rows, after);
  }

  /** NYUChannelModel::GetPowerSpectrum. */
  method GetPowerSpectrum(counts: seq<int>, absoluteDelays: seq<seq<real>>, powers: seq<seq<real>>,
                          phases: seq<seq<real>>, aodZod: seq<LobeAngles>, aoaZoa: seq<LobeAngles>)
    returns (powerSpectrum: seq<Subpath>)
    requires SpectrumInputs(counts, absoluteDelays, powers, phases, aodZod, aoaZoa)
    ensures |powerSpectrum| == Total(counts)
    ensures forall n :: 0 <= n < |powerSpectrum| ==>
      powerSpectrum[n] == SpectrumRow(absoluteDelays, powers, phases, aodZod, aoaZoa, Positions(counts)[n], n)
  {
    var numTC := |counts|;
    var numSP := 0;
    powerSpectrum := [];
    var i := 0;
    TotalPrefix(counts, 0);
    assert counts[..numTC] == counts;
    while i < numTC
      invariant 0 <= i <= numTC && numSP == |powerSpectrum| == Total(counts[..i]) <= Total(counts)
      invariant forall n :: 0 <= n < numSP ==>
        powerSpectrum[n] == SpectrumRow(absoluteDelays, powers, phases, aodZod, aoaZoa, Positions(counts[..i])[n], n)
    {
      powerSpectrum := AppendNextCluster(counts, absoluteDelays, powers, phases, aodZod, aoaZoa, i, powerSpectrum);
      numSP := numSP + counts[i];
      i := i + 1;
    }
  }

  /**
   * The angles of every row are taken from the mapping row with its
   * within-cluster index, so while j < counts[0] a subpath of any cluster
   * carries the angles the mapping gave subpath j of the first cluster.
   */
  lemma SpectrumAnglesComeFromFirstCluster(counts: seq<int>, absoluteDelays: seq<seq<real>>, powers: seq<seq<real>>,
                                           phases: seq<seq<real>>, aodZod: seq<LobeAngles>, aoaZoa: seq<LobeAngles>,
                                           n: nat)
    requires SpectrumInputs(counts, absoluteDelays, powers, phases, aodZod, aoaZoa)
    requires 1 <= |counts| && n < Total(counts) && Positions(counts)[n].1 < counts[0]
    requires |aodZod| == Total(counts)
    requires forall k :: 0 <= k < |aodZod| ==> (aodZod[k].cluster, aodZod[k].subpath) == Positions(counts)[k]
    ensures var row := SpectrumRow(absoluteDelays, powers, phases, aodZod, aoaZoa, Positions(counts)[n], n);
      exists k :: 0 <= k < |aodZod| && aodZod[k].cluster == 0 && row.aod == aodZod[k].azimuth && row.zod == aodZod[k].elevation
  {
    var j := Positions(counts)[n].1;
    PositionsHead(counts, j);
    assert aodZod[j].cluster == 0;
  }
}
