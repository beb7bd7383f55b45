/**
 * The NYU channel-parameter table: the statistics, per scenario and per
 * LOS/NLOS state, from which the channel generator draws a realisation,
 * most of them calibrated in frequency between 28 and 140 GHz. Also the
 * small scalar helpers of the generator.
 */
module ChannelTable {
  import opened Common
  import Calibration

  /** The name the table gives a normal angular spread. */
  const Gaussian: string := "Gaussian"
  /** The name the table gives a Laplacian angular spread. */
  const Laplacian: string := "Laplacian"

  /** The counts the generator draws from: clusters, subpaths and spatial lobes. */
  datatype Counts = Counts(
    maxNumberOfTimeCluster: real,
    maxNumberOfSubpaths: real,
    muAod: real,
    muAoa: real,
    lambdaC: real,
    betaS: real,
    muS: real)

  /** Delay statistics, in ns. */
  datatype Delays = Delays(
    muTau: real,
    muRho: real,
    xMax: real,
    minimumVoidInterval: real,
    alphaTau: real,
    betaTau: real,
    alphaRho: real,
    betaRho: real)

  /** Shadowing (dB) and decay constants (ns) of cluster and subpath powers. */
  datatype Powers = Powers(
    sigmaCluster: real,
    timeClusterGamma: real,
    sigmaSubpath: real,
    subpathGamma: real)

  /**
   * Angle statistics of one side of the link, in degrees: the mean and
   * spread of the lobe elevation (ZOD or ZOA) and the spread of a subpath
   * around its lobe, with the distribution of that spread.
   */
  datatype AngleStats = AngleStats(
    meanElevation: real,
    sigmaElevation: real,
    sdAzimuthSpread: real,
    sdElevationSpread: real,
    azimuthDistribution: string,
    elevationDistribution: string)

  /**
   * NYUChannelModel::ParamsTable, grouped; `departure` holds the AOD/ZOD
   * entries and `arrival` the AOA/ZOA entries. Entries a branch does not
   * set keep the struct's default 0.
   */
  datatype ParamsTable = ParamsTable(
    counts: Counts,
    delays: Delays,
    powers: Powers,
    departure: AngleStats,
    arrival: AngleStats,
    los: bool,
    xpdMean: real,
    xpdSd: real)

  function Cal(val1: real, val2: real, freq: real): real
  {
    Calibration.GetCalibratedParameter(val1, val2, freq)
  }

  /** The rounding the Rma and InH counts go through. */
  function RoundedCal(val1: real, val2: real, freq: real): real
  {
    Round(Cal(val1, val2, freq)) as real
  }

  /** The delays, powers and angles Umi, Uma and Rma share in LOS; `freq` in GHz. */
  function OutdoorLos(counts: Counts, freq: real): ParamsTable
  {
    ParamsTable(
      counts,
      Delays(Cal(123.0, 80.0, freq), 30.0, 0.2, 25.0, 0.0, 0.0, 0.0, 0.0),
      Powers(Cal(1.0, 5.34, freq), Cal(25.9, 40.0, freq), Cal(6.0, 3.48, freq), Cal(16.9, 20.0, freq)),
      AngleStats(Cal(-12.6, -3.2, freq), Cal(5.9, 1.2, freq), Cal(8.5, 4.3, freq), Cal(2.5, 0.1, freq),
                 Gaussian, Gaussian),
      AngleStats(Cal(10.8, 2.0, freq), Cal(5.3, 2.9, freq), Cal(10.5, 7.3, freq), Cal(11.5, 3.2, freq),
                 Gaussian, Laplacian),
      true, 0.0, 0.0)
  }

  /** The delays, powers and angles Umi, Uma and Rma share in NLOS; `freq` in GHz. */
  function OutdoorNlos(counts: Counts, freq: real): ParamsTable
  {
    ParamsTable(
      counts,
      Delays(Cal(83.0, 58.0, freq), 33.0, 0.5, 25.0, 0.0, 0.0, 0.0, 0.0),
      Powers(Cal(3.0, 4.68, freq), Cal(51.0, 49.0, freq), Cal(6.0, 3.48, freq), Cal(15.5, 20.0, freq)),
      AngleStats(Cal(-4.9, -1.6, freq), Cal(4.5, 0.5, freq), Cal(11.0, 5.0, freq), Cal(3.0, 2.3, freq),
                 Gaussian, Gaussian),
      AngleStats(Cal(3.6, 1.6, freq), Cal(4.8, 2.0, freq), Cal(7.5, 7.5, freq), Cal(6.0, 0.0, freq),
                 Gaussian, Laplacian),
      false, 0.0, 0.0)
  }

  /** The Umi and Uma table; it differs from Rma only in the counts. */
  function UrbanTable(los: bool, freq: real): ParamsTable
  {
    if los then
      OutdoorLos(Counts(Cal(6.0, 5.0, freq), 30.0, Cal(1.9, 1.4, freq), Cal(1.8, 1.2, freq), 0.0, 0.0, 1.8), freq)
    else
      OutdoorNlos(Counts(Cal(6.0, 3.0, freq), 30.0, Cal(1.5, 1.3, freq), Cal(2.1, 2.1, freq), 0.0, 0.0, 3.0), freq)
  }

  /** The Rma counts: rounded, and no muS. */
  function RmaCounts(freq: real): Counts
  {
    Counts(RoundedCal(1.0, 1.0, freq), RoundedCal(2.0, 2.0, freq),
           RoundedCal(1.0, 1.0, freq), RoundedCal(1.0, 1.0, freq), 0.0, 0.0, 0.0)
  }

  function RmaTable(los: bool, freq: real): ParamsTable
  {
    if los then OutdoorLos(RmaCounts(freq), freq) else OutdoorNlos(RmaCounts(freq), freq)
  }

  function InHTable(los: bool, freq: real): ParamsTable
  {
    if los then
      ParamsTable(
        Counts(0.0, 0.0, RoundedCal(3.0, 2.0, freq), RoundedCal(3.0, 2.0, freq),
               Cal(3.6, 0.9, freq), Cal(0.7, 1.0, freq), Cal(3.7, 1.4, freq)),
        Delays(Cal(17.3, 14.6, freq), Cal(3.4, 1.1, freq), 0.0, 6.0, 0.0, 0.0, 0.0, 0.0),
        Powers(Cal(10.0, 9.0, freq), Cal(20.7, 18.2, freq), Cal(5.0, 5.0, freq), Cal(2.0, 2.0, freq)),
        AngleStats(Cal(-7.3, -6.8, freq), Cal(3.8, 4.9, freq), Cal(20.6, 4.8, freq), Cal(15.7, 4.3, freq),
                   Gaussian, Gaussian),
        AngleStats(Cal(7.4, 7.4, freq), Cal(3.8, 4.5, freq), Cal(17.7, 4.7, freq), Cal(14.4, 4.4, freq),
                   Gaussian, Gaussian),
        true, 0.0, 0.0)
    else
      ParamsTable(
        Counts(0.0, 0.0, RoundedCal(3.0, 3.0, freq), RoundedCal(3.0, 2.0, freq),
               Cal(5.1, 1.8, freq), Cal(0.7, 1.0, freq), Cal(5.3, 1.2, freq)),
        Delays(Cal(10.9, 21.0, freq), Cal(22.7, 2.7, freq), 0.0, 6.0, 0.0, 0.0, 0.0, 0.0),
        Powers(Cal(10.0, 10.0, freq), Cal(23.6, 16.1, freq), Cal(6.0, 6.0, freq), Cal(9.2, 2.4, freq)),
        AngleStats(Cal(-5.5, -2.5, freq), Cal(2.9, 2.7, freq), Cal(27.1, 4.8, freq), Cal(16.2, 2.8, freq),
                   Gaussian, Gaussian),
        AngleStats(Cal(5.5, 4.8, freq), Cal(2.9, 2.8, freq), Cal(20.3, 6.6, freq), Cal(15.0, 4.5, freq),
                   Gaussian, Gaussian),
        false, 0.0, 0.0)
  }

  /** The InF table is not calibrated in frequency, and both of its branches set `los`. */
  function InFTable(los: bool): ParamsTable
  {
    if los then
      ParamsTable(
        Counts(0.0, 0.0, 1.8, 1.9, 2.4, 1.0, 2.6),
        Delays(0.0, 0.0, 0.0, 8.0, 0.7, 26.9, 1.2, 16.3),
        Powers(10.0, 16.2, 13.0, 4.7),
        AngleStats(-4.0, 4.3, 6.7, 3.0, Laplacian, Gaussian),
        AngleStats(4.0, 4.3, 11.7, 2.3, Laplacian, Gaussian),
        true, 0.0, 0.0)
    else
      ParamsTable(
        Counts(0.0, 0.0, 1.8, 2.5, 2.0, 1.0, 7.0),
        Delays(0.0, 0.0, 0.0, 8.0, 0.8, 13.9, 1.6, 9.0),
        Powers(6.0, 18.7, 11.0, 7.3),
        AngleStats(-3.0, 3.5, 9.3, 4.5, Laplacian, Gaussian),
        AngleStats(3.0, 3.5, 14.1, 3.2, Laplacian, Gaussian),
        true, 0.0, 0.0)
  }

  /**
   * NYUChannelModel::GetNYUTable: the table for the scenario and the
   * link's condition at `frequency` Hz. Every condition other than LOS
   * takes the NLOS entries. The cross-polarisation statistics depend only
   * on the condition. The table's LOS flag follows the condition, except
   * in InF where the NLOS entries also set it: an InF link is always
   * generated as LOS.
   */
  function GetNYUTable(scenario: Scenario, condition: ChannelCondition, frequency: real): (t: ParamsTable)
    ensures t.los <==> (condition.IsLos() || scenario == InF)
    ensures t.xpdSd == 1.6
  {
    var freq := frequency / 1e9;
    var los := condition.IsLos();
    var t := match scenario
      case Umi => UrbanTable(los, freq)
      case Uma => UrbanTable(los, freq)
      case Rma => RmaTable(los, freq)
      case InH => InHTable(los, freq)
      case InF => InFTable(los);
    if los then t.(xpdMean := 11.5 + freq * 0.10, xpdSd := 1.6)
    else t.(xpdMean := 5.5 + freq * 0.13, xpdSd := 1.6)
  }

  /** Umi and Uma share one table at every frequency and condition. */
  lemma UmiAndUmaShareTable(condition: ChannelCondition, frequency: real)
    ensures GetNYUTable(Umi, condition, frequency) == GetNYUTable(Uma, condition, frequency)
  {
  }

  /**
   * Rma has at most one time cluster, two subpaths per cluster and one
   * spatial lobe per side, at every frequency.
   */
  lemma RmaSingleClusterSingleLobe(condition: ChannelCondition, frequency: real)
    ensures var t := GetNYUTable(Rma, condition, frequency);
      t.counts.maxNumberOfTimeCluster == 1.0 && t.counts.maxNumberOfSubpaths == 2.0
      && t.counts.muAod == 1.0 && t.counts.muAoa == 1.0
  {
    var freq := frequency / 1e9;
    Calibration.CalibratedConstant(1.0, freq);
    Calibration.CalibratedConstant(2.0, freq);
  }

  /** The minimum void interval between clusters is 25 ns outdoors, 6 ns in InH and 8 ns in InF. */
  lemma VoidIntervalByScenario(scenario: Scenario, condition: ChannelCondition, frequency: real)
    ensures var v := GetNYUTable(scenario, condition, frequency).delays.minimumVoidInterval;
      v == (if scenario == InH then 6.0 else if scenario == InF then 8.0 else 25.0)
  {
  }

  /**
   * Every angular spread the table names is Gaussian or Laplacian, so the
   * subpath-angle generator never reaches its fatal error on a table entry.
   */
  lemma DistributionTypesKnown(scenario: Scenario, condition: ChannelCondition, frequency: real)
    ensures var t := GetNYUTable(scenario, condition, frequency);
      t.departure.azimuthDistribution in {Gaussian, Laplacian}
      && t.departure.elevationDistribution in {Gaussian, Laplacian}
      && t.arrival.azimuthDistribution in {Gaussian, Laplacian}
      && t.arrival.elevationDistribution in {Gaussian, Laplacian}
  {
  }

  /**
   * The power-decay constants are positive in every entry, so the cluster
   * and subpath power formulas never divide by zero.
   */
  lemma DecayConstantsPositive(scenario: Scenario, condition: ChannelCondition, frequency: real)
    ensures var t := GetNYUTable(scenario, condition, frequency);
      0.0 < t.powers.timeClusterGamma && 0.0 < t.powers.subpathGamma
  {
    var freq := frequency / 1e9;
    Calibration.CalibratedBetween(25.9, 40.0, freq);
    Calibration.CalibratedBetween(16.9, 20.0, freq);
    Calibration.CalibratedBetween(51.0, 49.0, freq);
    Calibration.CalibratedBetween(15.5, 20.0, freq);
    Calibration.CalibratedBetween(20.7, 18.2, freq);
    Calibration.CalibratedBetween(2.0, 2.0, freq);
    Calibration.CalibratedBetween(23.6, 16.1, freq);
    Calibration.CalibratedBetween(9.2, 2.4, freq);
  }

  /**
   * The cross-polarisation mean does not depend on the scenario, and below
   * 200 GHz it is larger for a LOS link than for a NLOS one.
   */
  lemma XpdByCondition(s1: Scenario, s2: Scenario, los: ChannelCondition, nlos: ChannelCondition, frequency: real)
    requires los.IsLos() && !nlos.IsLos()
    requires 0.0 <= frequency < 200.0e9
    ensures GetNYUTable(s1, los, frequency).xpdMean == GetNYUTable(s2, los, frequency).xpdMean
    ensures GetNYUTable(s1, nlos, frequency).xpdMean == GetNYUTable(s2, nlos, frequency).xpdMean
    ensures GetNYUTable(s1, nlos, frequency).xpdMean < GetNYUTable(s1, los, frequency).xpdMean
  {
  }

  /** NYUChannelModel::GetSignum. */
  function Signum(value: real): (r: int)
    ensures r == 1 <==> value > 0.0
    ensures r == -1 <==> value < 0.0
    ensures r == 0 <==> value == 0.0
  {
    if value > 0.0 then 1 else if value < 0.0 then -1 else 0
  }

  /** The sign times the value is the magnitude. */
  lemma SignumTimesValue(value: real)
    ensures Signum(value) as real * value == (if value < 0.0 then -value else value)
  {
  }

  /** NYUChannelModel::GetDbToPow: a power in dB on the linear scale. */
  function DbToPow(m: MathLib, pwrDb: real): (r: real)
    ensures PowLaws(m) ==> 0.0 < r
  {
    m.pow(10.0, pwrDb * 0.10)
  }

  /**
   * NYUChannelModel::DynamicRange: the weakest power, below the strongest
   * subpath, that the NYU channel sounder detects at a 2-D distance in metres.
   */
  function DynamicRange(distance2D: real): (r: real)
    ensures r == 190.0 || r == 220.0
    ensures r == 190.0 <==> distance2D <= 500.0
  {
    if distance2D <= 500.0 then 190.0 else 220.0
  }

  /** A longer link never gets a smaller dynamic range. */
  lemma DynamicRangeMonotone(d1: real, d2: real)
    requires d1 <= d2
    ensures DynamicRange(d1) <= DynamicRange(d2)
  {
  }
}
