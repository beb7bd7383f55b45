/**
 * NYUPropagationLossModel and its five scenario variants: the received
 * power is the transmitted power minus a log-distance path loss with
 * frequency-calibrated exponents, plus optional shadowing (cached per link
 * and correlated in space), outdoor-to-indoor, foliage and atmospheric
 * terms.
 *
 * The scenario subclasses of the source differ only in their loss
 * formulas, shadowing deviations and correlation distances; here the
 * scenario is a constant of the one class and those functions dispatch on
 * it.
 */
module PropagationLoss {
  import opened Common
  import PairKey
  import Calibration
  import ConditionModel

  /** Speed of light, in m/s. */
  const SpeedOfLight: real := 3.0e8
  /** M_PI as a double. */
  const Pi: real := 3.141592653589793
  /** Reference distance of the free-space term, in metres. */
  const RefDistance: real := 1.0

  /**
   * NYUPropagationLossModel::GetCalibratedParameter: the calibration of
   * a path-loss parameter, for a frequency given in Hz.
   */
  function GetCalibratedParameter(ple1: real, ple2: real, frequency: real): (r: real)
    ensures frequency < 28.0e9 ==> r == ple1
    ensures frequency > 140.0e9 ==> r == ple2
    ensures Min(ple1, ple2) <= r <= Max(ple1, ple2)
    ensures ple1 == ple2 ==> r == ple1
  {
    Calibration.CalibratedBetween(ple1, ple2, frequency / 1.0e9);
    Calibration.GetCalibratedParameter(ple1, ple2, frequency / 1.0e9)
  }

  /** Free-space path loss at the reference distance of 1 m, in dB. */
  function FreeSpacePathLoss(m: MathLib, frequency: real): real
    requires frequency != 0.0
  {
    var lambda := SpeedOfLight / frequency;
    20.0 * m.log10(4.0 * Pi * RefDistance / lambda)
  }

  /** InH LOS exponent: a separate straight line below 28 GHz, calibrated above. */
  function InHLosExponent(frequency: real): real
  {
    if frequency < 28.0e9 then frequency / 1.0e9 * (1.2 - 1.8) / (28.0 - 1.0) + (28.0 * 1.8 - 1.2) / 27.0
    else GetCalibratedParameter(1.2, 1.8, frequency)
  }

  /** The two pieces of the InH LOS exponent meet at 28 GHz. */
  lemma InHLosExponentContinuous()
    ensures 28.0e9 / 1.0e9 * (1.2 - 1.8) / (28.0 - 1.0) + (28.0 * 1.8 - 1.2) / 27.0 == InHLosExponent(28.0e9)
    ensures InHLosExponent(28.0e9) == 1.2
  {
    Calibration.CalibratedIsInterpolation(1.2, 1.8, 28.0);
  }

  /**
   * The factor that multiplies log10(d2D) in the scenario's LOS (`los`) or
   * NLOS formula: ten times the calibrated path-loss exponent, except for
   * RMa, whose slope depends on the base-station height.
   */
  function DistanceSlope(scenario: Scenario, los: bool, frequency: real, hBs: real): real
  {
    match scenario
    case Umi => 10.0 * (if los then GetCalibratedParameter(2.0, 2.0, frequency) else GetCalibratedParameter(3.2, 2.9, frequency))
    case InH => 10.0 * (if los then InHLosExponent(frequency) else GetCalibratedParameter(2.7, 2.7, frequency))
    case Uma => 10.0 * (if los then GetCalibratedParameter(2.0, 2.0, frequency) else GetCalibratedParameter(2.9, 2.9, frequency))
    case Rma => if los then 23.1 * (1.0 - 0.03 * ((hBs - 35.0) / 35.0)) else 30.7 * (1.0 - 0.049 * ((hBs - 35.0) / 35.0))
    case InF => 10.0 * (if los then GetCalibratedParameter(1.7, 1.7, frequency) else GetCalibratedParameter(3.1, 3.1, frequency))
  }

  /** The close-in path loss: free space up to 1 m, then `slope` dB per decade of distance. */
  function LogDistanceLoss(m: MathLib, frequency: real, slope: real, distance2D: real): real
    requires frequency != 0.0
  {
    FreeSpacePathLoss(m, frequency) + slope * m.log10(distance2D)
  }

  /**
   * GetLossLos of the scenario's subclass: beyond the reference distance
   * the loss is at least the close-in loss at that distance.
   */
  function GetLossLos(scenario: Scenario, m: MathLib, frequency: real, distance2D: real, hBs: real): (r: real)
    requires frequency != 0.0
    ensures Log10Laws(m) && (scenario == Rma ==> hBs <= 700.0) && RefDistance <= distance2D ==>
      LogDistanceLoss(m, frequency, DistanceSlope(scenario, true, frequency, hBs), RefDistance) <= r
  {
    AtLeastReferenceLoss(scenario, m, true, frequency, distance2D, hBs);
    LogDistanceLoss(m, frequency, DistanceSlope(scenario, true, frequency, hBs), distance2D)
  }

  /**
   * GetLossNlos of the scenario's subclass: beyond the reference distance
   * the loss is at least the close-in loss at that distance.
   */
  function GetLossNlos(scenario: Scenario, m: MathLib, frequency: real, distance2D: real, hBs: real): (r: real)
    requires frequency != 0.0
    ensures Log10Laws(m) && (scenario == Rma ==> hBs <= 700.0) && RefDistance <= distance2D ==>
      LogDistanceLoss(m, frequency, DistanceSlope(scenario, false, frequency, hBs), RefDistance) <= r
  {
    AtLeastReferenceLoss(scenario, m, false, frequency, distance2D, hBs);
    LogDistanceLoss(m, frequency, DistanceSlope(scenario, false, frequency, hBs), distance2D)
  }

  /** The close-in loss at the reference distance bounds the loss at any farther distance. */
  lemma AtLeastReferenceLoss(scenario: Scenario, m: MathLib, los: bool, frequency: real, d: real, hBs: real)
    requires frequency != 0.0
    ensures Log10Laws(m) && (scenario == Rma ==> hBs <= 700.0) && RefDistance <= d ==>
      LogDistanceLoss(m, frequency, DistanceSlope(scenario, los, frequency, hBs), RefDistance)
      <= LogDistanceLoss(m, frequency, DistanceSlope(scenario, los, frequency, hBs), d)
  {
    if Log10Laws(m) && (scenario == Rma ==> hBs <= 700.0) && RefDistance <= d {
      DistanceSlopeNonNegative(scenario, los, frequency, hBs);
      LogDistanceLossMonotone(m, frequency, DistanceSlope(scenario, los, frequency, hBs), RefDistance, d);
    }
  }

  /** GetLoss: LOS and NLOS pick their formula, any other condition is fatal. */
  function GetLoss(scenario: Scenario, m: MathLib, cond: LosConditionValue, frequency: real, distance2D: real, hBs: real)
    : (r: Result<real>)
    requires frequency != 0.0
    ensures r.Ok? <==> cond == LOS || cond == NLOS
    ensures cond == LOS ==> r == Ok(GetLossLos(scenario, m, frequency, distance2D, hBs))
    ensures cond == NLOS ==> r == Ok(GetLossNlos(scenario, m, frequency, distance2D, hBs))
  {
    if cond == LOS then Ok(GetLossLos(scenario, m, frequency, distance2D, hBs))
    else if cond == NLOS then Ok(GetLossNlos(scenario, m, frequency, distance2D, hBs))
    else Err("Unknown channel condition")
  }

  /**
   * Every exponent is non-negative; so is the RMa slope for base stations
   * up to 700 m high.
   */
  lemma DistanceSlopeNonNegative(scenario: Scenario, los: bool, frequency: real, hBs: real)
    requires scenario == Rma ==> hBs <= 700.0
    ensures 0.0 <= DistanceSlope(scenario, los, frequency, hBs)
  {
    if scenario == InH && los && frequency < 28.0e9 {
      assert frequency / 1.0e9 * (1.2 - 1.8) / (28.0 - 1.0) == -0.6 * (frequency / 1.0e9) / 27.0;
    }
  }

  /**
   * Path loss does not decrease with distance when the slope is
   * non-negative; by DistanceSlopeNonNegative that is every scenario.
   */
  lemma LossNonDecreasingInDistance(scenario: Scenario, m: MathLib, los: bool, frequency: real, d1: real, d2: real, hBs: real)
    requires Log10Laws(m)
    requires frequency != 0.0
    requires 0.0 < d1 <= d2
    requires scenario == Rma ==> hBs <= 700.0
    ensures los ==> GetLossLos(scenario, m, frequency, d1, hBs) <= GetLossLos(scenario, m, frequency, d2, hBs)
    ensures !los ==> GetLossNlos(scenario, m, frequency, d1, hBs) <= GetLossNlos(scenario, m, frequency, d2, hBs)
  {
    DistanceSlopeNonNegative(scenario, los, frequency, hBs);
    LogDistanceLossMonotone(m, frequency, DistanceSlope(scenario, los, frequency, hBs), d1, d2);
  }

  lemma LogDistanceLossMonotone(m: MathLib, frequency: real, slope: real, d1: real, d2: real)
    requires Log10Laws(m)
    requires frequency != 0.0
    requires 0.0 <= slope && 0.0 < d1 <= d2
    ensures LogDistanceLoss(m, frequency, slope, d1) <= LogDistanceLoss(m, frequency, slope, d2)
  {
    if d1 < d2 {
      assert m.log10(d1) < m.log10(d2);
      ScaleMonotone(m.log10(d1), m.log10(d2), slope);
      assert m.log10(d1) * slope == slope * m.log10(d1);
      assert m.log10(d2) * slope == slope * m.log10(d2);
    }
  }

  /** The 28 GHz and 140 GHz shadowing deviations of a scenario, in dB. */
  function ShadowingStdEnds(scenario: Scenario, los: bool): (ends: (real, real))
    ensures 0.0 < ends.0 && 0.0 < ends.1
  {
    match scenario
    case Umi => if los then (4.0, 2.6) else (7.0, 8.2)
    case InH => if los then (3.0, 2.9) else (9.8, 6.6)
    case Uma => if los then (4.0, 2.6) else (7.0, 8.2)
    case Rma => if los then (1.7, 1.7) else (6.7, 6.7)
    case InF => if los then (3.0, 3.0) else (7.0, 7.0)
  }

  /** GetShadowingStd of the scenario's subclass; fatal for conditions other than LOS and NLOS. */
  function GetShadowingStd(scenario: Scenario, cond: LosConditionValue, frequency: real): (r: Result<real>)
    ensures r.Ok? <==> cond == LOS || cond == NLOS
    ensures r.Ok? ==> 0.0 < r.value
  {
    if cond == LOS || cond == NLOS then
      var ends := ShadowingStdEnds(scenario, cond == LOS);
      Ok(GetCalibratedParameter(ends.0, ends.1, frequency))
    else Err("Unknown channel condition")
  }

  /** GetShadowingCorrelationDistance of the scenario's subclass, in metres. */
  function GetShadowingCorrelationDistance(scenario: Scenario, cond: LosConditionValue): (r: Result<real>)
    ensures r.Ok? <==> cond == LOS || cond == NLOS
    ensures r.Ok? ==> 6.0 <= r.value <= 120.0
  {
    if cond == LOS || cond == NLOS then
      var los := cond == LOS;
      Ok(match scenario
         case Umi => if los then 10.0 else 13.0
         case InH => if los then 10.0 else 6.0
         case Uma => if los then 37.0 else 50.0
         case Rma => if los then 37.0 else 120.0
         case InF => 10.0)
    else Err("Unknown channel condition")
  }

  /** The lower height is the user terminal's, the higher the base station's. */
  function GetUtAndBsHeights(za: real, zb: real): (h: (real, real))
    ensures h.0 <= h.1
    ensures (h.0 == za && h.1 == zb) || (h.0 == zb && h.1 == za)
  {
    (Min(za, zb), Max(za, zb))
  }

  /** The heights do not depend on which end is which. */
  lemma HeightsSymmetric(za: real, zb: real)
    ensures GetUtAndBsHeights(za, zb) == GetUtAndBsHeights(zb, za)
  {
  }

  /**
   * GetVectorDifference: the displacement from the node with the lower id
   * to the other one.
   */
  function GetVectorDifference(a: Node, b: Node): (v: Vector)
    ensures a.id < b.id ==> v == Minus(b.position, a.position)
    ensures b.id < a.id ==> v == Minus(a.position, b.position)
  {
    if a.id < b.id then Minus(b.position, a.position) else Minus(a.position, b.position)
  }

  /** For distinct ids the difference is the same from either end. */
  lemma VectorDifferenceSymmetric(a: Node, b: Node)
    requires a.id != b.id
    ensures GetVectorDifference(a, b) == GetVectorDifference(b, a)
  {
  }

  /**
   * GetO2IPathLoss: the building penetration loss of the named type, with
   * `normal` the standard normal draw; any other type is fatal.
   */
  function GetO2IPathLoss(m: MathLib, o2iLossType: string, frequency: real, normal: real): (r: Result<real>)
    ensures r.Ok? <==> o2iLossType == "Low Loss" || o2iLossType == "High Loss"
  {
    var freqGHz := frequency / 1.0e9;
    if o2iLossType == "Low Loss" then Ok(10.0 * m.log10(5.0 + 0.03 * m.pow(freqGHz, 2.0)) + 4.0 * normal)
    else if o2iLossType == "High Loss" then Ok(10.0 * m.log10(10.0 + 5.0 * m.pow(freqGHz, 2.0)) + 6.0 * normal)
    else Err("Unknown O2I Loss Type")
  }

  /** For the same draw, the high-loss building attenuates more than the low-loss one. */
  lemma HighLossExceedsLowLoss(m: MathLib, frequency: real, normal: real)
    requires Log10Laws(m) && PowLaws(m)
    requires 0.0 < frequency && 0.0 <= normal
    ensures GetO2IPathLoss(m, "Low Loss", frequency, normal).value < GetO2IPathLoss(m, "High Loss", frequency, normal).value
  {
    var x := m.pow(frequency / 1.0e9, 2.0);
    assert 0.0 < x;
    assert m.log10(5.0 + 0.03 * x) < m.log10(10.0 + 5.0 * x);
  }

  /** The setter's assertion holds for every string, so every type is accepted. */
  lemma O2ILossTypeAssertionAlwaysHolds(o2iLossType: string)
    ensures o2iLossType != "Low Loss" || o2iLossType != "High Loss"
  {
  }

  /**
   * GetFoliagePathLoss: the loss per metre times a distance drawn
   * uniformly from [0, d2D); `u` is the underlying draw from [0, 1).
   */
  function GetFoliagePathLoss(foliageLoss: real, distance2D: real, u: real): (r: real)
    ensures 0.0 <= foliageLoss && 0.0 <= distance2D && 0.0 <= u < 1.0 ==> 0.0 <= r <= foliageLoss * distance2D
  {
    if 0.0 <= foliageLoss && 0.0 <= distance2D && 0.0 <= u < 1.0 then
      FractionBounds(u, distance2D);
      ScaleMonotone(0.0, u * distance2D, foliageLoss);
      ScaleMonotone(u * distance2D, distance2D, foliageLoss);
      assert foliageLoss * (u * distance2D) == u * distance2D * foliageLoss;
      foliageLoss * (0.0 + u * (distance2D - 0.0))
    else
      foliageLoss * (0.0 + u * (distance2D - 0.0))
  }

  /** GetAtmoshperticAttenuation: attenuation per metre times the distance. */
  function GetAtmosphericAttenuation(atmosphericAttenuationFactor: real, distance2D: real): (r: real)
    ensures 0.0 <= atmosphericAttenuationFactor && 0.0 <= distance2D ==> 0.0 <= r
  {
    atmosphericAttenuationFactor * distance2D
  }

  /** A shadowing cache entry: the value, the condition it was drawn for and the AB vector. */
  datatype ShadowingMapItem = ShadowingMapItem(shadowing: real, condition: LosConditionValue, distance: Vector)

  /**
   * The correlation R = exp(-|displacement| / d_corr) between the new and
   * the previous shadowing value, for the horizontal displacement between
   * the new and the stored AB vectors.
   */
  function CorrelationCoefficient(m: MathLib, newDistance: Vector, oldDistance: Vector, correlationDistance: real): real
    requires correlationDistance != 0.0
  {
    m.exp(-1.0 * ConditionModel.Calculate2dDistance(m, newDistance, oldDistance) / correlationDistance)
  }

  /** For a positive correlation distance the coefficient lies in (0, 1]. */
  lemma CorrelationInUnitInterval(m: MathLib, newDistance: Vector, oldDistance: Vector, correlationDistance: real)
    requires ExpLaws(m) && SqrtLaws(m) && 0.0 < correlationDistance
    ensures 0.0 < CorrelationCoefficient(m, newDistance, oldDistance, correlationDistance) <= 1.0
  {
    var x := -1.0 * ConditionModel.Calculate2dDistance(m, newDistance, oldDistance) / correlationDistance;
    assert x <= 0.0;
    assert x < 0.0 ==> m.exp(x) < m.exp(0.0);
  }

  /**
   * The shadowing correlated with a stored entry, as in section 7.4.4 of
   * 3GPP TR 38.901: R times the previous value plus sqrt(1 - R^2) times a
   * fresh realisation.
   */
  function CorrelatedShadowing(m: MathLib, item: ShadowingMapItem, difference: Vector, std: real,
                               correlationDistance: real, normal: real): real
    requires correlationDistance != 0.0
  {
    var R := CorrelationCoefficient(m, difference, item.distance, correlationDistance);
    R * item.shadowing + m.sqrt(1.0 - R * R) * normal * std
  }

  /**
   * One GetShadowing on the cache, with the deviation and the correlation
   * distance of the condition, the link key, its current AB vector and the
   * normal draw: the value it returns and the cache it leaves.
   */
  function ShadowingUpdate(m: MathLib, cache: map<nat, ShadowingMapItem>, key: nat, difference: Vector,
                           cond: LosConditionValue, std: real, correlationDistance: real, normal: real)
    : (r: (real, map<nat, ShadowingMapItem>))
    requires correlationDistance != 0.0
    ensures key in r.1 && r.1[key].shadowing == r.0 && r.1[key].condition == cond
    ensures r.1[key].distance == if key in cache then difference else Origin
    ensures forall k :: k != key ==> (k in r.1 <==> k in cache) && (k in cache ==> r.1[k] == cache[k])
    ensures key !in cache || cache[key].condition != cond ==> r.0 == std * normal
  {
    if key in cache && cache[key].condition == cond then
      var value := CorrelatedShadowing(m, cache[key], difference, std, correlationDistance, normal);
      (value, cache[key := ShadowingMapItem(value, cond, difference)])
    else
      var value := std * normal;
      (value, cache[key := ShadowingMapItem(value, cond, if key in cache then difference else Origin)])
  }

  /**
   * A link whose horizontal AB vector has not changed since the stored
   * value, under the same condition, keeps its shadowing: R = 1 and the
   * innovation term vanishes.
   */
  lemma StationaryLinkKeepsShadowing(m: MathLib, cache: map<nat, ShadowingMapItem>, key: nat, difference: Vector,
                                      cond: LosConditionValue, std: real, correlationDistance: real, normal: real)
    requires ExpLaws(m) && SqrtLaws(m)
    requires correlationDistance != 0.0
    requires key in cache && cache[key].condition == cond
    requires difference.x == cache[key].distance.x && difference.y == cache[key].distance.y
    ensures ShadowingUpdate(m, cache, key, difference, cond, std, correlationDistance, normal).0 == cache[key].shadowing
  {
    var item := cache[key];
    assert ConditionModel.SquaredDistance2d(difference, item.distance) == 0.0;
    var R := CorrelationCoefficient(m, difference, item.distance, correlationDistance);
    assert R == m.exp(0.0) == 1.0;
    assert 1.0 - R * R == 0.0;
  }

  /** The attribute values DoCalcRxPower reads. */
  datatype LossSettings = LossSettings(
    frequency: real,
    foliageLoss: real,
    o2iLossType: string,
    shadowingEnabled: bool,
    foliageLossEnabled: bool,
    atmosphericLossEnabled: bool)

  /** The random draws one DoCalcRxPower consumes. */
  datatype LossDraws = LossDraws(pRef: real, shadowingNormal: real, o2iNormal: real, foliageUniform: real)

  /** The shadowing term, when shadowing is enabled, and the cache it leaves. */
  function ShadowingTerm(scenario: Scenario, s: LossSettings, m: MathLib, cache: map<nat, ShadowingMapItem>,
                         a: Node, b: Node, cond: LosConditionValue, normal: real)
    : (r: (real, map<nat, ShadowingMapItem>))
    requires cond == LOS || cond == NLOS
    ensures !s.shadowingEnabled ==> r == (0.0, cache)
  {
    if s.shadowingEnabled then
      ShadowingUpdate(m, cache, PairKey.Key(a.id, b.id), GetVectorDifference(a, b), cond,
                      GetShadowingStd(scenario, cond, s.frequency).value,
                      GetShadowingCorrelationDistance(scenario, cond).value, normal)
    else (0.0, cache)
  }

  /**
   * DoCalcRxPower once the link's condition is known: the received power
   * and the shadowing cache it leaves. `atmosphericFactor` is the
   * attenuation per metre the atmospheric model would return.
   */
  function RxPower(scenario: Scenario, s: LossSettings, m: MathLib, txPowerDbm: real, cond: ChannelCondition,
                   a: Node, b: Node, cache: map<nat, ShadowingMapItem>, draws: LossDraws, atmosphericFactor: real)
    : (r: (Result<real>, map<nat, ShadowingMapItem>))
    requires s.frequency != 0.0
    ensures r.0.Ok? <==> (cond.los == LOS || cond.los == NLOS)
                         && (cond.o2i == O2I ==> s.o2iLossType == "Low Loss" || s.o2iLossType == "High Loss")
    ensures cond.los != LOS && cond.los != NLOS ==> r.1 == cache
  {
    var d2D := ConditionModel.Calculate2dDistance(m, a.position, b.position);
    var heights := GetUtAndBsHeights(a.position.z, b.position.z);
    var loss := GetLoss(scenario, m, cond.los, s.frequency, d2D, heights.1);
    if loss.Err? then (Err(loss.message), cache)
    else
      var (shadowing, cache1) := ShadowingTerm(scenario, s, m, cache, a, b, cond.los, draws.shadowingNormal);
      var o2i := if cond.o2i == O2I then GetO2IPathLoss(m, s.o2iLossType, s.frequency, draws.o2iNormal) else Ok(0.0);
      if o2i.Err? then (Err(o2i.message), cache1)
      else
        var foliage := if s.foliageLossEnabled then GetFoliagePathLoss(s.foliageLoss, d2D, draws.foliageUniform) else 0.0;
        var atmospheric := if s.atmosphericLossEnabled then GetAtmosphericAttenuation(atmosphericFactor, d2D) else 0.0;
        (Ok(txPowerDbm - (loss.value + shadowing + o2i.value + foliage + atmospheric)), cache1)
  }

  /**
   * With every optional term disabled and an outdoor link, the received
   * power is the transmitted power minus the scenario's path loss, and the
   * shadowing cache is not touched.
   */
  lemma RxPowerWithoutOptions(scenario: Scenario, s: LossSettings, m: MathLib, txPowerDbm: real, cond: ChannelCondition,
                              a: Node, b: Node, cache: map<nat, ShadowingMapItem>, draws: LossDraws, atmosphericFactor: real)
    requires s.frequency != 0.0
    requires !s.shadowingEnabled && !s.foliageLossEnabled && !s.atmosphericLossEnabled
    requires cond.o2i != O2I && (cond.los == LOS || cond.los == NLOS)
    ensures var d2D := ConditionModel.Calculate2dDistance(m, a.position, b.position);
            var hBs := Max(a.position.z, b.position.z);
            RxPower(scenario, s, m, txPowerDbm, cond, a, b, cache, draws, atmosphericFactor)
            == (Ok(txPowerDbm - GetLoss(scenario, m, cond.los, s.frequency, d2D, hBs).value), cache)
  {
  }

  /**
   * Enabling foliage loss never raises the received power, for a
   * non-negative loss per metre and a uniform draw in [0, 1).
   */
  lemma FoliageNeverRaisesRxPower(scenario: Scenario, s: LossSettings, m: MathLib, txPowerDbm: real, cond: ChannelCondition,
                                  a: Node, b: Node, cache: map<nat, ShadowingMapItem>, draws: LossDraws, atmosphericFactor: real)
    requires s.frequency != 0.0 && SqrtLaws(m)
    requires 0.0 <= s.foliageLoss && 0.0 <= draws.foliageUniform < 1.0
    requires RxPower(scenario, s, m, txPowerDbm, cond, a, b, cache, draws, atmosphericFactor).0.Ok?
    ensures var on := RxPower(scenario, s.(foliageLossEnabled := true), m, txPowerDbm, cond, a, b, cache, draws, atmosphericFactor);
            var off := RxPower(scenario, s.(foliageLossEnabled := false), m, txPowerDbm, cond, a, b, cache, draws, atmosphericFactor);
            on.0.Ok? && off.0.Ok? && on.0.value <= off.0.value && on.1 == off.1
  {
    var d2D := ConditionModel.Calculate2dDistance(m, a.position, b.position);
    assert 0.0 <= GetFoliagePathLoss(s.foliageLoss, d2D, draws.foliageUniform);
  }

  /**
   * The NYU condition models only produce LOS or NLOS links with an
   * undefined outdoor/indoor state, so DoCalcRxPower never reaches a fatal
   * error with them.
   */
  lemma RxPowerDefinedForNyuConditions(scenario: Scenario, s: LossSettings, m: MathLib, txPowerDbm: real,
                                       condScenario: Scenario, pRef: real,
                                       a: Node, b: Node, cache: map<nat, ShadowingMapItem>, draws: LossDraws, atmosphericFactor: real)
    requires s.frequency != 0.0
    ensures var cond := ConditionModel.ComputeChannelCondition(condScenario, m, a.position, b.position, pRef);
            RxPower(scenario, s, m, txPowerDbm, cond, a, b, cache, draws, atmosphericFactor).0.Ok?
  {
  }

  class NYUPropagationLossModel {
    /** Which subclass's formulas the model uses. */
    const scenario: Scenario
    var conditionModel: ConditionModel.NYUChannelConditionModel?
    var frequency: real
    var foliageLoss: real
    var pressure: real
    var humidity: real
    var temperature: real
    var rainRate: real
    var o2iLossType: string
    var shadowingEnabled: bool
    var foliageLossEnabled: bool
    var atmosphericLossEnabled: bool
    var shadowingMap: map<nat, ShadowingMapItem>

    /**
     * A model with the attribute defaults, and the scenario's own NYU
     * condition model, as each subclass constructor installs it.
     */
    constructor(scenario: Scenario)
      ensures this.scenario == scenario
      ensures frequency == 28.0e9 && foliageLoss == 0.4 && o2iLossType == "Low Loss"
      ensures shadowingEnabled && !foliageLossEnabled && !atmosphericLossEnabled
      ensures pressure == 1013.25 && humidity == 50.0 && temperature == 20.0 && rainRate == 0.0
      ensures shadowingMap == map[]
      ensures conditionModel != null && fresh(conditionModel)
      ensures conditionModel.scenario == scenario && conditionModel.updatePeriod == 0
      ensures conditionModel.channelConditionMap == map[]
    {
      this.scenario := scenario;
      frequency := 28.0e9;
      foliageLoss := 0.4;
      pressure := 1013.25;
      humidity := 50.0;
      temperature := 20.0;
      rainRate := 0.0;
      o2iLossType := "Low Loss";
      shadowingEnabled := true;
      foliageLossEnabled := false;
      atmosphericLossEnabled := false;
      shadowingMap := map[];
      conditionModel := new ConditionModel.NYUChannelConditionModel(scenario, 0);
    }

    /** The attribute values DoCalcRxPower reads. */
    function Settings(): (s: LossSettings)
      reads this`frequency, this`foliageLoss, this`o2iLossType, this`shadowingEnabled
      reads this`foliageLossEnabled, this`atmosphericLossEnabled
      ensures s.frequency == frequency && s.foliageLoss == foliageLoss && s.o2iLossType == o2iLossType
      ensures s.shadowingEnabled == shadowingEnabled && s.foliageLossEnabled == foliageLossEnabled
      ensures s.atmosphericLossEnabled == atmosphericLossEnabled
    {
      LossSettings(frequency, foliageLoss, o2iLossType, shadowingEnabled, foliageLossEnabled, atmosphericLossEnabled)
    }

    method SetFrequency(f: real)
      requires 500.0e6 <= f <= 150.0e9
      modifies this`frequency
      ensures frequency == f
    {
      frequency := f;
    }

    method SetFoliageLoss(loss: real)
      requires 0.0 <= loss <= 10.0
      modifies this`foliageLoss
      ensures foliageLoss == loss
    {
      foliageLoss := loss;
    }

    method SetAtmosphericPressure(p: real)
      requires 1.0e-5 <= p <= 1013.25
      modifies this`pressure
      ensures pressure == p
    {
      pressure := p;
    }

    method SetHumidity(h: real)
      requires 0.0 <= h <= 100.0
      modifies this`humidity
      ensures humidity == h
    {
      humidity := h;
    }

    method SetTemperature(t: real)
      requires -100.0 <= t <= 50.0
      modifies this`temperature
      ensures temperature == t
    {
      temperature := t;
    }

    method SetRainRate(r: real)
      requires 0.0 <= r <= 150.0
      modifies this`rainRate
      ensures rainRate == r
    {
      rainRate := r;
    }

    /** Accepts every string: the setter's assertion cannot fail. */
    method SetO2ILossType(t: string)
      modifies this`o2iLossType
      ensures o2iLossType == t
    {
      O2ILossTypeAssertionAlwaysHolds(t);
      o2iLossType := t;
    }

    /**
     * GetShadowing for the link between a and b under `cond`, with
     * `normal` the standard normal draw.
     */
    method GetShadowing(m: MathLib, a: Node, b: Node, cond: LosConditionValue, normal: real) returns (value: Result<real>)
      modifies this`shadowingMap
      ensures value.Ok? <==> cond == LOS || cond == NLOS
      ensures value.Err? ==> shadowingMap == old(shadowingMap)
      ensures value.Ok? ==>
                (value.value, shadowingMap)
                == ShadowingUpdate(m, old(shadowingMap), PairKey.Key(a.id, b.id), GetVectorDifference(a, b), cond,
                                   GetShadowingStd(scenario, cond, frequency).value,
                                   GetShadowingCorrelationDistance(scenario, cond).value, normal)
    {
      var std := GetShadowingStd(scenario, cond, frequency);
      var correlationDistance := GetShadowingCorrelationDistance(scenario, cond);
      if std.Err? || correlationDistance.Err? {
        return Err("Unknown channel condition");
      }
      var key := PairKey.Key(a.id, b.id);
      var notFound, newCondition := false, false;
      var newDistance := Origin;
      if key in shadowingMap {
        newDistance := GetVectorDifference(a, b);
        newCondition := shadowingMap[key].condition != cond;
      } else {
        notFound := true;
      }
      var shadowingValue: real;
      if notFound || newCondition {
        shadowingValue := std.value * normal;
      } else {
        shadowingValue := CorrelatedShadowing(m, shadowingMap[key], newDistance, std.value, correlationDistance.value, normal);
      }
      ghost var expected := ShadowingUpdate(m, shadowingMap, key, GetVectorDifference(a, b), cond,
                                            std.value, correlationDistance.value, normal);
      assert expected.0 == shadowingValue;
      assert expected.1 == shadowingMap[key := ShadowingMapItem(shadowingValue, cond, newDistance)];
      shadowingMap := shadowingMap[key := ShadowingMapItem(shadowingValue, cond, newDistance)];
      value := Ok(shadowingValue);
    }

    /**
     * DoCalcRxPower: the received power in dBm for the link between a and
     * b at time `now`, drawing the condition from the condition model's
     * cache and the shadowing from this model's cache.
     */
    method DoCalcRxPower(m: MathLib, txPowerDbm: real, a: Node, b: Node, now: int, draws: LossDraws, atmosphericFactor: real)
      returns (rxPow: Result<real>)
      requires frequency != 0.0
      requires conditionModel != null
      modifies this`shadowingMap, conditionModel`channelConditionMap
      ensures var computed := ConditionModel.ComputeChannelCondition(conditionModel.scenario, m, a.position, b.position, draws.pRef);
              var (cond, condMap) := ConditionModel.Lookup(old(conditionModel.channelConditionMap), conditionModel.updatePeriod,
                                                           PairKey.Key(a.id, b.id), now, computed);
              conditionModel.channelConditionMap == condMap
              && (rxPow, shadowingMap) == RxPower(scenario, Settings(), m, txPowerDbm, cond, a, b, old(shadowingMap), draws, atmosphericFactor)
    {
      var cond := conditionModel.GetChannelCondition(m, a, b, now, draws.pRef);
      rxPow := RxPowerForCondition(m, txPowerDbm, cond, a, b, draws, atmosphericFactor);
    }

    /** The rest of DoCalcRxPower, once the condition of the link is known. */
    method RxPowerForCondition(m: MathLib, txPowerDbm: real, cond: ChannelCondition, a: Node, b: Node,
                               draws: LossDraws, atmosphericFactor: real)
      returns (rxPow: Result<real>)
      requires frequency != 0.0
      modifies this`shadowingMap
      ensures (rxPow, shadowingMap) == RxPower(scenario, Settings(), m, txPowerDbm, cond, a, b, old(shadowingMap), draws, atmosphericFactor)
    {
      ghost var cache0 := shadowingMap;
      var distance2D := ConditionModel.Calculate2dDistance(m, a.position, b.position);
      var heights := GetUtAndBsHeights(a.position.z, b.position.z);
      var pl := GetLoss(scenario, m, cond.los, frequency, distance2D, heights.1);
      if pl.Err? {
        return Err(pl.message);
      }
      var loss := pl.value;
      if shadowingEnabled {
        var shadowing := GetShadowing(m, a, b, cond.los, draws.shadowingNormal);
        loss := loss + shadowing.value;
      }
      if cond.o2i == O2I {
        var o2i := GetO2IPathLoss(m, o2iLossType, frequency, draws.o2iNormal);
        if o2i.Err? {
          return Err(o2i.message);
        }
        loss := loss + o2i.value;
      } else {
        loss := loss + 0.0;
      }
      if foliageLossEnabled {
        loss := loss + GetFoliagePathLoss(foliageLoss, distance2D, draws.foliageUniform);
      } else {
        loss := loss + 0.0;
      }
      if atmosphericLossEnabled {
        loss := loss + GetAtmosphericAttenuation(atmosphericFactor, distance2D);
      } else {
        loss := loss + 0.0;
      }
      rxPow := Ok(txPowerDbm - loss);
      assert (rxPow, shadowingMap) == RxPower(scenario, Settings(), m, txPowerDbm, cond, a, b, cache0, draws, atmosphericFactor);
    }

    /** Disposes the condition model, drops it, and empties the shadowing cache. */
    method DoDispose()
      requires conditionModel != null
      modifies this, conditionModel
      ensures conditionModel == null && shadowingMap == map[]
      ensures old(conditionModel).channelConditionMap == map[] && old(conditionModel).updatePeriod == 0
    {
      conditionModel.DoDispose();
      conditionModel := null;
      shadowingMap := map[];
    }
  }
}
