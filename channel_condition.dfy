/**
 * NYUChannelConditionModel and its five scenario variants: a per-link
 * cache of LOS/NLOS conditions, keyed by the reciprocal node-pair key,
 * refreshed after an update period, and filled by comparing a uniform
 * draw with a scenario-specific LOS probability.
 *
 * The scenario subclasses of the source differ only in ComputePlos; here
 * the scenario is a constant of the one class, and ComputePlos dispatches
 * on it.
 */
module ConditionModel {
  import opened Common
  import PairKey

  /** A cache entry: the condition and the time it was generated. */
  datatype Item = Item(condition: ChannelCondition, generatedTime: int)

  /** The squared horizontal distance between two positions. */
  function SquaredDistance2d(a: Vector, b: Vector): (s: real)
    ensures 0.0 <= s
  {
    var x, y := a.x - b.x, a.y - b.y;
    assert 0.0 <= x * x && 0.0 <= y * y;
    x * x + y * y
  }

  /** The horizontal distance between two positions. */
  function Calculate2dDistance(m: MathLib, a: Vector, b: Vector): (d: real)
    ensures SqrtLaws(m) ==> 0.0 <= d && d * d == (a.x - b.x) * (a.x - b.x) + (a.y - b.y) * (a.y - b.y)
  {
    m.sqrt(SquaredDistance2d(a, b))
  }

  /** The 2-D distance is the same from either end and ignores the heights. */
  lemma Distance2dSymmetricFlat(m: MathLib, a: Vector, b: Vector, za: real, zb: real)
    ensures Calculate2dDistance(m, a, b) == Calculate2dDistance(m, b, a)
    ensures Calculate2dDistance(m, a, b) == Calculate2dDistance(m, a.(z := za), b.(z := zb))
  {
    assert SquaredDistance2d(a, b) == SquaredDistance2d(b, a) by {
      assert (a.x - b.x) * (a.x - b.x) == (b.x - a.x) * (b.x - a.x);
      assert (a.y - b.y) * (a.y - b.y) == (b.y - a.y) * (b.y - a.y);
    }
    assert SquaredDistance2d(a, b) == SquaredDistance2d(a.(z := za), b.(z := zb));
  }

  /**
   * RMa LOS probability of section 7.4.2 of 3GPP TR 38.901: certain up to
   * 10 m, a probability below 1 beyond.
   */
  function RmaPlos(m: MathLib, d: real): (p: real)
    ensures d <= 10.0 ==> p == 1.0
    ensures ExpLaws(m) ==> 0.0 < p <= 1.0
    ensures ExpLaws(m) && 10.0 < d ==> p < 1.0
  {
    if d <= 10.0 then 1.0
    else
      var x := -(d - 10.0) / 1000.0;
      assert x < 0.0;
      assert ExpLaws(m) ==> m.exp(x) < m.exp(0.0);
      m.exp(x)
  }

  /**
   * The height term C'(h_UT) of the UMa curve; the constant 1.25e1 - 6
   * evaluates to 6.5.
   */
  function UmaHeightTerm(m: MathLib, d: real, hUt: real): (c: real)
    ensures hUt <= 13.0 ==> c == 0.0
    ensures 13.0 < hUt && PowLaws(m) && ExpLaws(m) && 0.0 < d ==> 0.0 < c
  {
    if hUt <= 13.0 then 0.0
    else
      var g2d := (1.25e1 - 6.0) * m.pow(d, 3.0) * m.exp(-d / 150.0);
      m.pow((hUt - 13.0) / 10.0, 1.5) * g2d
  }

  /**
   * UMa LOS probability, NYU squared model; h_UT is the lower of the two
   * heights. Certain up to 20 m and positive beyond.
   */
  function UmaPlos(m: MathLib, d: real, hUt: real): (p: real)
    ensures d <= 20.0 ==> p == 1.0
    ensures ExpLaws(m) && PowLaws(m) ==> 0.0 < p
  {
    if d <= 20.0 then 1.0
    else
      var c := UmaHeightTerm(m, d, hUt);
      var e := m.exp(-d / 160.0);
      var r := 20.0 / d;
      assert 0.0 < r < 1.0;
      assert ExpLaws(m) ==> 0.0 < e < 1.0 by {
        if ExpLaws(m) {
          assert -d / 160.0 < 0.0;
          assert m.exp(-d / 160.0) < m.exp(0.0);
        }
      }
      assert ExpLaws(m) && PowLaws(m) ==> 0.0 < r * (1.0 - e) + e && 0.0 <= c by {
        if ExpLaws(m) && PowLaws(m) {
          assert 0.0 < r * (1.0 - e);
        }
      }
      assert ExpLaws(m) && PowLaws(m) ==> 0.0 < (r * (1.0 - e) + e) * (1.0 + c);
      m.pow((r * (1.0 - e) + e) * (1.0 + c), 2.0)
  }

  /** UMi LOS probability, NYU squared model. Certain up to 22 m and positive beyond. */
  function UmiPlos(m: MathLib, d: real): (p: real)
    ensures d <= 22.0 ==> p == 1.0
    ensures ExpLaws(m) && PowLaws(m) ==> 0.0 < p
  {
    if d <= 22.0 then 1.0
    else
      var r := 22.0 / d;
      assert 0.0 < r < 1.0;
      assert 0.0 < r * (1.0 - r);
      m.pow(r * (1.0 - r) + m.exp(-d / 100.0), 2.0)
  }

  /** InH LOS probability, 5GCM model: certain up to 1.2 m, a probability below 1 beyond. */
  function InHPlos(m: MathLib, d: real): (p: real)
    ensures d <= 1.2 ==> p == 1.0
    ensures ExpLaws(m) ==> 0.0 < p <= 1.0
    ensures ExpLaws(m) && 1.2 < d ==> p < 1.0
  {
    if d <= 1.2 then 1.0
    else if d > 1.2 && d < 6.5 then
      assert ExpLaws(m) ==> m.exp(-(d - 1.2) / 4.7) < m.exp(0.0) by {
        assert -(d - 1.2) / 4.7 < 0.0;
      }
      m.exp(-(d - 1.2) / 4.7)
    else
      var x := -(d - 6.5) / 32.6;
      assert ExpLaws(m) ==> m.exp(x) <= 1.0 by {
        assert x <= 0.0;
        assert ExpLaws(m) && x < 0.0 ==> m.exp(x) < m.exp(0.0);
      }
      m.exp(x) * 0.32
  }

  /**
   * InF LOS probability. The formula raises the negated distance to the
   * power 0.16, which in IEEE arithmetic is not a number for every
   * positive distance; None stands for that value. At distance 0 the
   * power is 0 and the probability is 2.38 * exp(0).
   */
  function InFPlos(m: MathLib, d: real): (p: Option<real>)
    ensures p.Some? <==> d == 0.0
  {
    if d == 0.0 then Some(2.38 * m.exp(0.0 / 0.91)) else None
  }

  /** ComputePlos of the scenario's subclass, for the positions of the two ends. */
  function ComputePlos(scenario: Scenario, m: MathLib, a: Vector, b: Vector): (p: Option<real>)
    ensures scenario != InF ==> p.Some?
  {
    var d := Calculate2dDistance(m, a, b);
    match scenario
    case Rma => Some(RmaPlos(m, d))
    case Uma => Some(UmaPlos(m, d, Min(a.z, b.z)))
    case Umi => Some(UmiPlos(m, d))
    case InH => Some(InHPlos(m, d))
    case InF => InFPlos(m, d)
  }

  /** The distance up to which a scenario's link is LOS with certainty. */
  function Breakpoint(scenario: Scenario): real
    requires scenario != InF
  {
    match scenario
    case Rma => 10.0
    case Uma => 20.0
    case Umi => 22.0
    case InH => 1.2
  }

  /** Inside the breakpoint distance the LOS probability is exactly 1. */
  lemma PlosOneInsideBreakpoint(scenario: Scenario, m: MathLib, a: Vector, b: Vector)
    requires scenario != InF
    requires Calculate2dDistance(m, a, b) <= Breakpoint(scenario)
    ensures ComputePlos(scenario, m, a, b) == Some(1.0)
  {
  }

  /** The RMa curve is a probability and does not grow with distance. */
  lemma RmaPlosIsDecreasingProbability(m: MathLib, d1: real, d2: real)
    requires ExpLaws(m)
    requires d1 <= d2
    ensures 0.0 < RmaPlos(m, d2) <= RmaPlos(m, d1) <= 1.0
  {
    var x1, x2 := -(d1 - 10.0) / 1000.0, -(d2 - 10.0) / 1000.0;
    if 10.0 < d1 {
      assert x2 <= x1 < 0.0;
      assert m.exp(x1) < m.exp(0.0);
      assert x2 < x1 ==> m.exp(x2) < m.exp(x1);
    } else if 10.0 < d2 {
      assert x2 < 0.0;
      assert m.exp(x2) < m.exp(0.0);
    }
  }

  /** The InH curve is a probability, and beyond 6.5 m it is at most 0.32. */
  lemma InHPlosIsProbability(m: MathLib, d: real)
    requires ExpLaws(m)
    ensures 0.0 < InHPlos(m, d) <= 1.0
    ensures 6.5 <= d ==> InHPlos(m, d) <= 0.32
  {
    if d > 1.2 && d < 6.5 {
      assert -(d - 1.2) / 4.7 < 0.0;
      assert m.exp(-(d - 1.2) / 4.7) < m.exp(0.0);
    } else if 6.5 <= d {
      var x := -(d - 6.5) / 32.6;
      assert x <= 0.0;
      assert x < 0.0 ==> m.exp(x) < m.exp(0.0);
      assert m.exp(x) <= 1.0;
    }
  }

  /**
   * The LOS decision: LOS exactly when the probability is a number and the
   * uniform draw does not exceed it.
   */
  function Classify(pRef: real, pLos: Option<real>): (los: LosConditionValue)
    ensures los == LOS <==> pLos.Some? && pRef <= pLos.value
    ensures los == NLOS <==> !(pLos.Some? && pRef <= pLos.value)
  {
    if pLos.Some? && pRef <= pLos.value then LOS else NLOS
  }

  /**
   * ComputeChannelCondition: a fresh ns-3 ChannelCondition, whose
   * outdoor/indoor state keeps its default O2I_ND, with the LOS state
   * drawn against the scenario's probability.
   */
  function ComputeChannelCondition(scenario: Scenario, m: MathLib, a: Vector, b: Vector, pRef: real)
    : (c: ChannelCondition)
    ensures c.o2i == O2I_ND
    ensures c.los == LOS || c.los == NLOS
    ensures c.IsLos() <==> (var p := ComputePlos(scenario, m, a, b); p.Some? && pRef <= p.value)
  {
    ChannelCondition(Classify(pRef, ComputePlos(scenario, m, a, b)), O2I_ND)
  }

  /**
   * A uniform draw lies in [0, 1); inside the breakpoint it never exceeds
   * the probability 1, so the link is LOS.
   */
  lemma LosInsideBreakpoint(scenario: Scenario, m: MathLib, a: Vector, b: Vector, pRef: real)
    requires scenario != InF
    requires 0.0 <= pRef < 1.0
    requires Calculate2dDistance(m, a, b) <= Breakpoint(scenario)
    ensures ComputeChannelCondition(scenario, m, a, b, pRef).IsLos()
  {
    PlosOneInsideBreakpoint(scenario, m, a, b);
  }

  /** Two InF nodes at any positive horizontal distance are never LOS. */
  lemma InFNlosBeyondZero(m: MathLib, a: Vector, b: Vector, pRef: real)
    requires Calculate2dDistance(m, a, b) != 0.0
    ensures ComputeChannelCondition(InF, m, a, b, pRef).los == NLOS
  {
  }

  /**
   * An existing entry is regenerated only when the period is non-zero and
   * the entry is strictly older than it.
   */
  predicate NeedsRefresh(updatePeriod: int, now: int, generatedTime: int)
  {
    updatePeriod != 0 && now - generatedTime > updatePeriod
  }

  /**
   * One GetChannelCondition on the cache: the condition it returns and the
   * cache it leaves. `computed` is the condition ComputeChannelCondition
   * would produce; it is used only on a miss or a refresh.
   */
  function Lookup(cache: map<nat, Item>, updatePeriod: int, key: nat, now: int, computed: ChannelCondition)
    : (r: (ChannelCondition, map<nat, Item>))
    ensures key in r.1 && r.1[key].condition == r.0
    ensures forall k :: k != key ==> (k in r.1 <==> k in cache) && (k in cache ==> r.1[k] == cache[k])
  {
    if key in cache && !NeedsRefresh(updatePeriod, now, cache[key].generatedTime) then
      (cache[key].condition, cache)
    else
      (computed, cache[key := Item(computed, now)])
  }

  /** With a zero update period a stored condition is returned as is, forever. */
  lemma ZeroPeriodNeverRefreshes(cache: map<nat, Item>, key: nat, now: int, computed: ChannelCondition)
    requires key in cache
    ensures Lookup(cache, 0, key, now, computed) == (cache[key].condition, cache)
  {
  }

  /**
   * A stored entry no older than a non-zero period, the period itself
   * included, is returned as is and the cache is left untouched.
   */
  lemma UnexpiredEntryIsKept(cache: map<nat, Item>, updatePeriod: int, key: nat, now: int, computed: ChannelCondition)
    requires key in cache
    requires updatePeriod == 0 || now - cache[key].generatedTime <= updatePeriod
    ensures Lookup(cache, updatePeriod, key, now, computed) == (cache[key].condition, cache)
  {
  }

  /** A miss or an expired entry stores the computed condition with the current time. */
  lemma MissStoresComputed(cache: map<nat, Item>, updatePeriod: int, key: nat, now: int, computed: ChannelCondition)
    requires key !in cache || NeedsRefresh(updatePeriod, now, cache[key].generatedTime)
    ensures Lookup(cache, updatePeriod, key, now, computed).0 == computed
    ensures Lookup(cache, updatePeriod, key, now, computed).1[key] == Item(computed, now)
  {
  }

  /**
   * Asking again at the same time, with a non-negative period, finds the
   * entry just stored and changes nothing, whatever would be drawn.
   */
  lemma RepeatIsHit(cache: map<nat, Item>, updatePeriod: int, key: nat, now: int, c1: ChannelCondition, c2: ChannelCondition)
    requires 0 <= updatePeriod
    ensures var (cond, cache1) := Lookup(cache, updatePeriod, key, now, c1);
            Lookup(cache1, updatePeriod, key, now, c2) == (cond, cache1)
  {
    var (cond, cache1) := Lookup(cache, updatePeriod, key, now, c1);
    if key in cache && !NeedsRefresh(updatePeriod, now, cache[key].generatedTime) {
    } else {
      assert cache1[key].generatedTime == now;
    }
  }

  /**
   * The two ends of a link see the same cache entry, and distinct links see
   * distinct entries.
   */
  lemma LinkKeyIsReciprocalAndUnique(a: nat, b: nat, c: nat, d: nat)
    ensures PairKey.Key(a, b) == PairKey.Key(b, a)
    ensures PairKey.Key(a, b) == PairKey.Key(c, d) ==> (a == c && b == d) || (a == d && b == c)
  {
    if PairKey.Key(a, b) == PairKey.Key(c, d) {
      PairKey.KeyInjective(a, b, c, d);
    }
  }

  class NYUChannelConditionModel {
    /** Which subclass's LOS probability the model uses. */
    const scenario: Scenario
    var channelConditionMap: map<nat, Item>
    var updatePeriod: int

    constructor(scenario: Scenario, updatePeriod: int)
      ensures this.scenario == scenario && this.updatePeriod == updatePeriod
      ensures channelConditionMap == map[]
    {
      this.scenario := scenario;
      this.updatePeriod := updatePeriod;
      channelConditionMap := map[];
    }

    /**
     * The condition of the link between a and b at time `now`; `pRef` is
     * the uniform draw consumed when a condition is computed.
     */
    method GetChannelCondition(m: MathLib, a: Node, b: Node, now: int, pRef: real) returns (cond: ChannelCondition)
      modifies this`channelConditionMap
      ensures var key := PairKey.Key(a.id, b.id);
              var computed := ComputeChannelCondition(scenario, m, a.position, b.position, pRef);
              (cond, channelConditionMap) == Lookup(old(channelConditionMap), updatePeriod, key, now, computed)
    {
      var key := PairKey.Key(a.id, b.id);
      var notFound, update := false, false;
      if key in channelConditionMap {
        cond := channelConditionMap[key].condition;
        if updatePeriod != 0 && now - channelConditionMap[key].generatedTime > updatePeriod {
          update := true;
        }
      } else {
        notFound := true;
      }
      if notFound || update {
        cond := ComputeChannelCondition(scenario, m, a.position, b.position, pRef);
        channelConditionMap := channelConditionMap[key := Item(cond, now)];
      }
    }

    /** Empties the cache and zeroes the update period. */
    method DoDispose()
      modifies this
      ensures channelConditionMap == map[] && updatePeriod == 0
    {
      channelConditionMap := map[];
      updatePeriod := 0;
    }
  }
}
