/**
 * Steps 1 to 7 of the NYU channel generator: how many time clusters,
 * spatial lobes and subpaths a realisation has, the delays inside and
 * between clusters, the cluster and subpath powers and the absolute
 * arrival times. Every random draw is an input: for a quantity drawn once
 * per cluster, entry i of the draw sequence is the draw for cluster i,
 * and for one drawn per subpath, entry j of the cluster's row.
 */
module ClusterGeneration {
  import opened Common
  import opened Sequences

  /** M_C, the speed of light in m/s. */
  const SpeedOfLight: real := 3.0e8

  /** The indoor scenarios, whose counts and delays follow their own distributions. */
  predicate Indoor(scenario: Scenario)
  {
    scenario == InH || scenario == InF
  }

  // ---------------------------------------------------------------------------
  // Step 1: counts

  /**
   * NYUChannelModel::GetNumberOfTimeClusters: a Poisson draw plus one
   * indoors, otherwise the discrete uniform draw on [1, max].
   */
  function GetNumberOfTimeClusters(scenario: Scenario, poisson: nat, uniform: int): (n: int)
    ensures Indoor(scenario) ==> 1 <= n
    ensures !Indoor(scenario) ==> n == uniform
  {
    if Indoor(scenario) then poisson + 1 else uniform
  }

  /**
   * NYUChannelModel::GetNumberOfAoaSpatialLobes and
   * GetNumberOfAodSpatialLobes, which are the same function: a uniform
   * draw on [1, mu] in InH, a Poisson draw plus one in InF, one lobe in
   * Rma and a Poisson draw clamped to [1, 5] in Umi and Uma.
   */
  function GetNumberOfSpatialLobes(scenario: Scenario, poisson: nat, uniform: int): (n: int)
    ensures scenario == Rma ==> n == 1
    ensures (scenario == Umi || scenario == Uma) ==> 1 <= n <= 5
    ensures scenario == InF ==> 1 <= n
    ensures scenario == InH ==> n == uniform
  {
    match scenario
    case InH => uniform
    case InF => poisson + 1
    case Rma => 1
    case _ => Max(1.0, Min(5.0, poisson as real)).Floor
  }

  /** In Umi and Uma a Poisson draw already in [1, 5] is kept as it is. */
  lemma LobeClampKeepsValidDraws(scenario: Scenario, poisson: nat, uniform: int)
    requires scenario == Umi || scenario == Uma
    requires 1 <= poisson <= 5
    ensures GetNumberOfSpatialLobes(scenario, poisson, uniform) == poisson
  {
  }

  /** How many subpath counts step 1 produces for `numberOfTimeClusters` clusters. */
  function NumberOfCountEntries(scenario: Scenario, numberOfTimeClusters: int): nat
  {
    if Indoor(scenario) && numberOfTimeClusters == 1 then 2
    else if numberOfTimeClusters < 0 then 0
    else numberOfTimeClusters
  }

  /**
   * Entry j of the subpath counts. Indoors a cluster gets an exponential
   * count plus one when its Bernoulli draw is 1 (always, for a single
   * cluster) and 1 otherwise; outdoors the count is uniform below 100 GHz
   * and in Rma, and exponential plus one above.
   */
  function SubpathCountAt(scenario: Scenario, numberOfTimeClusters: int, freqGHz: real,
                          binomial: seq<int>, exponential: seq<real>, uniform: seq<int>, j: nat): int
    requires j < |binomial| && j < |exponential| && j < |uniform|
  {
    if Indoor(scenario) then
      if j < numberOfTimeClusters && numberOfTimeClusters != 1 && binomial[j] != 1 then 1
      else Round(exponential[j]) + 1
    else if freqGHz < 100.0 || scenario == Rma then uniform[j]
    else Round(exponential[j]) + 1
  }

  /** NYUChannelModel::GetNumberOfSubpathsInTimeCluster. */
  method GetNumberOfSubpathsInTimeCluster(scenario: Scenario, numberOfTimeClusters: int, frequency: real,
                                          binomial: seq<int>, exponential: seq<real>, uniform: seq<int>)
    returns (counts: seq<int>)
    requires numberOfTimeClusters <= |binomial| && numberOfTimeClusters < |exponential|
    requires numberOfTimeClusters <= |uniform| && 2 <= |binomial| && 2 <= |uniform|
    ensures |counts| == NumberOfCountEntries(scenario, numberOfTimeClusters)
    ensures forall j :: 0 <= j < |counts| ==>
      counts[j] == SubpathCountAt(scenario, numberOfTimeClusters, frequency / 1e9, binomial, exponential, uniform, j)
  {
    var freqGHz := frequency / 1e9;
    var n := if numberOfTimeClusters < 0 then 0 else numberOfTimeClusters;
    counts := [];
    if Indoor(scenario) {
      var k := 0;
      while k < numberOfTimeClusters
        invariant 0 <= k <= n && |counts| == k
        invariant forall j :: 0 <= j < k ==>
          counts[j] == SubpathCountAt(scenario, numberOfTimeClusters, freqGHz, binomial, exponential, uniform, j)
      {
        var i := if numberOfTimeClusters == 1 then 1 else binomial[k];
        if i == 1 {
          counts := counts + [Round(exponential[k]) + 1];
        } else {
          counts := counts + [1];
        }
        k := k + 1;
      }
      while numberOfTimeClusters == 1 && |counts| == 1
        invariant numberOfTimeClusters != 1 ==> |counts| == n
        invariant numberOfTimeClusters == 1 ==> 1 <= |counts| <= 2
        invariant forall j :: 0 <= j < |counts| ==>
          counts[j] == SubpathCountAt(scenario, numberOfTimeClusters, freqGHz, binomial, exponential, uniform, j)
        decreases 2 - |counts|
      {
        counts := counts + [Round(exponential[|counts|]) + 1];
      }
    } else if freqGHz < 100.0 || scenario == Rma {
      var i := 0;
      while i < numberOfTimeClusters
        invariant 0 <= i <= n && |counts| == i
        invariant forall j :: 0 <= j < i ==>
          counts[j] == SubpathCountAt(scenario, numberOfTimeClusters, freqGHz, binomial, exponential, uniform, j)
      {
        counts := counts + [uniform[i]];
        i := i + 1;
      }
    } else {
      var i := 0;
      while i < numberOfTimeClusters
        invariant 0 <= i <= n && |counts| == i
        invariant forall j :: 0 <= j < i ==>
          counts[j] == SubpathCountAt(scenario, numberOfTimeClusters, freqGHz, binomial, exponential, uniform, j)
      {
        counts := counts + [Round(exponential[i]) + 1];
        i := i + 1;
      }
    }
  }

  /**
   * A single indoor cluster gets two subpath counts: the loop gives the
   * cluster its count and the loop after it appends a second one, which
   * no cluster uses as its own.
   */
  lemma SingleIndoorClusterHasTwoCounts(scenario: Scenario)
    requires Indoor(scenario)
    ensures NumberOfCountEntries(scenario, 1) == 2
    ensures forall s: Scenario :: !Indoor(s) ==> NumberOfCountEntries(s, 1) == 1
  {
  }

  /**
   * With non-negative exponential draws and uniform draws of at least 1,
   * every subpath count is at least 1.
   */
  lemma SubpathCountsPositive(scenario: Scenario, numberOfTimeClusters: int, freqGHz: real,
                              binomial: seq<int>, exponential: seq<real>, uniform: seq<int>, j: nat)
    requires j < |binomial| && j < |exponential| && j < |uniform|
    requires 0.0 <= exponential[j] && 1 <= uniform[j]
    ensures 1 <= SubpathCountAt(scenario, numberOfTimeClusters, freqGHz, binomial, exponential, uniform, j)
  {
  }

  // ---------------------------------------------------------------------------
  // Step 2: intra-cluster subpath delays

  /**
   * The raw delays of one cluster's `numSP` subpaths, in ns: the draws
   * (exponential in InH and above 100 GHz, gamma in InF), or below
   * 100 GHz outdoors multiples of the resolution time 2/bandwidth.
   */
  function RawSubpathDelays(scenario: Scenario, numSP: nat, freqGHz: real, bandwidth: real,
                            draws: seq<real>): (r: seq<real>)
    requires numSP <= |draws| && ResolutionDefined(scenario, freqGHz, bandwidth)
    ensures |r| == numSP
  {
    seq(numSP, j requires 0 <= j < numSP =>
      if Indoor(scenario) || 100.0 <= freqGHz then draws[j]
      else ResolutionDelay(bandwidth, j))
  }

  /** The (j+1)-th multiple of the resolution time 2/bandwidth, in ns. */
  function ResolutionDelay(bandwidth: real, j: nat): real
    requires bandwidth != 0.0
  {
    (1.0 / (bandwidth / 2.0)) * 1e9 * (j + 1) as real
  }

  /** The stretch exponent 1 + Xmax * U. */
  function StretchExponent(xMax: real, u: real): real
  {
    1.0 + xMax * u
  }

  /** Whether the sorted delays are then raised to the power 1 + Xmax * U. */
  predicate Stretched(scenario: Scenario, freqGHz: real)
  {
    !Indoor(scenario) && freqGHz < 100.0
  }

  /**
   * The bandwidth is read only outdoors below 100 GHz, the branch that also
   * stretches the delays; there it is a divisor and must not be 0.
   */
  predicate ResolutionDefined(scenario: Scenario, freqGHz: real, bandwidth: real)
  {
    Stretched(scenario, freqGHz) ==> bandwidth != 0.0
  }

  /** Raise every delay to the power `exponent`. */
  function PowAll(m: MathLib, s: seq<real>, exponent: real): (r: seq<real>)
    ensures |r| == |s|
  {
    seq(|s|, j requires 0 <= j < |s| => m.pow(s[j], exponent))
  }

  /**
   * One cluster's intra-cluster delays: the raw delays minus their minimum,
   * sorted, and below 100 GHz outdoors stretched by the exponent
   * 1 + xMax * u.
   */
  function ClusterSubpathDelays(m: MathLib, scenario: Scenario, numSP: nat, xMax: real, freqGHz: real,
                                bandwidth: real, draws: seq<real>, u: real): (r: seq<real>)
    requires 1 <= numSP <= |draws| && ResolutionDefined(scenario, freqGHz, bandwidth)
    ensures |r| == numSP
  {
    var raw := RawSubpathDelays(scenario, numSP, freqGHz, bandwidth, draws);
    var sorted := Sort(Shift(raw, MinOf(raw)));
    if Stretched(scenario, freqGHz) then PowAll(m, sorted, StretchExponent(xMax, u)) else sorted
  }

  /**
   * Each cluster's subpath delays start at 0 ns, never decrease and are
   * non-negative, the stretch included (0 to a positive power is 0 and
   * the power is monotone).
   */
  lemma ClusterSubpathDelaysNormalised(m: MathLib, scenario: Scenario, numSP: nat, xMax: real,
                                       freqGHz: real, bandwidth: real, draws: seq<real>, u: real)
    requires 1 <= numSP <= |draws| && ResolutionDefined(scenario, freqGHz, bandwidth)
    requires PowLaws(m) && 0.0 <= xMax && 0.0 <= u <= 1.0
    ensures var r := ClusterSubpathDelays(m, scenario, numSP, xMax, freqGHz, bandwidth, draws, u);
      r[0] == 0.0 && Sorted(r) && forall k :: 0 <= k < |r| ==> 0.0 <= r[k]
  {
    var raw := RawSubpathDelays(scenario, numSP, freqGHz, bandwidth, draws);
    ShiftedSortStartsAtZero(raw);
    var sorted := Sort(Shift(raw, MinOf(raw)));
    if Stretched(scenario, freqGHz) {
      var e := StretchExponent(xMax, u);
      FractionBounds(u, xMax);
      assert 0.0 < e;
      var r := PowAll(m, sorted, e);
      assert r[0] == m.pow(0.0, e) == 0.0;
      forall i, j | 0 <= i < j < |r|
        ensures r[i] <= r[j]
      {
        assert 0.0 <= sorted[i] <= sorted[j];
      }
      forall k | 0 <= k < |r|
        ensures 0.0 <= r[k]
      {
        assert 0.0 <= sorted[k];
      }
    }
  }

  /** Subtract the smallest element from every element, in place. */
  method SubtractMinimum(s: seq<real>) returns (r: seq<real>)
    requires |s| > 0
    ensures r == Shift(s, MinOf(s))
  {
    var minDelay := MinOf(s);
    r := s;
    var j := 0;
    while j < |r|
      invariant 0 <= j <= |r| == |s|
      invariant forall k :: 0 <= k < j ==> r[k] == s[k] - minDelay
      invariant forall k :: j <= k < |s| ==> r[k] == s[k]
    {
      r := r[j := r[j] - minDelay];
      j := j + 1;
    }
  }

  /** The delays of one cluster, as the body of the outer loop of GetIntraClusterDelays computes them. */
  method ClusterIntraDelays(m: MathLib, scenario: Scenario, numSP: int, xMax: real, freqGHz: real,
                            bandwidth: real, draws: seq<real>, u: real)
    returns (arrayTemp: seq<real>)
    requires ResolutionDefined(scenario, freqGHz, bandwidth) && 1 <= numSP <= |draws|
    ensures arrayTemp == ClusterSubpathDelays(m, scenario, numSP, xMax, freqGHz, bandwidth, draws, u)
  {
    ghost var raw := RawSubpathDelays(scenario, numSP, freqGHz, bandwidth, draws);
    arrayTemp := [];
    var j := 0;
    while j < numSP
      invariant 0 <= j <= numSP && arrayTemp == raw[..j]
    {
      if scenario == InH || scenario == InF {
        arrayTemp := arrayTemp + [draws[j]];
      } else if freqGHz < 100.0 {
        var tmp := ResolutionDelay(bandwidth, j);
        arrayTemp := arrayTemp + [tmp];
      } else {
        arrayTemp := arrayTemp + [draws[j]];
      }
      assert raw[..j + 1] == raw[..j] + [raw[j]];
      j := j + 1;
    }
    assert arrayTemp == raw;
    arrayTemp := SubtractMinimum(arrayTemp);
    arrayTemp := Sort(arrayTemp);
    ghost var sorted := arrayTemp;
    if !(scenario == InH || scenario == InF) && freqGHz < 100.0 {
      var x := StretchExponent(xMax, u);
      j := 0;
      while j < |arrayTemp|
        invariant 0 <= j <= |arrayTemp| == |sorted|
        invariant forall k :: 0 <= k < j ==> arrayTemp[k] == m.pow(sorted[k], x)
        invariant forall k :: j <= k < |sorted| ==> arrayTemp[k] == sorted[k]
      {
        arrayTemp := arrayTemp[j := m.pow(arrayTemp[j], x)];
        j := j + 1;
      }
      assert arrayTemp == PowAll(m, sorted, StretchExponent(xMax, u));
    }
  }

  /** One pass of GetIntraClusterDelays's loop: the next cluster's delays appended to the earlier ones. */
  method AppendClusterDelays(m: MathLib, scenario: Scenario, counts: seq<int>, xMax: real, freqGHz: real,
                             bandwidth: real, draws: seq<seq<real>>, uniforms: seq<real>, delays: seq<seq<real>>)
    returns (next: seq<seq<real>>)
    requires ResolutionDefined(scenario, freqGHz, bandwidth)
    requires |delays| < |counts| && |draws| == |counts| && |uniforms| == |counts|
    requires forall i :: 0 <= i < |counts| ==> 1 <= counts[i] <= |draws[i]|
    requires forall k :: 0 <= k < |delays| ==>
      delays[k] == ClusterSubpathDelays(m, scenario, counts[k], xMax, freqGHz, bandwidth, draws[k], uniforms[k])
    ensures |next| == |delays| + 1
    ensures forall k :: 0 <= k < |next| ==>
      next[k] == ClusterSubpathDelays(m, scenario, counts[k], xMax, freqGHz, bandwidth, draws[k], uniforms[k])
  {
    var i := |delays|;
    var arrayTemp := ClusterIntraDelays(m, scenario, counts[i], xMax, freqGHz, bandwidth, draws[i], uniforms[i]);
    next := delays + [arrayTemp];
    forall k | 0 <= k < |next|
      ensures next[k] == ClusterSubpathDelays(m, scenario, counts[k], xMax, freqGHz, bandwidth, draws[k], uniforms[k])
    {
      if k < i {
        assert next[k] == delays[k];
      } else {
        assert next[k] == arrayTemp;
      }
    }
  }

  /** NYUChannelModel::GetIntraClusterDelays. */
  method GetIntraClusterDelays(m: MathLib, scenario: Scenario, counts: seq<int>, xMax: real, frequency: real,
                               bandwidth: real, draws: seq<seq<real>>, uniforms: seq<real>)
    returns (delays: seq<seq<real>>)
    requires ResolutionDefined(scenario, frequency / 1e9, bandwidth)
    requires |draws| == |counts| && |uniforms| == |counts|
    requires forall i :: 0 <= i < |counts| ==> 1 <= counts[i] <= |draws[i]|
    ensures |delays| == |counts|
    ensures forall i :: 0 <= i < |counts| ==>
      delays[i] == ClusterSubpathDelays(m, scenario, counts[i], xMax, frequency / 1e9, bandwidth, draws[i], uniforms[i])
  {
    var freqGHz := frequency / 1e9;
    delays := [];
    var i := 0;
    while i < |counts|
      invariant 0 <= i <= |counts| && |delays| == i
      invariant forall k :: 0 <= k < i ==>
        delays[k] == ClusterSubpathDelays(m, scenario, counts[k], xMax, freqGHz, bandwidth, draws[k], uniforms[k])
    {
      delays := AppendClusterDelays(m, scenario, counts, xMax, freqGHz, bandwidth, draws, uniforms, delays);
      i := i + 1;
    }
  }

  // ---------------------------------------------------------------------------
  // Step 3: subpath phases

  /**
   * NYUChannelModel::GetSubpathPhases: four phases per subpath, one per
   * polarisation pair, taken in order from the uniform draws.
   */
  method GetSubpathPhases(counts: seq<int>, draws: seq<real>) returns (phases: seq<seq<real>>)
    requires forall i :: 0 <= i < |counts| ==> 0 <= counts[i]
    requires 4 * Total(counts) <= |draws|
    ensures |phases| == Total(counts)
    ensures forall n :: 0 <= n < |phases| ==> phases[n] == draws[4 * n..4 * n + 4]
  {
    phases := [];
    var i := 0;
    while i < |counts|
      invariant 0 <= i <= |counts| && |phases| == Total(counts[..i])
      invariant forall n :: 0 <= n < |phases| ==> 4 * n + 4 <= |draws| && phases[n] == draws[4 * n..4 * n + 4]
    {
      TotalPrefix(counts, i + 1);
      assert counts[..i + 1][..i] == counts[..i];
      var numSP := counts[i];
      var j := 0;
      while j < numSP
        invariant 0 <= j <= numSP && |phases| == Total(counts[..i]) + j
        invariant forall n :: 0 <= n < |phases| ==> 4 * n + 4 <= |draws| && phases[n] == draws[4 * n..4 * n + 4]
      {
        var polarizationPhases: seq<real> := [];
        var k := 0;
        var n := |phases|;
        while k < 4
          invariant 0 <= k <= 4 && polarizationPhases == draws[4 * n..4 * n + k]
        {
          polarizationPhases := polarizationPhases + [draws[4 * n + k]];
          k := k + 1;
        }
        phases := phases + [polarizationPhases];
        j := j + 1;
      }
      i := i + 1;
    }
    assert counts[..|counts|] == counts;
  }

  // ---------------------------------------------------------------------------
  // Step 4: cluster excess delays

  /** The delay of each cluster's last subpath. */
  function LastDelays(subpathDelays: seq<seq<real>>): (r: seq<real>)
    requires forall i :: 0 <= i < |subpathDelays| ==> |subpathDelays[i]| > 0
    ensures |r| == |subpathDelays|
  {
    seq(|subpathDelays|, i requires 0 <= i < |subpathDelays| => subpathDelays[i][|subpathDelays[i]| - 1])
  }

  /**
   * The first n cluster delays: 0 for the first cluster, then each
   * cluster starts `prime[i]` plus the void interval after the last
   * subpath of the cluster before it.
   */
  function ExcessDelays(prime: seq<real>, last: seq<real>, voidInterval: real, n: nat): (tau: seq<real>)
    requires 1 <= n <= |prime| && n <= |last|
    ensures |tau| == n && tau[0] == 0.0
    decreases n
  {
    if n == 1 then [0.0]
    else
      var prev := ExcessDelays(prime, last, voidInterval, n - 1);
      prev + [prime[n - 1] + prev[n - 2] + last[n - 2] + voidInterval]
  }

  /** Each cluster delay is built from the one before it. */
  lemma {:induction false} ExcessDelaysStep(prime: seq<real>, last: seq<real>, voidInterval: real, n: nat, i: nat)
    requires 1 <= n <= |prime| && n <= |last|
    requires 1 <= i < n
    ensures var tau := ExcessDelays(prime, last, voidInterval, n);
      tau[i] == prime[i] + tau[i - 1] + last[i - 1] + voidInterval
    decreases n
  {
    if i < n - 1 {
      ExcessDelaysStep(prime, last, voidInterval, n - 1, i);
    }
  }

  /**
   * The cluster delays of `GetClusterExcessTimeDelays`: the per-cluster
   * draws (gamma in InF, exponential elsewhere) minus their minimum and
   * sorted, then accumulated.
   */
  function ClusterExcessDelays(subpathDelays: seq<seq<real>>, voidInterval: real, draws: seq<real>): (tau: seq<real>)
    requires 1 <= |subpathDelays| <= |draws|
    requires forall i :: 0 <= i < |subpathDelays| ==> |subpathDelays[i]| > 0
    ensures |tau| == |subpathDelays| && tau[0] == 0.0
  {
    var raw := draws[..|subpathDelays|];
    ExcessDelays(Sort(Shift(raw, MinOf(raw))), LastDelays(subpathDelays), voidInterval, |subpathDelays|)
  }

  /**
   * Every cluster starts at least the void interval after the last subpath
   * of the cluster before it, and strictly later than that cluster when
   * the void interval is positive.
   */
  lemma ExcessDelaysSpacing(prime: seq<real>, last: seq<real>, voidInterval: real, n: nat, i: nat)
    requires 1 <= n <= |prime| && n <= |last|
    requires 1 <= i < n && 0.0 <= prime[i]
    ensures var tau := ExcessDelays(prime, last, voidInterval, n);
      tau[i] >= tau[i - 1] + last[i - 1] + voidInterval
      && (0.0 < voidInterval && 0.0 <= last[i - 1] ==> tau[i - 1] < tau[i])
  {
    ExcessDelaysStep(prime, last, voidInterval, n, i);
  }

  /**
   * The first cluster arrives at 0 ns and every later cluster arrives at
   * least the void interval after the previous cluster's last subpath;
   * with a positive void interval and non-negative intra-cluster delays
   * the cluster delays strictly increase.
   */
  lemma ClusterExcessDelaysSpacing(subpathDelays: seq<seq<real>>, voidInterval: real, draws: seq<real>, i: nat)
    requires 1 <= |subpathDelays| <= |draws|
    requires forall k :: 0 <= k < |subpathDelays| ==> |subpathDelays[k]| > 0
    requires 1 <= i < |subpathDelays|
    ensures var tau := ClusterExcessDelays(subpathDelays, voidInterval, draws);
      var last := subpathDelays[i - 1][|subpathDelays[i - 1]| - 1];
      tau[i] >= tau[i - 1] + last + voidInterval
      && (0.0 < voidInterval && 0.0 <= last ==> tau[i - 1] < tau[i])
  {
    var raw := draws[..|subpathDelays|];
    var prime := Sort(Shift(raw, MinOf(raw)));
    assert 0.0 <= prime[i] by {
      ShiftedSortStartsAtZero(raw);
    }
    var last := LastDelays(subpathDelays);
    assert last[i - 1] == subpathDelays[i - 1][|subpathDelays[i - 1]| - 1];
    assert ClusterExcessDelays(subpathDelays, voidInterval, draws) == ExcessDelays(prime, last, voidInterval, |subpathDelays|);
    ExcessDelaysSpacing(prime, last, voidInterval, |subpathDelays|, i);
  }

  /** NYUChannelModel::GetClusterExcessTimeDelays. */
  method GetClusterExcessTimeDelays(subpathDelays: seq<seq<real>>, voidInterval: real, draws: seq<real>)
    returns (tau: seq<real>)
    requires 1 <= |subpathDelays| <= |draws|
    requires forall i :: 0 <= i < |subpathDelays| ==> |subpathDelays[i]| > 0
    ensures tau == ClusterExcessDelays(subpathDelays, voidInterval, draws)
  {
    var numTC := |subpathDelays|;
    var tauPrime: seq<real> := [];
    var i := 0;
    while i < numTC
      invariant 0 <= i <= numTC && tauPrime == draws[..i]
    {
      tauPrime := tauPrime + [draws[i]];
      i := i + 1;
    }
    assert tauPrime == draws[..|subpathDelays|];
    tauPrime := SubtractMinimum(tauPrime);
    tauPrime := Sort(tauPrime);
    tau := AccumulateClusterDelays(tauPrime, subpathDelays, voidInterval);
  }

  /** The accumulating loop of GetClusterExcessTimeDelays. */
  method AccumulateClusterDelays(tauPrime: seq<real>, subpathDelays: seq<seq<real>>, voidInterval: real)
    returns (tau: seq<real>)
    requires 1 <= |subpathDelays| <= |tauPrime|
    requires forall i :: 0 <= i < |subpathDelays| ==> |subpathDelays[i]| > 0
    ensures tau == ExcessDelays(tauPrime, LastDelays(subpathDelays), voidInterval, |subpathDelays|)
  {
    var numTC := |subpathDelays|;
    ghost var last := LastDelays(subpathDelays);
    tau := [0.0];
    var lastSPTC := subpathDelays[0][|subpathDelays[0]| - 1];
    var i := 1;
    while i < numTC
      invariant 1 <= i <= numTC
      invariant tau == ExcessDelays(tauPrime, last, voidInterval, i)
      invariant lastSPTC == tau[i - 1] + last[i - 1]
    {
      var delay := tauPrime[i] + lastSPTC + voidInterval;
      assert ExcessDelays(tauPrime, last, voidInterval, i + 1) == tau + [delay];
      tau := tau + [delay];
      lastSPTC := tau[i] + subpathDelays[i][|subpathDelays[i]| - 1];
      i := i + 1;
    }
  }

  // ---------------------------------------------------------------------------
  // Steps 5 and 6: cluster and subpath powers

  /** The shadowing sigma * N in dB of a standard normal draw N. */
  function Shadowing(sigma: real, normal: real): real
  {
    sigma * normal
  }

  /** exp(-delay / gamma) * 10^(shadowing / 10): a power decaying with delay, shadowed. */
  function DecayedPower(m: MathLib, delay: real, gamma: real, shadowing: real): real
    requires gamma != 0.0
  {
    m.exp(-delay / gamma) * m.pow(10.0, shadowing / 10.0)
  }

  /** Under the laws of exp and pow a decayed power is positive. */
  lemma DecayedPowerPositive(m: MathLib, delay: real, gamma: real, shadowing: real)
    requires gamma != 0.0 && ExpLaws(m) && PowLaws(m)
    ensures 0.0 < DecayedPower(m, delay, gamma, shadowing)
  {
    var a, b := m.exp(-delay / gamma), m.pow(10.0, shadowing / 10.0);
    assert 0.0 < a && 0.0 < b;
  }

  /** The un-normalised cluster powers, with shadowing sigma * normals[i]. */
  function RawClusterPowers(m: MathLib, tau: seq<real>, sigma: real, gamma: real, normals: seq<real>): (r: seq<real>)
    requires gamma != 0.0 && |tau| <= |normals|
    ensures |r| == |tau|
  {
    seq(|tau|, i requires 0 <= i < |tau| => DecayedPower(m, tau[i], gamma, Shadowing(sigma, normals[i])))
  }

  /** Every element divided by the sum of all of them. */
  function Normalise(s: seq<real>): (r: seq<real>)
    requires Sum(s) != 0.0
    ensures |r| == |s|
  {
    seq(|s|, k requires 0 <= k < |s| => s[k] / Sum(s))
  }

  /** Normalised values sum to 1. */
  lemma NormaliseSumsToOne(s: seq<real>)
    requires Sum(s) != 0.0
    ensures Sum(Normalise(s)) == 1.0
  {
    SumDivide(s, Sum(s));
    var q := seq(|s|, k requires 0 <= k < |s| => s[k] / Sum(s));
    assert Normalise(s) == q;
    var t := Sum(s);
    assert t / t == 1.0;
  }

  /** Under the laws of exp and pow the raw cluster powers have a positive sum, so normalising is defined. */
  lemma RawClusterPowersPositive(m: MathLib, tau: seq<real>, sigma: real, gamma: real, normals: seq<real>)
    requires gamma != 0.0 && 1 <= |tau| <= |normals| && ExpLaws(m) && PowLaws(m)
    ensures 0.0 < Sum(RawClusterPowers(m, tau, sigma, gamma, normals))
  {
    var r := RawClusterPowers(m, tau, sigma, gamma, normals);
    forall k | 0 <= k < |r|
      ensures 0.0 < r[k]
    {
      DecayedPowerPositive(m, tau[k], gamma, Shadowing(sigma, normals[k]));
      assert r[k] == DecayedPower(m, tau[k], gamma, Shadowing(sigma, normals[k]));
    }
    SumPositive(r);
  }

  /**
   * NYUChannelModel::GetClusterPowers: the cluster powers, normalised so
   * that they sum to 1.
   */
  method GetClusterPowers(m: MathLib, tau: seq<real>, sigmaCluster: real, timeClusterGamma: real, normals: seq<real>)
    returns (powers: seq<real>)
    requires timeClusterGamma != 0.0 && |tau| <= |normals|
    requires Sum(RawClusterPowers(m, tau, sigmaCluster, timeClusterGamma, normals)) != 0.0
    ensures |powers| == |tau|
    ensures Sum(powers) == 1.0
    ensures powers == Normalise(RawClusterPowers(m, tau, sigmaCluster, timeClusterGamma, normals))
  {
    var numTC := |tau|;
    var z: seq<real> := [];
    var i := 0;
    while i < numTC
      invariant 0 <= i <= numTC && |z| == i
      invariant forall k :: 0 <= k < i ==> z[k] == Shadowing(sigmaCluster, normals[k])
    {
      z := z + [Shadowing(sigmaCluster, normals[i])];
      i := i + 1;
    }
    ghost var raw := RawClusterPowers(m, tau, sigmaCluster, timeClusterGamma, normals);
    var clusterPwr: seq<real> := [];
    i := 0;
    while i < numTC
      invariant 0 <= i <= numTC && |clusterPwr| == i
      invariant forall k :: 0 <= k < i ==> clusterPwr[k] == raw[k]
    {
      var pwr := DecayedPower(m, tau[i], timeClusterGamma, z[i]);
      clusterPwr := clusterPwr + [pwr];
      i := i + 1;
    }
    assert clusterPwr == raw;
    var sumOfClusterPwr := Sum(clusterPwr);
    powers := [];
    i := 0;
    while i < |clusterPwr|
      invariant 0 <= i <= numTC && |powers| == i
      invariant forall k :: 0 <= k < i ==> powers[k] == Normalise(raw)[k]
    {
      powers := powers + [clusterPwr[i] / sumOfClusterPwr];
      i := i + 1;
    }
    assert powers == Normalise(raw);
    NormaliseSumsToOne(raw);
  }

  /** The raw subpath powers of one cluster, with shadowing sigma * normals[j]. */
  function RawSubpathPowers(m: MathLib, delays: seq<real>, sigma: real, gamma: real, normals: seq<real>): (r: seq<real>)
    requires gamma != 0.0 && |delays| <= |normals|
    ensures |r| == |delays|
  {
    seq(|delays|, j requires 0 <= j < |delays| => DecayedPower(m, delays[j], gamma, Shadowing(sigma, normals[j])))
  }

  /** Exchange the first element with the first largest one. */
  function SwapStrongestFirst(s: seq<real>): (r: seq<real>)
    requires |s| > 0
    ensures |r| == |s|
  {
    var k := ArgMax(s);
    s[0 := s[k]][k := s[0]]
  }

  /** The swap puts a largest element first and keeps the sum. */
  lemma SwapStrongestFirstProperties(s: seq<real>)
    requires |s| > 0
    ensures var r := SwapStrongestFirst(s);
      (forall j :: 0 <= j < |r| ==> r[j] <= r[0]) && Sum(r) == Sum(s) && multiset(r) == multiset(s)
  {
    var k := ArgMax(s);
    var r := SwapStrongestFirst(s);
    SumSwap(s, 0, k);
    forall j | 0 <= j < |r|
      ensures r[j] <= r[0]
    {
      if k != 0 && j == k {
        assert r[j] == s[0];
      }
    }
  }

  /**
   * The ratios of cluster `i` before scaling: the raw subpath powers, with
   * the strongest one moved first in cluster index 1 of a LOS link.
   */
  function SubpathRatios(m: MathLib, i: nat, delays: seq<real>, sigma: real, gamma: real, normals: seq<real>, los: bool): (r: seq<real>)
    requires gamma != 0.0 && 1 <= |delays| <= |normals|
    ensures |r| == |delays|
  {
    var raw := RawSubpathPowers(m, delays, sigma, gamma, normals);
    if i == 1 && los then SwapStrongestFirst(raw) else raw
  }

  /** Every element divided by the sum and multiplied by `total`. */
  function Share(s: seq<real>, total: real): (r: seq<real>)
    requires Sum(s) != 0.0
    ensures |r| == |s|
  {
    seq(|s|, j requires 0 <= j < |s| => ShareOf(s[j], Sum(s), total))
  }

  /** The part of `total` that `x` gets out of `sum`. */
  function ShareOf(x: real, sum: real, total: real): real
    requires sum != 0.0
  {
    (x / sum) * total
  }

  lemma ShareOfAdds(a: real, b: real, sum: real, total: real)
    requires sum != 0.0
    ensures ShareOf(a, sum, total) + ShareOf(b, sum, total) == ShareOf(a + b, sum, total)
  {
    assert a / sum + b / sum == (a + b) / sum;
  }

  lemma {:induction false} SumShare(s: seq<real>, d: real, total: real)
    requires d != 0.0
    ensures Sum(seq(|s|, j requires 0 <= j < |s| => ShareOf(s[j], d, total))) == ShareOf(Sum(s), d, total)
    decreases |s|
  {
    var q := seq(|s|, j requires 0 <= j < |s| => ShareOf(s[j], d, total));
    if |s| > 0 {
      var s' := s[..|s| - 1];
      SumShare(s', d, total);
      var q' := seq(|s'|, j requires 0 <= j < |s'| => ShareOf(s'[j], d, total));
      assert q[..|q| - 1] == q';
      assert Sum(q) == Sum(q') + ShareOf(s[|s| - 1], d, total);
      ShareOfAdds(Sum(s'), s[|s| - 1], d, total);
    }
  }

  /** The shares of a cluster's subpaths add up to the cluster's power. */
  lemma ShareSumsToTotal(s: seq<real>, total: real)
    requires Sum(s) != 0.0
    ensures Sum(Share(s, total)) == total
  {
    SumShare(s, Sum(s), total);
    var t := Sum(s);
    assert ShareOf(t, t, total) == total by {
      assert t / t == 1.0;
    }
  }

  /** The subpath powers of cluster i. */
  function ClusterSubpathPowers(m: MathLib, i: nat, delays: seq<real>, clusterPower: real, sigma: real, gamma: real,
                                normals: seq<real>, los: bool): (r: seq<real>)
    requires gamma != 0.0 && 1 <= |delays| <= |normals|
    requires Sum(RawSubpathPowers(m, delays, sigma, gamma, normals)) != 0.0
    ensures |r| == |delays|
  {
    var raw := RawSubpathPowers(m, delays, sigma, gamma, normals);
    SwapStrongestFirstProperties(raw);
    Share(SubpathRatios(m, i, delays, sigma, gamma, normals, los), clusterPower)
  }

  /**
   * The subpath powers of a cluster add up to the cluster's power, the
   * LOS exchange included; in cluster index 1 of a LOS link the first
   * subpath is a strongest one before scaling.
   */
  lemma ClusterSubpathPowersSum(m: MathLib, i: nat, delays: seq<real>, clusterPower: real, sigma: real, gamma: real,
                                normals: seq<real>, los: bool)
    requires gamma != 0.0 && 1 <= |delays| <= |normals|
    requires Sum(RawSubpathPowers(m, delays, sigma, gamma, normals)) != 0.0
    ensures Sum(ClusterSubpathPowers(m, i, delays, clusterPower, sigma, gamma, normals, los)) == clusterPower
    ensures i == 1 && los ==> var r := SubpathRatios(m, i, delays, sigma, gamma, normals, los);
      forall j :: 0 <= j < |r| ==> r[j] <= r[0]
    ensures !(i == 1 && los) ==> SubpathRatios(m, i, delays, sigma, gamma, normals, los) == RawSubpathPowers(m, delays, sigma, gamma, normals)
  {
    var raw := RawSubpathPowers(m, delays, sigma, gamma, normals);
    SwapStrongestFirstProperties(raw);
    ShareSumsToTotal(SubpathRatios(m, i, delays, sigma, gamma, normals, los), clusterPower);
  }

  /**
   * The first two inner loops of GetSubpathPowers for cluster i: the
   * shadowing factors, then the decayed powers, with the strongest one
   * swapped to the front for the second cluster of a LOS channel.
   */
  method ComputeSubpathRatios(m: MathLib, i: nat, delays: seq<real>, sigmaSubpath: real, subpathGamma: real,
                              normals: seq<real>, los: bool)
    returns (ratios: seq<real>)
    requires subpathGamma != 0.0 && 1 <= |delays| <= |normals|
    ensures ratios == SubpathRatios(m, i, delays, sigmaSubpath, subpathGamma, normals, los)
  {
    var numSP := |delays|;
    var u: seq<real> := [];
    var j := 0;
    while j < numSP
      invariant 0 <= j <= numSP && |u| == j
      invariant forall k :: 0 <= k < j ==> u[k] == Shadowing(sigmaSubpath, normals[k])
    {
      u := u + [Shadowing(sigmaSubpath, normals[j])];
      j := j + 1;
    }
    ghost var raw := RawSubpathPowers(m, delays, sigmaSubpath, subpathGamma, normals);
    ratios := [];
    j := 0;
    while j < numSP
      invariant 0 <= j <= numSP && |ratios| == j
      invariant forall k :: 0 <= k < j ==> ratios[k] == raw[k]
    {
      ratios := ratios + [DecayedPower(m, delays[j], subpathGamma, u[j])];
      j := j + 1;
    }
    assert ratios == raw;
    if i == 1 && los {
      var maxElementIndex := ArgMax(ratios);
      var maxElement := ratios[maxElementIndex];
      var tmp := ratios[0];
      ratios := ratios[0 := maxElement];
      ratios := ratios[maxElementIndex := tmp];
      SwapStrongestFirstProperties(raw);
    }
  }

  /** The last inner loop of GetSubpathPowers: each ratio's share of the cluster power. */
  method ComputeShares(ratios: seq<real>, clusterPower: real) returns (shares: seq<real>)
    requires Sum(ratios) != 0.0
    ensures shares == Share(ratios, clusterPower)
  {
    var sumOfSpPwr := Sum(ratios);
    shares := [];
    var j := 0;
    while j < |ratios|
      invariant 0 <= j <= |ratios| && |shares| == j
      invariant forall k :: 0 <= k < j ==> shares[k] == Share(ratios, clusterPower)[k]
    {
      shares := shares + [ShareOf(ratios[j], sumOfSpPwr, clusterPower)];
      j := j + 1;
    }
  }

  /** NYUChannelModel::GetSubpathPowers. */
  method GetSubpathPowers(m: MathLib, subpathDelays: seq<seq<real>>, clusterPowers: seq<real>, sigmaSubpath: real,
                          subpathGamma: real, normals: seq<seq<real>>, los: bool)
    returns (powers: seq<seq<real>>)
    requires subpathGamma != 0.0
    requires |clusterPowers| <= |subpathDelays| && |clusterPowers| <= |normals|
    requires forall i :: 0 <= i < |clusterPowers| ==> 1 <= |subpathDelays[i]| <= |normals[i]|
    requires forall i :: 0 <= i < |clusterPowers| ==>
      Sum(RawSubpathPowers(m, subpathDelays[i], sigmaSubpath, subpathGamma, normals[i])) != 0.0
    ensures |powers| == |clusterPowers|
    ensures forall i :: 0 <= i < |clusterPowers| ==>
      powers[i] == ClusterSubpathPowers(m, i, subpathDelays[i], clusterPowers[i], sigmaSubpath, subpathGamma, normals[i], los)
  {
    var numTC := |clusterPowers|;
    powers := [];
    var i := 0;
    while i < numTC
      invariant 0 <= i <= numTC && |powers| == i
      invariant forall k :: 0 <= k < i ==>
        powers[k] == ClusterSubpathPowers(m, k, subpathDelays[k], clusterPowers[k], sigmaSubpath, subpathGamma, normals[k], los)
    {
      var ratios := ComputeSubpathRatios(m, i, subpathDelays[i], sigmaSubpath, subpathGamma, normals[i], los);
      SwapStrongestFirstProperties(RawSubpathPowers(m, subpathDelays[i], sigmaSubpath, subpathGamma, normals[i]));
      var shares := ComputeShares(ratios, clusterPowers[i]);
      assert shares == ClusterSubpathPowers(m, i, subpathDelays[i], clusterPowers[i], sigmaSubpath, subpathGamma, normals[i], los);
      assert forall k :: 0 <= k < i ==> (powers + [shares])[k] == powers[k];
      powers := powers + [shares];
      i := i + 1;
    }
  }

  // ---------------------------------------------------------------------------
  // Step 7: absolute propagation times

  /** The line-of-sight time of flight over `distance2D` metres, in ns. */
  function TimeOfFlight(distance2D: real): real
  {
    (distance2D / SpeedOfLight) * 1e9
  }

  /**
   * NYUChannelModel::GetAbsolutePropagationTimes: every subpath arrives
   * the time of flight plus its cluster's delay plus its own delay after
   * transmission.
   */
  method GetAbsolutePropagationTimes(distance2D: real, clusterDelays: seq<real>, subpathDelays: seq<seq<real>>)
    returns (times: seq<seq<real>>)
    requires |clusterDelays| <= |subpathDelays|
    ensures |times| == |clusterDelays|
    ensures forall i :: 0 <= i < |times| ==> |times[i]| == |subpathDelays[i]|
    ensures forall i, j :: 0 <= i < |times| && 0 <= j < |times[i]| ==>
      times[i][j] - subpathDelays[i][j] == TimeOfFlight(distance2D) + clusterDelays[i]
  {
    var numTC := |clusterDelays|;
    var time := (distance2D / SpeedOfLight) * 1e9;
    times := [];
    var i := 0;
    while i < numTC
      invariant 0 <= i <= numTC && |times| == i
      invariant forall k :: 0 <= k < i ==> |times[k]| == |subpathDelays[k]|
      invariant forall k, j :: 0 <= k < i && 0 <= j < |times[k]| ==>
        times[k][j] == time + clusterDelays[k] + subpathDelays[k][j]
    {
      var absdelay: seq<real> := [];
      var j := 0;
      while j < |subpathDelays[i]|
        invariant 0 <= j <= |subpathDelays[i]| && |absdelay| == j
        invariant forall l :: 0 <= l < j ==> absdelay[l] == time + clusterDelays[i] + subpathDelays[i][l]
      {
        absdelay := absdelay + [time + clusterDelays[i] + subpathDelays[i][j]];
        j := j + 1;
      }
      times := times + [absdelay];
      i := i + 1;
    }
  }

  /**
   * Absolute times keep the order of the subpaths inside a cluster, and
   * with the first cluster at 0 ns and its first subpath at 0 ns the
   * first arrival is the line-of-sight time of flight.
   */
  lemma AbsoluteTimesKeepOrder(distance2D: real, clusterDelays: seq<real>, subpathDelays: seq<seq<real>>,
                               times: seq<seq<real>>, i: nat)
    requires |clusterDelays| <= |subpathDelays| && |times| == |clusterDelays| && i < |times|
    requires forall k :: 0 <= k < |times| ==> |times[k]| == |subpathDelays[k]|
    requires forall k, j :: 0 <= k < |times| && 0 <= j < |times[k]| ==>
      times[k][j] - subpathDelays[k][j] == TimeOfFlight(distance2D) + clusterDelays[k]
    requires Sorted(subpathDelays[i])
    ensures Sorted(times[i])
    ensures 0 < |times[0]| && clusterDelays[0] == 0.0 && subpathDelays[0][0] == 0.0 ==>
      times[0][0] == TimeOfFlight(distance2D)
  {
    forall a, b | 0 <= a < b < |times[i]|
      ensures times[i][a] <= times[i][b]
    {
      assert subpathDelays[i][a] <= subpathDelays[i][b];
    }
  }
}
