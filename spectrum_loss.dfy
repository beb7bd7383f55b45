/**
 * The spectrum propagation loss of the NYU channel: the long-term part
 * uW^T * H * sW of every cluster, cached per antenna pair, and the
 * beamforming gain it gives every sub-band of a transmitted power spectral
 * density once the propagation delay and the Doppler shift are applied.
 */
module SpectrumLoss {
  import opened Common
  import PairKey
  import opened ChannelModel
  import Rays

  /** A phased antenna array: its id and its current beamforming vector. */
  datatype PhasedArray = PhasedArray(id: nat, beamformingVector: seq<Complex>)

  /** Every page of the channel has one row per u element and one column per s element. */
  ghost predicate ChannelShape(channel: seq<seq<seq<Complex>>>, uCount: nat, sCount: nat)
  {
    forall c :: 0 <= c < |channel| ==>
      |channel[c]| == uCount && forall u :: 0 <= u < uCount ==> |channel[c][u]| == sCount
  }

  /** Row u of a page times the s beam, over the first n columns. */
  function RowTimesBeam(page: seq<seq<Complex>>, u: nat, sW: seq<Complex>, n: nat): Complex
    requires u < |page| && n <= |page[u]| && n <= |sW|
  {
    if n == 0 then Zero else Add(RowTimesBeam(page, u, sW, n - 1), Mul(page[u][n - 1], sW[n - 1]))
  }

  /** The u beam times a page times the s beam, over the first n rows. */
  function BeamsAroundPage(page: seq<seq<Complex>>, uW: seq<Complex>, sW: seq<Complex>, n: nat): Complex
    requires n <= |page| && n <= |uW|
    requires forall u :: 0 <= u < n ==> |page[u]| == |sW|
  {
    if n == 0 then Zero
    else Add(BeamsAroundPage(page, uW, sW, n - 1), Mul(uW[n - 1], RowTimesBeam(page, n - 1, sW, |sW|)))
  }

  /**
   * NYUSpectrumPropagationLossModel::CalcLongTerm: uW^T * H * sW, one value
   * per cluster. The beams must match the matrix' rows and columns.
   */
  function CalcLongTerm(channel: seq<seq<seq<Complex>>>, sW: seq<Complex>, uW: seq<Complex>): (r: seq<Complex>)
    requires ChannelShape(channel, |uW|, |sW|)
    ensures |r| == |channel|
  {
    seq(|channel|, c requires 0 <= c < |channel| => BeamsAroundPage(channel[c], uW, sW, |uW|))
  }

  /** A zero s beam picks up nothing from a row. */
  lemma {:induction false} ZeroBeamRow(page: seq<seq<Complex>>, u: nat, sW: seq<Complex>, n: nat)
    requires u < |page| && n <= |page[u]| && n <= |sW|
    requires forall s :: 0 <= s < |sW| ==> sW[s] == Zero
    ensures RowTimesBeam(page, u, sW, n) == Zero
  {
    if n > 0 {
      ZeroBeamRow(page, u, sW, n - 1);
    }
  }

  /** A page seen through a zero u beam or a zero s beam contributes nothing. */
  lemma {:induction false} ZeroBeamPage(page: seq<seq<Complex>>, uW: seq<Complex>, sW: seq<Complex>, n: nat)
    requires n <= |page| && n <= |uW|
    requires forall u :: 0 <= u < n ==> |page[u]| == |sW|
    requires (forall u :: 0 <= u < |uW| ==> uW[u] == Zero) || (forall s :: 0 <= s < |sW| ==> sW[s] == Zero)
    ensures BeamsAroundPage(page, uW, sW, n) == Zero
  {
    if n > 0 {
      ZeroBeamPage(page, uW, sW, n - 1);
      if forall s :: 0 <= s < |sW| ==> sW[s] == Zero {
        ZeroBeamRow(page, n - 1, sW, |sW|);
      }
    }
  }

  /** With either beamforming vector all zero, every cluster's long-term component is zero. */
  lemma ZeroBeamZeroLongTerm(channel: seq<seq<seq<Complex>>>, sW: seq<Complex>, uW: seq<Complex>)
    requires ChannelShape(channel, |uW|, |sW|)
    requires (forall u :: 0 <= u < |uW| ==> uW[u] == Zero) || (forall s :: 0 <= s < |sW| ==> sW[s] == Zero)
    ensures forall c :: 0 <= c < |channel| ==> CalcLongTerm(channel, sW, uW)[c] == Zero
  {
    forall c | 0 <= c < |channel|
      ensures CalcLongTerm(channel, sW, uW)[c] == Zero
    {
      ZeroBeamPage(channel[c], uW, sW, |uW|);
    }
  }

  /** With one element at each end, the long-term component of a cluster is u * h * s. */
  lemma SingleElementLongTerm(channel: seq<seq<seq<Complex>>>, sW: seq<Complex>, uW: seq<Complex>, c: nat)
    requires |sW| == 1 && |uW| == 1 && ChannelShape(channel, 1, 1) && c < |channel|
    ensures CalcLongTerm(channel, sW, uW)[c] == Mul(uW[0], Mul(channel[c][0][0], sW[0]))
  {
    assert RowTimesBeam(channel[c], 0, sW, 1) == Mul(channel[c][0][0], sW[0]);
    assert BeamsAroundPage(channel[c], uW, sW, 1) == Mul(uW[0], Mul(channel[c][0][0], sW[0]));
  }

  /** NYUSpectrumPropagationLossModel::LongTerm: a cached long term and what it was computed from. */
  datatype LongTerm = LongTerm(longTerm: seq<Complex>, channel: ChannelMatrix, sW: seq<Complex>, uW: seq<Complex>)

  /**
   * ChannelMatrix::IsReverse: the matrix was generated with b at the s end
   * and a at the u end.
   */
  predicate IsReverse(matrix: ChannelMatrix, aAntenna: nat, bAntenna: nat)
  {
    matrix.antennaPair == (bAntenna, aAntenna)
  }

  /** The (sW, uW) beams: a's and b's vectors, exchanged when the matrix is reversed. */
  function Beams(matrix: ChannelMatrix, a: PhasedArray, b: PhasedArray): (seq<Complex>, seq<Complex>)
  {
    if !IsReverse(matrix, a.id, b.id) then (a.beamformingVector, b.beamformingVector)
    else (b.beamformingVector, a.beamformingVector)
  }

  /** A cached long term is stale when its matrix was regenerated or either beam changed. */
  predicate LongTermNeedsUpdate(stored: LongTerm, matrix: ChannelMatrix, sW: seq<Complex>, uW: seq<Complex>)
  {
    stored.channel.generatedTime != matrix.generatedTime || stored.sW != sW || stored.uW != uW
  }

  /** The long term under `key` must be computed: it is missing or stale. */
  predicate MustCompute(longTermMap: map<nat, LongTerm>, key: nat, matrix: ChannelMatrix, sW: seq<Complex>, uW: seq<Complex>)
  {
    key !in longTermMap || LongTermNeedsUpdate(longTermMap[key], matrix, sW, uW)
  }

  /**
   * A cached entry from the same generation time as `matrix` was computed
   * from `matrix` itself: the channel model stamps every new matrix of an
   * antenna pair with a later time than the one it replaces.
   */
  predicate SnapshotMatches(longTermMap: map<nat, LongTerm>, key: nat, matrix: ChannelMatrix)
  {
    key in longTermMap && longTermMap[key].channel.generatedTime == matrix.generatedTime ==>
      longTermMap[key].channel == matrix
  }

  /** A cache entry holds the long term of the matrix and beams it records. */
  ghost predicate Coherent(entry: LongTerm)
  {
    ChannelShape(entry.channel.channel, |entry.uW|, |entry.sW|)
    && entry.longTerm == CalcLongTerm(entry.channel.channel, entry.sW, entry.uW)
  }

  /** A long term just stored is found again for the same matrix and beams. */
  lemma StoredLongTermIsHit(longTermMap: map<nat, LongTerm>, key: nat, matrix: ChannelMatrix,
                            sW: seq<Complex>, uW: seq<Complex>, longTerm: seq<Complex>)
    ensures !MustCompute(longTermMap[key := LongTerm(longTerm, matrix, sW, uW)], key, matrix, sW, uW)
  {
  }

  /** A regenerated matrix, or a new beam at either end, forces a new long term. */
  lemma NewMatrixOrBeamRecomputes(entry: LongTerm, matrix: ChannelMatrix, sW: seq<Complex>, uW: seq<Complex>)
    requires entry.channel.generatedTime != matrix.generatedTime || entry.sW != sW || entry.uW != uW
    ensures forall longTermMap: map<nat, LongTerm>, key :: key in longTermMap && longTermMap[key] == entry ==>
      MustCompute(longTermMap, key, matrix, sW, uW)
  {
  }

  /** The zenith and azimuth angles of arrival and departure, one per ray, seen from the matrix' direction. */
  datatype RayAngles = RayAngles(zoa: seq<real>, zod: seq<real>, aoa: seq<real>, aod: seq<real>)

  /** Arrival and departure exchanged. */
  function Mirrored(r: RayAngles): RayAngles
  {
    RayAngles(r.zod, r.zoa, r.aod, r.aoa)
  }

  /**
   * The angles CalcBeamformingGain uses: the parameters' rows as they are
   * when the parameters were generated in the matrix' direction, arrival
   * and departure exchanged otherwise.
   */
  function SelectAngles(params: ChannelParams, matrix: ChannelMatrix): RayAngles
    requires |params.rays.angle| == 4
  {
    var angle := params.rays.angle;
    if params.nodeIds == matrix.nodeIds then
      RayAngles(angle[Rays.ZoaRow], angle[Rays.ZodRow], angle[Rays.AoaRow], angle[Rays.AodRow])
    else
      RayAngles(angle[Rays.ZodRow], angle[Rays.ZoaRow], angle[Rays.AodRow], angle[Rays.AoaRow])
  }

  /**
   * Seen from the other direction, the departure angles of a ray are its
   * arrival angles and the other way round.
   */
  lemma ReverseDirectionMirrorsAngles(params: ChannelParams, same: ChannelMatrix, other: ChannelMatrix)
    requires |params.rays.angle| == 4
    requires same.nodeIds == params.nodeIds && other.nodeIds != params.nodeIds
    ensures SelectAngles(params, other) == Mirrored(SelectAngles(params, same))
    ensures Mirrored(SelectAngles(params, other)) == SelectAngles(params, same)
  {
  }

  /** sin and cos, handed to the model. */
  datatype Trig = Trig(sin: real -> real, cos: real -> real)

  /** sin^2 + cos^2 = 1, sin 0 = 0 and cos 0 = 1. */
  ghost predicate TrigLaws(t: Trig)
  {
    t.sin(0.0) == 0.0 && t.cos(0.0) == 1.0
    && forall x :: t.sin(x) * t.sin(x) + t.cos(x) * t.cos(x) == 1.0
  }

  /** cos x + i sin x. */
  function Cis(t: Trig, x: real): Complex
  {
    Complex(t.cos(x), t.sin(x))
  }

  /** 2 pi t f / c: the Doppler phase per unit of speed along a ray, with c = 3e8 m/s. */
  function DopplerFactor(slotTime: real, frequency: real): real
  {
    2.0 * Rays.Pi * slotTime * frequency / 3.0e8
  }

  /** Every angle row covers the first n rays. */
  predicate CoversRays(angles: RayAngles, n: nat)
  {
    n <= |angles.zoa| && n <= |angles.zod| && n <= |angles.aoa| && n <= |angles.aod|
  }

  /** The speed of each end projected on the ray's arrival and departure directions, times the factor. */
  function DopplerPhase(t: Trig, factor: real, angles: RayAngles, uSpeed: Vector, sSpeed: Vector, c: nat): real
    requires CoversRays(angles, c + 1)
  {
    factor * ((t.sin(angles.zoa[c]) * t.cos(angles.aoa[c]) * uSpeed.x
               + t.sin(angles.zoa[c]) * t.sin(angles.aoa[c]) * uSpeed.y
               + t.cos(angles.zoa[c]) * uSpeed.z)
              + (t.sin(angles.zod[c]) * t.cos(angles.aod[c]) * sSpeed.x
                 + t.sin(angles.zod[c]) * t.sin(angles.aod[c]) * sSpeed.y
                 + t.cos(angles.zod[c]) * sSpeed.z))
  }

  /** The Doppler term of each of the first n rays. */
  function Doppler(t: Trig, factor: real, angles: RayAngles, uSpeed: Vector, sSpeed: Vector, n: nat): seq<Complex>
    requires CoversRays(angles, n)
  {
    seq(n, c requires 0 <= c < n => Cis(t, DopplerPhase(t, factor, angles, uSpeed, sSpeed, c)))
  }

  /** Between two nodes at rest every Doppler term is 1. */
  lemma StaticNodesHaveNoDoppler(t: Trig, factor: real, angles: RayAngles, n: nat)
    requires TrigLaws(t) && CoversRays(angles, n)
    ensures forall c :: 0 <= c < n ==> Doppler(t, factor, angles, Origin, Origin, n)[c] == Complex(1.0, 0.0)
  {
    forall c | 0 <= c < n
      ensures Doppler(t, factor, angles, Origin, Origin, n)[c] == Complex(1.0, 0.0)
    {
      assert DopplerPhase(t, factor, angles, Origin, Origin, c) == 0.0;
    }
  }

  /** -2 pi f tau, tau in ns: the phase a ray of delay tau picks up at frequency f. */
  function DelayPhase(fsb: real, delay: real): real
  {
    -2.0 * Rays.Pi * fsb * delay * 1.0e-9
  }

  /** One ray's contribution to a sub-band: long term times delay phase times Doppler term. */
  function RayGain(t: Trig, longTerm: seq<Complex>, delays: seq<real>, doppler: seq<Complex>, fsb: real, c: nat): Complex
    requires c < |longTerm| && c < |delays| && c < |doppler|
  {
    Mul(Mul(longTerm[c], Cis(t, DelayPhase(fsb, delays[c]))), doppler[c])
  }

  /** The complex gain of a sub-band centred on fsb: the sum over the first n rays. */
  function SubbandGain(t: Trig, longTerm: seq<Complex>, delays: seq<real>, doppler: seq<Complex>, fsb: real, n: nat): Complex
    requires n <= |longTerm| && n <= |delays| && n <= |doppler|
  {
    if n == 0 then Zero else Add(SubbandGain(t, longTerm, delays, doppler, fsb, n - 1), RayGain(t, longTerm, delays, doppler, fsb, n - 1))
  }

  /** A non-zero bin is scaled by the power of its sub-band gain; a zero bin is left alone. */
  function BinAfterGain(t: Trig, value: real, fsb: real, longTerm: seq<Complex>, delays: seq<real>, doppler: seq<Complex>, n: nat): real
    requires n <= |longTerm| && n <= |delays| && n <= |doppler|
  {
    if value != 0.0 then value * Norm(SubbandGain(t, longTerm, delays, doppler, fsb, n)) else value
  }

  /** The power spectral density after the beamforming gain, bin by bin. */
  function BeamformedPsd(t: Trig, psd: seq<real>, bands: seq<real>, longTerm: seq<Complex>, delays: seq<real>,
                         doppler: seq<Complex>, n: nat): (r: seq<real>)
    requires |bands| == |psd| && n <= |longTerm| && n <= |delays| && n <= |doppler|
    ensures |r| == |psd|
  {
    seq(|psd|, k requires 0 <= k < |psd| => BinAfterGain(t, psd[k], bands[k], longTerm, delays, doppler, n))
  }

  /**
   * The beamforming gain never creates power where there is none and
   * scales every bin by a non-negative factor: the sign of every bin is
   * kept.
   */
  lemma BeamformingScalesBins(t: Trig, psd: seq<real>, bands: seq<real>, longTerm: seq<Complex>, delays: seq<real>,
                              doppler: seq<Complex>, n: nat, k: nat)
    requires |bands| == |psd| && n <= |longTerm| && n <= |delays| && n <= |doppler| && k < |psd|
    ensures var r := BeamformedPsd(t, psd, bands, longTerm, delays, doppler, n);
      (psd[k] == 0.0 ==> r[k] == 0.0)
      && (0.0 <= psd[k] ==> 0.0 <= r[k])
      && (psd[k] <= 0.0 ==> r[k] <= 0.0)
  {
    var g := if psd[k] != 0.0 then Norm(SubbandGain(t, longTerm, delays, doppler, bands[k], n)) else 1.0;
    assert BeamformedPsd(t, psd, bands, longTerm, delays, doppler, n)[k] == psd[k] * g;
  }

  /** A zero long term gives every sub-band a zero gain. */
  lemma {:induction false} ZeroLongTermZeroGain(t: Trig, longTerm: seq<Complex>, delays: seq<real>, doppler: seq<Complex>,
                                                fsb: real, n: nat)
    requires n <= |longTerm| && n <= |delays| && n <= |doppler|
    requires forall c :: 0 <= c < |longTerm| ==> longTerm[c] == Zero
    ensures SubbandGain(t, longTerm, delays, doppler, fsb, n) == Zero
  {
    if n > 0 {
      ZeroLongTermZeroGain(t, longTerm, delays, doppler, fsb, n - 1);
    }
  }

  /** Through a zero long term (for instance one seen through a zero beam) nothing is received in any bin. */
  lemma ZeroLongTermNothingReceived(t: Trig, psd: seq<real>, bands: seq<real>, longTerm: seq<Complex>, delays: seq<real>,
                                    doppler: seq<Complex>, n: nat, k: nat)
    requires |bands| == |psd| && n <= |longTerm| && n <= |delays| && n <= |doppler| && k < |psd|
    requires forall c :: 0 <= c < |longTerm| ==> longTerm[c] == Zero
    ensures BeamformedPsd(t, psd, bands, longTerm, delays, doppler, n)[k] == 0.0
  {
    ZeroLongTermZeroGain(t, longTerm, delays, doppler, bands[k], n);
    var power := Norm(SubbandGain(t, longTerm, delays, doppler, bands[k], n));
    assert power == 0.0;
    assert psd[k] * power == 0.0;
    assert BeamformedPsd(t, psd, bands, longTerm, delays, doppler, n)[k]
        == BinAfterGain(t, psd[k], bands[k], longTerm, delays, doppler, n);
  }

  /** |ab|^2 = |a|^2 |b|^2. */
  lemma NormMul(a: Complex, b: Complex)
    ensures Norm(Mul(a, b)) == Norm(a) * Norm(b)
  {
    var p, q, r, s := a.re, a.im, b.re, b.im;
    calc {
      Norm(Mul(a, b));
      (p * r - q * s) * (p * r - q * s) + (p * s + q * r) * (p * s + q * r);
      p * p * r * r + q * q * s * s + p * p * s * s + q * q * r * r;
      (p * p + q * q) * (r * r + s * s);
    }
  }

  /**
   * With a single ray whose Doppler term has unit modulus, the delay and
   * the Doppler shift change only the phase: every non-zero bin is scaled
   * by the power of the ray's long-term component.
   */
  lemma SingleRayGainIsLongTermPower(t: Trig, longTerm: seq<Complex>, delays: seq<real>, doppler: seq<Complex>, fsb: real)
    requires TrigLaws(t) && 1 <= |longTerm| && 1 <= |delays| && 1 <= |doppler| && Norm(doppler[0]) == 1.0
    ensures Norm(SubbandGain(t, longTerm, delays, doppler, fsb, 1)) == Norm(longTerm[0])
  {
    var phase := Cis(t, DelayPhase(fsb, delays[0]));
    assert Norm(phase) == 1.0;
    NormMul(longTerm[0], phase);
    NormMul(Mul(longTerm[0], phase), doppler[0]);
    assert SubbandGain(t, longTerm, delays, doppler, fsb, 1) == Add(Zero, RayGain(t, longTerm, delays, doppler, fsb, 0));
  }

  /**
   * The source's ray loops count with a uint8_t: whether such a loop,
   * from counter c, leaves within `steps` increments.
   */
  function Uint8RayLoopEnds(numRays: nat, c: nat, steps: nat): bool
    decreases steps
  {
    if !(c < numRays) then true
    else if steps == 0 then false
    else Uint8RayLoopEnds(numRays, (c + 1) % 256, steps - 1)
  }

  /** Below 256 rays the uint8_t loop ends after numRays increments. */
  lemma {:induction false} Uint8RayLoopEndsBelow256(numRays: nat, c: nat)
    requires numRays < 256 && c <= numRays
    ensures Uint8RayLoopEnds(numRays, c, numRays - c)
    decreases numRays - c
  {
    if c < numRays {
      Uint8RayLoopEndsBelow256(numRays, c + 1);
    }
  }

  /** From 256 rays on the counter wraps before reaching numRays: the uint8_t loop never ends. */
  lemma {:induction false} Uint8RayLoopNeverEnds(numRays: nat, c: nat, steps: nat)
    requires 256 <= numRays && c < 256
    ensures !Uint8RayLoopEnds(numRays, c, steps)
    decreases steps
  {
    if steps > 0 {
      Uint8RayLoopNeverEnds(numRays, (c + 1) % 256, steps - 1);
    }
  }

  /** The inner loop of CalcBeamformingGain: the gain of the sub-band centred on fsb. */
  method CalcSubbandGain(t: Trig, longTerm: seq<Complex>, delays: seq<real>, doppler: seq<Complex>, fsb: real, numRays: nat)
    returns (subbandGain: Complex)
    requires numRays <= |longTerm| && numRays <= |delays| && numRays <= |doppler|
    ensures subbandGain == SubbandGain(t, longTerm, delays, doppler, fsb, numRays)
  {
    subbandGain := Zero;
    var cIndex := 0;
    while cIndex < numRays
      invariant cIndex <= numRays
      invariant subbandGain == SubbandGain(t, longTerm, delays, doppler, fsb, cIndex)
    {
      var delay := DelayPhase(fsb, delays[cIndex]);
      subbandGain := Add(subbandGain, Mul(Mul(longTerm[cIndex], Cis(t, delay)), doppler[cIndex]));
      cIndex := cIndex + 1;
    }
  }

  /** The angle rows and delays of the parameters cover every ray of the matrix. */
  predicate ParamsCoverMatrix(params: ChannelParams, matrix: ChannelMatrix)
  {
    |params.rays.angle| == 4
    && (forall r :: 0 <= r < 4 ==> |matrix.channel| <= |params.rays.angle[r]|)
    && |matrix.channel| <= |params.rays.delay|
  }

  /** The first loop of CalcBeamformingGain: the Doppler term of every ray. */
  method CalcDoppler(t: Trig, factor: real, angles: RayAngles, uSpeed: Vector, sSpeed: Vector, numRays: nat)
    returns (doppler: seq<Complex>)
    requires CoversRays(angles, numRays)
    ensures doppler == Doppler(t, factor, angles, uSpeed, sSpeed, numRays)
  {
    doppler := [];
    var cIndex := 0;
    while cIndex < numRays
      invariant cIndex <= numRays && |doppler| == cIndex
      invariant forall c :: 0 <= c < cIndex ==> doppler[c] == Cis(t, DopplerPhase(t, factor, angles, uSpeed, sSpeed, c))
    {
      var tempDoppler := DopplerPhase(t, factor, angles, uSpeed, sSpeed, cIndex);
      doppler := doppler + [Cis(t, tempDoppler)];
      cIndex := cIndex + 1;
    }
  }

  /** The second loop of CalcBeamformingGain: every non-zero bin times the power of its sub-band gain. */
  method ApplyGain(t: Trig, tempPsd: array<real>, bands: seq<real>, longTerm: seq<Complex>, delays: seq<real>,
                   doppler: seq<Complex>, numRays: nat)
    requires |bands| == tempPsd.Length && numRays <= |longTerm| && numRays <= |delays| && numRays <= |doppler|
    modifies tempPsd
    ensures tempPsd[..] == BeamformedPsd(t, old(tempPsd[..]), bands, longTerm, delays, doppler, numRays)
  {
    ghost var target := BeamformedPsd(t, tempPsd[..], bands, longTerm, delays, doppler, numRays);
    ghost var original := tempPsd[..];
    var k := 0;
    while k < tempPsd.Length
      invariant 0 <= k <= tempPsd.Length
      invariant forall j :: 0 <= j < k ==> tempPsd[j] == target[j]
      invariant forall j :: k <= j < tempPsd.Length ==> tempPsd[j] == original[j]
    {
      if tempPsd[k] != 0.0 {
        var subbandGain := CalcSubbandGain(t, longTerm, delays, doppler, bands[k], numRays);
        tempPsd[k] := tempPsd[k] * Norm(subbandGain);
      }
      k := k + 1;
    }
  }

  /**
   * NYUSpectrumPropagationLossModel::CalcBeamformingGain: a copy of the
   * density with the beamforming gain applied, the Doppler terms computed
   * at `slotTime` for the operating `frequency`.
   */
  method CalcBeamformingGain(t: Trig, txPsd: seq<real>, bands: seq<real>, longTerm: seq<Complex>,
                             channelMatrix: ChannelMatrix, channelParams: ChannelParams,
                             sSpeed: Vector, uSpeed: Vector, slotTime: real, frequency: real)
    returns (tempPsd: array<real>)
    requires |bands| == |txPsd| && |channelMatrix.channel| <= |longTerm|
    requires ParamsCoverMatrix(channelParams, channelMatrix)
    ensures fresh(tempPsd)
    ensures var numRays := |channelMatrix.channel|;
      var angles := SelectAngles(channelParams, channelMatrix);
      tempPsd[..] == BeamformedPsd(t, txPsd, bands, longTerm, channelParams.rays.delay,
                                   Doppler(t, DopplerFactor(slotTime, frequency), angles, uSpeed, sSpeed, numRays), numRays)
  {
    tempPsd := new real[|txPsd|];
    forall k | 0 <= k < tempPsd.Length {
      tempPsd[k] := txPsd[k];
    }
    var numRays := |channelMatrix.channel|;
    var factor := DopplerFactor(slotTime, frequency);
    var angles := SelectAngles(channelParams, channelMatrix);
    var doppler := CalcDoppler(t, factor, angles, uSpeed, sSpeed, numRays);
    ApplyGain(t, tempPsd, bands, longTerm, channelParams.rays.delay, doppler, numRays);
  }

  class NYUSpectrumPropagationLossModel {
    var longTermMap: map<nat, LongTerm>

    /** Every cached long term is the product of the matrix and beams it records. */
    ghost predicate Valid()
      reads this
    {
      forall k :: k in longTermMap ==> Coherent(longTermMap[k])
    }

    constructor()
      ensures longTermMap == map[] && Valid()
    {
      longTermMap := map[];
    }

    /**
     * NYUSpectrumPropagationLossModel::GetLongTerm: the cached long term of
     * the antenna pair, recomputed and stored when missing or stale.
     */
    method GetLongTerm(channelMatrix: ChannelMatrix, a: PhasedArray, b: PhasedArray) returns (longTerm: seq<Complex>)
      requires channelMatrix.antennaPair == (a.id, b.id) || channelMatrix.antennaPair == (b.id, a.id)
      requires var (sW, uW) := Beams(channelMatrix, a, b);
        MustCompute(longTermMap, PairKey.Key(a.id, b.id), channelMatrix, sW, uW) ==>
          ChannelShape(channelMatrix.channel, |uW|, |sW|)
      modifies this`longTermMap
      ensures var key, (sW, uW) := PairKey.Key(a.id, b.id), Beams(channelMatrix, a, b);
        longTermMap == (if MustCompute(old(longTermMap), key, channelMatrix, sW, uW)
                        then old(longTermMap)[key := LongTerm(CalcLongTerm(channelMatrix.channel, sW, uW), channelMatrix, sW, uW)]
                        else old(longTermMap))
        && longTerm == longTermMap[key].longTerm
      ensures old(Valid()) ==> Valid()
      ensures var key, (sW, uW) := PairKey.Key(a.id, b.id), Beams(channelMatrix, a, b);
        old(Valid()) ==>
          longTermMap[key].channel.generatedTime == channelMatrix.generatedTime
          && ChannelShape(longTermMap[key].channel.channel, |uW|, |sW|)
          && longTerm == CalcLongTerm(longTermMap[key].channel.channel, sW, uW)
    {
      var sW, uW;
      if !IsReverse(channelMatrix, a.id, b.id) {
        sW := a.beamformingVector;
        uW := b.beamformingVector;
      } else {
        sW := b.beamformingVector;
        uW := a.beamformingVector;
      }
      var update, notFound := false, false;
      var longTermId := PairKey.Key(a.id, b.id);
      if longTermId in longTermMap {
        longTerm := longTermMap[longTermId].longTerm;
        update := LongTermNeedsUpdate(longTermMap[longTermId], channelMatrix, sW, uW);
      } else {
        notFound := true;
      }
      if update || notFound {
        longTerm := CalcLongTerm(channelMatrix.channel, sW, uW);
        longTermMap := longTermMap[longTermId := LongTerm(longTerm, channelMatrix, sW, uW)];
      }
    }

    /** Empties the long-term cache. */
    method DoDispose()
      modifies this`longTermMap
      ensures longTermMap == map[] && Valid()
    {
      longTermMap := map[];
    }

    /**
     * NYUSpectrumPropagationLossModel::DoCalcRxPowerSpectralDensity, given
     * the matrix and parameters the channel model returns for the pair:
     * the received density is the transmitted one with the beamforming
     * gain of the pair's long term applied.
     */
    method DoCalcRxPowerSpectralDensity(t: Trig, psd: seq<real>, bands: seq<real>, a: Node, b: Node,
                                        aArray: PhasedArray, bArray: PhasedArray,
                                        channelMatrix: ChannelMatrix, channelParams: ChannelParams,
                                        aVelocity: Vector, bVelocity: Vector, slotTime: real, frequency: real)
      returns (rxPsd: array<real>)
      requires a.id != b.id && a.position != b.position
      requires |bands| == |psd| && ParamsCoverMatrix(channelParams, channelMatrix)
      requires channelMatrix.antennaPair == (aArray.id, bArray.id) || channelMatrix.antennaPair == (bArray.id, aArray.id)
      requires var (sW, uW) := Beams(channelMatrix, aArray, bArray);
        ChannelShape(channelMatrix.channel, |uW|, |sW|)
      requires Valid() && SnapshotMatches(longTermMap, PairKey.Key(aArray.id, bArray.id), channelMatrix)
      modifies this`longTermMap
      ensures fresh(rxPsd) && rxPsd.Length == |psd| && Valid()
      ensures forall k :: 0 <= k < |psd| && psd[k] == 0.0 ==> rxPsd[k] == 0.0
      ensures forall k :: 0 <= k < |psd| && 0.0 <= psd[k] ==> 0.0 <= rxPsd[k]
      ensures var (sW, uW) := Beams(channelMatrix, aArray, bArray);
        var numRays := |channelMatrix.channel|;
        rxPsd[..] == BeamformedPsd(t, psd, bands, CalcLongTerm(channelMatrix.channel, sW, uW), channelParams.rays.delay,
                                   Doppler(t, DopplerFactor(slotTime, frequency), SelectAngles(channelParams, channelMatrix),
                                           bVelocity, aVelocity, numRays), numRays)
    {
      ghost var key := PairKey.Key(aArray.id, bArray.id);
      var longTerm := GetLongTerm(channelMatrix, aArray, bArray);
      assert longTermMap[key].channel == channelMatrix;
      assert longTerm == CalcLongTerm(channelMatrix.channel, Beams(channelMatrix, aArray, bArray).0, Beams(channelMatrix, aArray, bArray).1);
      assert |longTerm| == |channelMatrix.channel|;
      rxPsd := CalcBeamformingGain(t, psd, bands, longTerm, channelMatrix, channelParams, aVelocity, bVelocity, slotTime, frequency);
      ghost var doppler := Doppler(t, DopplerFactor(slotTime, frequency), SelectAngles(channelParams, channelMatrix),
                                   bVelocity, aVelocity, |channelMatrix.channel|);
      forall k | 0 <= k < |psd|
        ensures (psd[k] == 0.0 ==> rxPsd[k] == 0.0) && (0.0 <= psd[k] ==> 0.0 <= rxPsd[k])
      {
        BeamformingScalesBins(t, psd, bands, longTerm, channelParams.rays.delay, doppler, |channelMatrix.channel|, k);
      }
    }
  }
}
