/**
 * The two caches of the NYU channel generator: the large-scale channel
 * parameters of every node pair, regenerated when the link condition
 * changes or the update period runs out, and the channel matrix of every
 * antenna pair, regenerated whenever its parameters are newer than it.
 */
module ChannelModel {
  import opened Common
  import PairKey

  /** The per-ray results the spectrum model reads: the ray delays (ns) and the four angle rows (radians). */
  datatype Rays = Rays(delay: seq<real>, angle: seq<seq<real>>)

  /**
   * NYUChannelParams as the caches see it: when and for which ordered node
   * pair it was generated, under which condition, and its rays.
   */
  datatype ChannelParams = ChannelParams(generatedTime: int, nodeIds: (nat, nat),
                                         losCondition: LosConditionValue, o2iCondition: O2iConditionValue,
                                         rays: Rays)

  /**
   * A channel matrix: when and for which ordered node pair and antenna pair
   * it was generated, and its coefficients page by page:
   * channel[cluster][u][s], u an element of the u-end array and s one of
   * the s-end array.
   */
  datatype ChannelMatrix = ChannelMatrix(generatedTime: int, nodeIds: (nat, nat), antennaPair: (nat, nat),
                                         channel: seq<seq<seq<Complex>>>)

  /**
   * The parameters of a link must be regenerated when its condition changed
   * or, with a non-zero period, they expired; for no other reason.
   */
  function ChannelParamsNeedsUpdate(params: ChannelParams, condition: ChannelCondition, updatePeriod: int, now: int)
    : (update: bool)
    ensures !condition.IsEqual(params.losCondition, params.o2iCondition) ==> update
    ensures updatePeriod == 0 ==> (update <==> !condition.IsEqual(params.losCondition, params.o2iCondition))
    ensures (condition.IsEqual(params.losCondition, params.o2iCondition) && 0 <= updatePeriod
             && params.generatedTime == now) ==> !update
    ensures (updatePeriod != 0 && now - params.generatedTime > updatePeriod) ==> update
    ensures update ==> (!condition.IsEqual(params.losCondition, params.o2iCondition)
                        || (updatePeriod != 0 && now - params.generatedTime > updatePeriod))
  {
    !condition.IsEqual(params.losCondition, params.o2iCondition)
    || (updatePeriod != 0 && now - params.generatedTime > updatePeriod)
  }

  /** A matrix must be regenerated exactly when its parameters were generated after it. */
  function ChannelMatrixNeedsUpdate(params: ChannelParams, matrix: ChannelMatrix): (update: bool)
    ensures update ==> matrix.generatedTime < params.generatedTime
    ensures matrix.generatedTime < params.generatedTime ==> update
  {
    params.generatedTime > matrix.generatedTime
  }

  /** GenerateChannelParameters' bookkeeping: the time, the node order and the condition it was generated for. */
  function NewParams(rays: Rays, condition: ChannelCondition, aId: nat, bId: nat, now: int): (p: ChannelParams)
    ensures !ChannelParamsNeedsUpdate(p, condition, 0, now)
  {
    ChannelParams(now, (aId, bId), condition.los, condition.o2i, rays)
  }

  /** GetNewChannel's bookkeeping plus the antenna pair GetChannel records. */
  function NewMatrix(channel: seq<seq<seq<Complex>>>, aId: nat, bId: nat, aAntenna: nat, bAntenna: nat, now: int): ChannelMatrix
  {
    ChannelMatrix(now, (aId, bId), (aAntenna, bAntenna), channel)
  }

  /** The parameters GetChannel uses: the stored ones unless missing or stale, else the generated ones. */
  function ParamsAfter(paramsMap: map<nat, ChannelParams>, key: nat, condition: ChannelCondition, updatePeriod: int,
                       now: int, generated: ChannelParams): (p: ChannelParams)
    ensures p == generated || (key in paramsMap && p == paramsMap[key])
  {
    if key in paramsMap && !ChannelParamsNeedsUpdate(paramsMap[key], condition, updatePeriod, now) then paramsMap[key]
    else generated
  }

  /** The matrix GetChannel returns: the stored one unless missing or older than the parameters, else the generated one. */
  function MatrixAfter(matrixMap: map<nat, ChannelMatrix>, key: nat, params: ChannelParams, generated: ChannelMatrix): (c: ChannelMatrix)
    ensures c == generated || (key in matrixMap && c == matrixMap[key])
  {
    if key in matrixMap && !ChannelMatrixNeedsUpdate(params, matrixMap[key]) then matrixMap[key] else generated
  }

  /**
   * Stored parameters that are still valid are kept: the same condition
   * and, with a non-zero period, an age within the period.
   */
  lemma ValidParamsAreKept(paramsMap: map<nat, ChannelParams>, key: nat, condition: ChannelCondition,
                           updatePeriod: int, now: int, generated: ChannelParams)
    requires key in paramsMap
    requires condition.IsEqual(paramsMap[key].losCondition, paramsMap[key].o2iCondition)
    requires updatePeriod == 0 || now - paramsMap[key].generatedTime <= updatePeriod
    ensures ParamsAfter(paramsMap, key, condition, updatePeriod, now, generated) == paramsMap[key]
  {
  }

  /** Stored parameters older than a non-zero period are regenerated, whatever the condition. */
  lemma ExpiredParamsRegenerate(paramsMap: map<nat, ChannelParams>, key: nat, condition: ChannelCondition,
                                updatePeriod: int, now: int, generated: ChannelParams)
    requires key in paramsMap && updatePeriod != 0 && now - paramsMap[key].generatedTime > updatePeriod
    ensures ParamsAfter(paramsMap, key, condition, updatePeriod, now, generated) == generated
  {
  }

  /** Parameters stored for another condition are always regenerated, whatever the period. */
  lemma ConditionChangeRegenerates(paramsMap: map<nat, ChannelParams>, key: nat, condition: ChannelCondition,
                                   updatePeriod: int, now: int, generated: ChannelParams)
    requires key in paramsMap && condition.los != paramsMap[key].losCondition
    ensures ParamsAfter(paramsMap, key, condition, updatePeriod, now, generated) == generated
  {
  }

  /** Fresh parameters make every matrix generated before them stale. */
  lemma FreshParamsRenewOlderMatrix(matrixMap: map<nat, ChannelMatrix>, key: nat, rays: Rays, condition: ChannelCondition,
                                    aId: nat, bId: nat, now: int, generated: ChannelMatrix)
    requires key in matrixMap && matrixMap[key].generatedTime < now
    ensures MatrixAfter(matrixMap, key, NewParams(rays, condition, aId, bId, now), generated) == generated
  {
  }

  /**
   * Asking again at the same time under the same condition, with a
   * non-negative period, finds both entries just stored: nothing is
   * regenerated.
   */
  lemma RepeatGetChannelIsHit(paramsMap: map<nat, ChannelParams>, matrixMap: map<nat, ChannelMatrix>,
                              paramsKey: nat, matrixKey: nat, condition: ChannelCondition, updatePeriod: int, now: int,
                              generated: ChannelParams, generatedMatrix: ChannelMatrix,
                              generated2: ChannelParams, generatedMatrix2: ChannelMatrix)
    requires 0 <= updatePeriod
    requires generated.generatedTime == now && condition.IsEqual(generated.losCondition, generated.o2iCondition)
    requires generatedMatrix.generatedTime == now
    requires forall k :: k in paramsMap ==> paramsMap[k].generatedTime <= now
    ensures var params := ParamsAfter(paramsMap, paramsKey, condition, updatePeriod, now, generated);
      var paramsMap1 := paramsMap[paramsKey := params];
      var matrix := MatrixAfter(matrixMap, matrixKey, params, generatedMatrix);
      var matrixMap1 := matrixMap[matrixKey := matrix];
      ParamsAfter(paramsMap1, paramsKey, condition, updatePeriod, now, generated2) == params
      && MatrixAfter(matrixMap1, matrixKey, params, generatedMatrix2) == matrix
  {
    var params := ParamsAfter(paramsMap, paramsKey, condition, updatePeriod, now, generated);
    assert params.generatedTime <= now;
    assert !ChannelParamsNeedsUpdate(params, condition, updatePeriod, now);
  }

  class NYUChannelModel {
    var scenario: string
    var frequency: real
    var rfBandwidth: real
    var updatePeriod: int
    var channelParamsMap: map<nat, ChannelParams>
    var channelMatrixMap: map<nat, ChannelMatrix>

    /** A model with the attribute defaults: 140 GHz, 500 MHz, Rma, period 0, empty caches. */
    constructor()
      ensures scenario == "Rma" && frequency == 140.0e9 && rfBandwidth == 500.0e6 && updatePeriod == 0
      ensures channelParamsMap == map[] && channelMatrixMap == map[]
    {
      scenario := "Rma";
      frequency := 140.0e9;
      rfBandwidth := 500.0e6;
      updatePeriod := 0;
      channelParamsMap := map[];
      channelMatrixMap := map[];
    }

    /** The operating frequency, in Hz, within 0.5 to 150 GHz. */
    method SetFrequency(freq: real)
      requires 500.0e6 <= freq <= 150.0e9
      modifies this`frequency
      ensures frequency == freq
    {
      frequency := freq;
    }

    /** The RF bandwidth, in Hz, within 0 to 1000 MHz. */
    method SetRfBandwidth(bandwidth: real)
      requires 0.0 <= bandwidth <= 1000.0e6
      modifies this`rfBandwidth
      ensures rfBandwidth == bandwidth
    {
      rfBandwidth := bandwidth;
    }

    /** The scenario, one of the five names. */
    method SetScenario(name: string)
      requires name == "Rma" || name == "Uma" || name == "Umi" || name == "InH" || name == "InF"
      modifies this`scenario
      ensures scenario == name && ParseScenario(scenario).Some?
    {
      scenario := name;
    }

    /**
     * The channel matrix between antenna aAntenna of node aId and antenna
     * bAntenna of node bId at time `now`. `condition` is the link's
     * condition; `rays` and `channel` are what the generators produce when
     * the parameters or the matrix have to be regenerated.
     */
    method GetChannel(aId: nat, bId: nat, aAntenna: nat, bAntenna: nat, condition: ChannelCondition, now: int,
                      rays: Rays, channel: seq<seq<seq<Complex>>>)
      returns (channelMatrix: ChannelMatrix)
      modifies this`channelParamsMap, this`channelMatrixMap
      ensures var paramsKey, matrixKey := PairKey.Key(aId, bId), PairKey.Key(aAntenna, bAntenna);
        var params := ParamsAfter(old(channelParamsMap), paramsKey, condition, updatePeriod, now,
                                  NewParams(rays, condition, aId, bId, now));
        channelParamsMap == old(channelParamsMap)[paramsKey := params]
        && channelMatrix == MatrixAfter(old(channelMatrixMap), matrixKey, params,
                                        NewMatrix(channel, aId, bId, aAntenna, bAntenna, now))
        && channelMatrixMap == old(channelMatrixMap)[matrixKey := channelMatrix]
    {
      var channelParamsKey := PairKey.Key(aId, bId);
      var channelMatrixKey := PairKey.Key(aAntenna, bAntenna);
      var updateParams, updateMatrix, notFoundParams, notFoundMatrix := false, false, false, false;
      var channelParams: ChannelParams;
      if channelParamsKey in channelParamsMap {
        channelParams := channelParamsMap[channelParamsKey];
        updateParams := ChannelParamsNeedsUpdate(channelParams, condition, updatePeriod, now);
      } else {
        notFoundParams := true;
      }
      if notFoundParams || updateParams {
        channelParams := NewParams(rays, condition, aId, bId, now);
        channelParamsMap := channelParamsMap[channelParamsKey := channelParams];
      }
      if channelMatrixKey in channelMatrixMap {
        channelMatrix := channelMatrixMap[channelMatrixKey];
        updateMatrix := ChannelMatrixNeedsUpdate(channelParams, channelMatrix);
      } else {
        notFoundMatrix := true;
      }
      if notFoundMatrix || updateMatrix {
        channelMatrix := NewMatrix(channel, aId, bId, aAntenna, bAntenna, now);
        channelMatrixMap := channelMatrixMap[channelMatrixKey := channelMatrix];
      }
    }

    /** The parameters stored for the node pair, in either order, or None. */
    function GetParams(aId: nat, bId: nat): (p: Option<ChannelParams>)
      reads this
      ensures p.Some? <==> PairKey.Key(aId, bId) in channelParamsMap
      ensures p.Some? ==> p.value == channelParamsMap[PairKey.Key(bId, aId)]
    {
      PairKey.KeyReciprocal(aId, bId);
      var key := PairKey.Key(aId, bId);
      if key in channelParamsMap then Some(channelParamsMap[key]) else None
    }

    /** Empties both caches. */
    method DoDispose()
      modifies this`channelParamsMap, this`channelMatrixMap
      ensures channelParamsMap == map[] && channelMatrixMap == map[]
    {
      channelMatrixMap := map[];
      channelParamsMap := map[];
    }
  }

  /** After GetChannel the parameters of the node pair are there to be read, from either end. */
  lemma GetParamsAfterGetChannel(paramsMap: map<nat, ChannelParams>, aId: nat, bId: nat, params: ChannelParams)
    ensures var stored := paramsMap[PairKey.Key(aId, bId) := params];
      PairKey.Key(bId, aId) in stored && stored[PairKey.Key(bId, aId)] == params
  {
    PairKey.KeyReciprocal(aId, bId);
  }
}
