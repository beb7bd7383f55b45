# NYUSIM channel model for ns-3, in Dafny

This project models the core of the NYUSIM port to ns-3. That core is made of four parts:

- **Channel condition model** (`NYUChannelConditionModel`): decides whether a link between two nodes is in line of sight (LOS) or not (NLOS). It uses the scenario's LOS probability, and caches the decision per link.
- **Propagation loss model** (`NYUPropagationLossModel` with its five scenario subclasses: RMa, UMa, UMi, InH, InF). It computes received power as transmitted power minus:
  - the close-in free-space path loss;
  - correlated shadowing;
  - outdoor-to-indoor (O2I) loss;
  - foliage loss;
  - atmospheric loss.
- **Channel model** (`NYUChannelModel`). It looks up the NYUSIM statistical parameter table for a scenario and condition. It then draws, for a link:
  - time clusters, spatial lobes and subpaths;
  - intra-cluster and cluster delays;
  - cluster and subpath powers;
  - phases and angles.

  It assembles these into a power spectrum, merges subpaths the bandwidth cannot resolve, aligns the LOS subpath and keeps the subpaths above a power threshold. Finally it converts angles to the global coordinate system. Channel parameters and channel matrices are cached per node pair and per antenna pair.
- **Spectrum propagation loss model** (`NYUSpectrumPropagationLossModel`). It computes the long-term beamforming component of a channel matrix, caches it per antenna pair, and scales every bin of a power spectral density by the beamformed, Doppler-shifted subband gain.

## How the model is built

**Values and classes**
- Pure computations are Dafny functions over datatypes.
- Objects whose fields the source updates in place are classes:
  - `ConditionModel.NYUChannelConditionModel`;
  - `PropagationLoss.NYUPropagationLossModel`;
  - `ChannelModel.NYUChannelModel`;
  - `SpectrumLoss.NYUSpectrumPropagationLossModel`.

  Their caches (`std::unordered_map`) are `map` fields. Each cache operation is specified by a pure function of the old map: `Lookup`, `ShadowingUpdate`, `ParamsAfter`, `MatrixAfter` and `MustCompute`. Lemmas state hit, miss and refresh behaviour in terms of that function.
- Formulas with no property of their own are contract-free functions. Examples: `FreeSpacePathLoss`, `LogDistanceLoss`, `CorrelationCoefficient`, `NeedsRefresh`, `TimeOfFlight`, `DecayedPower`, `GroupSum`, `LeaderRow`, `MustCompute`, `SubbandGain` and `Doppler`. They appear in the contracts of the members listed under "## Model", which lists only members that carry a contract.
- Loops of the source are methods with loop invariants, each proved equal to a specification function. Examples: the subpath combiner, the subpath filter, the delay, power and angle generators, the LOS alignment (in place on an `array`) and the subband gain.

**Numbers and randomness**
- Transcendental functions (`exp`, `log10`, `pow`, `sqrt`, `WrapTo360`, `sin`, `cos`, the polar form of a complex number) are function values passed in a record. Predicates state the few laws a proof needs, for example `exp` is positive, `log10` is increasing, and `sin² + cos² = 1`.
- Every random draw (uniform, normal, exponential, gamma, Poisson, binomial, discrete uniform) is an explicit parameter.
- Simulation time is an integer `now`.
- `NS_ASSERT` becomes a precondition. `NS_FATAL_ERROR` becomes an `Err` result that carries the source's message.
- Node pairs are keyed with the Cantor pairing of the sorted ids, as the source's `GetKey` does.

**Behaviour of the source kept as written**
- The LOS probability takes the 2D distance as computed, with no lower limit.
- A cached condition is refreshed only when `now - generatedTime > updatePeriod`, with a strict comparison.
- The O2I loss-type setter checks `type != "Low Loss" || type != "High Loss"`, which every string satisfies, so every string is accepted. `PropagationLoss.O2ILossTypeAssertionAlwaysHolds` states this. An unknown type only fails later, in `GetO2IPathLoss`.
- `GetPowerSpectrum` reads the angle rows by the subpath's index inside its cluster, not by its running index. So the angles of every cluster are taken from the first rows of the angle table. `PowerSpectrum.SpectrumAnglesComeFromFirstCluster` states this.
- `GetSubpathPowers` moves the strongest subpath to the front for cluster index 1 under LOS, and the model keeps index 1.

## Model

| member | source | states |
|---|---|---|
| Common.ParseScenario | spectrum/model/nyu-channel-model.cc:166-173 | a scenario name is accepted exactly when it is one of Rma, Uma, Umi, InH, InF |
| Common.Round | spectrum/model/nyu-channel-model.cc:1276 | the rounded value is within one half of its argument |
| Common.Min | spectrum/model/nyu-channel-model.cc:1093-1107 | GetMinimumValue returns one of its arguments, and it is no greater than either |
| Common.Max | spectrum/model/nyu-channel-model.cc:1110-1124 | GetMaximumValue returns one of its arguments, and it is no smaller than either |
| Sequences.Sort | spectrum/model/nyu-channel-model.cc:1371 | std::sort yields a sorted permutation of its input |
| Sequences.MinOf | spectrum/model/nyu-channel-model.cc:1363 | min_element is an element of the sequence and bounds every element from below |
| Sequences.ArgMax | spectrum/model/nyu-channel-model.cc:1625-1626 | max_element's index points at a maximum, and at the first one |
| Sequences.Shift | spectrum/model/nyu-channel-model.cc:1365-1368 | subtracting the minimum keeps the length and moves every element by the same amount |
| Sequences.ShiftedSortStartsAtZero | spectrum/model/nyu-channel-model.cc:1363-1371 | after subtracting the minimum and sorting, the delays start at 0 and are all non-negative |
| Sequences.SumDivide | spectrum/model/nyu-channel-model.cc:1548-1552 | dividing every element by d divides the sum by d |
| PairKey.KeyReciprocal | propagation/model/nyu-channel-condition-model.cc:168-178 | the link key does not depend on the order of the two node ids |
| PairKey.KeyInjective | propagation/model/nyu-channel-condition-model.cc:168-178 | two links share a key only when they join the same two nodes |
| Calibration.GetCalibratedParameter | spectrum/model/nyu-channel-model.cc:184-202 | below 28 GHz the first value is used and above 140 GHz the second |
| Calibration.CalibratedIsInterpolation | spectrum/model/nyu-channel-model.cc:184-202 | between 28 and 140 GHz the value is the straight line through (28, val1) and (140, val2) |
| Calibration.CalibratedConstant | spectrum/model/nyu-channel-model.cc:184-202 | equal end values give that value at every frequency |
| Calibration.CalibratedBetween | spectrum/model/nyu-channel-model.cc:184-202 | the calibrated value always lies between the two end values |
| Calibration.CalibratedMonotone | spectrum/model/nyu-channel-model.cc:184-202 | the calibrated value moves monotonically with frequency, from val1 towards val2 |
| ConditionModel.SquaredDistance2d | propagation/model/nyu-channel-condition-model.cc:159-165 | the squared horizontal distance is non-negative |
| ConditionModel.Calculate2dDistance | propagation/model/nyu-channel-condition-model.cc:159-165 | the result is a non-negative number whose square is the squared horizontal distance |
| ConditionModel.Distance2dSymmetricFlat | propagation/model/nyu-channel-condition-model.cc:159-165 | the 2D distance is symmetric and ignores heights |
| ConditionModel.UmaHeightTerm | propagation/model/nyu-channel-condition-model.cc:276-279 | the UMa height correction is 0 up to 13 m user height and positive above |
| ConditionModel.InFPlos | propagation/model/nyu-channel-condition-model.cc:407-415 | the InF probability is a number only at distance 0; the fractional power of a negative distance gives no number |
| ConditionModel.ComputePlos | propagation/model/nyu-channel-condition-model.cc:203-415 | every scenario other than InF yields a LOS probability |
| ConditionModel.PlosOneInsideBreakpoint | propagation/model/nyu-channel-condition-model.cc:203-224 | within the scenario's breakpoint distance the LOS probability is exactly 1 |
| ConditionModel.RmaPlosIsDecreasingProbability | propagation/model/nyu-channel-condition-model.cc:203-224 | the RMa LOS probability lies in (0, 1] and does not increase with distance |
| ConditionModel.InHPlosIsProbability | propagation/model/nyu-channel-condition-model.cc:357-382 | the InH LOS probability lies in (0, 1] and is at most 0.32 from 6.5 m on |
| ConditionModel.RmaPlos | propagation/model/nyu-channel-condition-model.cc:203-224 | the RMa LOS probability is 1 up to 10 m; under the laws of exp it lies in (0, 1], and below 1 beyond 10 m |
| ConditionModel.UmaPlos | propagation/model/nyu-channel-condition-model.cc:249-288 | the UMa LOS probability is 1 up to 20 m, and positive at every distance under the laws of exp and pow |
| ConditionModel.UmiPlos | propagation/model/nyu-channel-condition-model.cc:313-332 | the UMi LOS probability is 1 up to 22 m, and positive at every distance under the laws of exp and pow |
| ConditionModel.InHPlos | propagation/model/nyu-channel-condition-model.cc:357-382 | the InH LOS probability is 1 up to 1.2 m; under the laws of exp it lies in (0, 1], and below 1 beyond 1.2 m |
| ConditionModel.Classify | propagation/model/nyu-channel-condition-model.cc:138-147 | LOS exactly when the reference draw is at most the LOS probability, NLOS otherwise |
| ConditionModel.ComputeChannelCondition | propagation/model/nyu-channel-condition-model.cc:123-149 | the condition is LOS or NLOS with O2I not defined, LOS exactly when the draw does not exceed the scenario's probability |
| ConditionModel.LosInsideBreakpoint | propagation/model/nyu-channel-condition-model.cc:123-149 | a link inside the breakpoint distance is always classified LOS |
| ConditionModel.InFNlosBeyondZero | propagation/model/nyu-channel-condition-model.cc:407-415 | an InF link at a non-zero distance is always NLOS |
| ConditionModel.Lookup | propagation/model/nyu-channel-condition-model.cc:77-120 | the returned condition is stored under the link key, and every other entry of the cache is unchanged |
| ConditionModel.UnexpiredEntryIsKept | propagation/model/nyu-channel-condition-model.cc:89-111 | a stored condition no older than a non-zero period, the period itself included, is returned and the cache is untouched |
| ConditionModel.ZeroPeriodNeverRefreshes | propagation/model/nyu-channel-condition-model.cc:89-101 | with update period 0 a cached condition is returned forever and the cache is untouched |
| ConditionModel.MissStoresComputed | propagation/model/nyu-channel-condition-model.cc:109-119 | on a miss or an expired entry the fresh condition is returned and stored with the current time |
| ConditionModel.RepeatIsHit | propagation/model/nyu-channel-condition-model.cc:77-120 | asking twice at the same time returns the first answer and leaves the cache as the first call left it |
| ConditionModel.LinkKeyIsReciprocalAndUnique | propagation/model/nyu-channel-condition-model.cc:168-178 | a and b share one cache entry whichever asks, and distinct links never share one |
| ConditionModel.NYUChannelConditionModel.constructor | propagation/model/nyu-channel-condition-model.cc:59-65 | a new model holds its scenario and update period and an empty cache |
| ConditionModel.NYUChannelConditionModel.GetChannelCondition | propagation/model/nyu-channel-condition-model.cc:77-120 | the returned condition and the new cache are those of Lookup under the link key |
| ConditionModel.NYUChannelConditionModel.DoDispose | propagation/model/nyu-channel-condition-model.cc:70-74 | disposal empties the cache and resets the update period |
| PropagationLoss.GetCalibratedParameter | propagation/model/nyu-propagation-loss-model.cc:851-871 | the path loss exponent is ple1 below 28 GHz, ple2 above 140 GHz, always between them, and constant when they are equal |
| PropagationLoss.InHLosExponentContinuous | propagation/model/nyu-propagation-loss-model.cc:1044-1074 | the InH LOS exponent below 28 GHz meets the calibrated one at 28 GHz, where both are 1.2 |
| PropagationLoss.GetLossLos | propagation/model/nyu-propagation-loss-model.cc:931-1436 | each scenario's LOS path loss at a distance of at least 1 m is no smaller than the close-in loss at the 1 m reference distance |
| PropagationLoss.GetLossNlos | propagation/model/nyu-propagation-loss-model.cc:931-1436 | each scenario's NLOS path loss at a distance of at least 1 m is no smaller than the close-in loss at the 1 m reference distance |
| PropagationLoss.GetLoss | propagation/model/nyu-propagation-loss-model.cc:728-745 | LOS gives the LOS loss, NLOS the NLOS loss, and any other condition the fatal error |
| PropagationLoss.DistanceSlopeNonNegative | propagation/model/nyu-propagation-loss-model.cc:931-975 | every scenario's path loss exponent is non-negative (for RMa, with base stations up to 700 m high) |
| PropagationLoss.LossNonDecreasingInDistance | propagation/model/nyu-propagation-loss-model.cc:931-975 | the LOS and NLOS path losses never decrease as the distance grows |
| PropagationLoss.LogDistanceLossMonotone | propagation/model/nyu-propagation-loss-model.cc:931-951 | the close-in log-distance loss is monotone in distance for a non-negative exponent |
| PropagationLoss.ShadowingStdEnds | propagation/model/nyu-propagation-loss-model.cc:978-997 | the shadowing standard deviations at both calibration ends are positive |
| PropagationLoss.GetShadowingStd | propagation/model/nyu-propagation-loss-model.cc:1323-1340 | the standard deviation exists exactly for LOS and NLOS, and is then positive |
| PropagationLoss.GetShadowingCorrelationDistance | propagation/model/nyu-propagation-loss-model.cc:1343-1363 | the correlation distance exists exactly for LOS and NLOS, and is then between 6 and 120 m |
| PropagationLoss.GetUtAndBsHeights | propagation/model/nyu-propagation-loss-model.cc:748-756 | the user height is the lower node height and the base-station height the higher one |
| PropagationLoss.HeightsSymmetric | propagation/model/nyu-propagation-loss-model.cc:748-756 | swapping the nodes does not change the heights |
| PropagationLoss.GetVectorDifference | propagation/model/nyu-propagation-loss-model.cc:782-795 | the difference always points from the lower id to the higher id |
| PropagationLoss.VectorDifferenceSymmetric | propagation/model/nyu-propagation-loss-model.cc:782-795 | the difference vector does not depend on the order of the two nodes |
| PropagationLoss.GetO2IPathLoss | propagation/model/nyu-propagation-loss-model.cc:874-894 | only "Low Loss" and "High Loss" are known; any other type is the fatal error |
| PropagationLoss.HighLossExceedsLowLoss | propagation/model/nyu-propagation-loss-model.cc:874-894 | for the same normal draw, high-loss O2I exceeds low-loss O2I |
| PropagationLoss.O2ILossTypeAssertionAlwaysHolds | propagation/model/nyu-propagation-loss-model.cc:330-336 | the setter's assertion is met by every string |
| PropagationLoss.GetFoliagePathLoss | propagation/model/nyu-propagation-loss-model.cc:897-904 | foliage loss lies between 0 and loss-per-metre times distance |
| PropagationLoss.GetAtmosphericAttenuation | propagation/model/nyu-propagation-loss-model.cc:390-396 | atmospheric attenuation is non-negative for a non-negative factor and distance |
| PropagationLoss.CorrelationInUnitInterval | propagation/model/nyu-propagation-loss-model.cc:832-837 | the shadowing correlation lies in (0, 1] |
| PropagationLoss.ShadowingUpdate | propagation/model/nyu-propagation-loss-model.cc:798-848 | the new value is stored with the condition and the displacement (origin on a miss), a miss or condition change draws afresh, and other links are unchanged |
| PropagationLoss.StationaryLinkKeepsShadowing | propagation/model/nyu-propagation-loss-model.cc:829-837 | a link that has not moved and kept its condition keeps its shadowing value |
| PropagationLoss.ShadowingTerm | propagation/model/nyu-propagation-loss-model.cc:368-371 | with shadowing disabled the term is 0 and the cache is untouched |
| PropagationLoss.RxPower | propagation/model/nyu-propagation-loss-model.cc:346-387 | received power is defined exactly for LOS and NLOS conditions; otherwise the shadowing cache is untouched |
| PropagationLoss.RxPowerWithoutOptions | propagation/model/nyu-propagation-loss-model.cc:346-387 | with every optional term off, received power is transmitted power minus the scenario path loss |
| PropagationLoss.FoliageNeverRaisesRxPower | propagation/model/nyu-propagation-loss-model.cc:376-379 | switching foliage loss on never raises the received power |
| PropagationLoss.RxPowerDefinedForNyuConditions | propagation/model/nyu-propagation-loss-model.cc:346-387 | a condition produced by the channel condition model always yields a received power |
| PropagationLoss.NYUPropagationLossModel.constructor | propagation/model/nyu-propagation-loss-model.cc:189-196 | the defaults: 28 GHz, 0.4 dB/m foliage, Low Loss, shadowing on, standard atmosphere, empty cache, and a fresh condition model |
| PropagationLoss.NYUPropagationLossModel.Settings | propagation/model/nyu-propagation-loss-model.cc:346-387 | the settings record mirrors the object's fields |
| PropagationLoss.NYUPropagationLossModel.SetFrequency | propagation/model/nyu-propagation-loss-model.cc:234-240 | the frequency is stored |
| PropagationLoss.NYUPropagationLossModel.SetFoliageLoss | propagation/model/nyu-propagation-loss-model.cc:250-256 | the foliage loss is stored |
| PropagationLoss.NYUPropagationLossModel.SetAtmosphericPressure | propagation/model/nyu-propagation-loss-model.cc:266-272 | the pressure is stored |
| PropagationLoss.NYUPropagationLossModel.SetHumidity | propagation/model/nyu-propagation-loss-model.cc:282-288 | the humidity is stored |
| PropagationLoss.NYUPropagationLossModel.SetTemperature | propagation/model/nyu-propagation-loss-model.cc:298-304 | the temperature is stored |
| PropagationLoss.NYUPropagationLossModel.SetRainRate | propagation/model/nyu-propagation-loss-model.cc:314-320 | the rain rate is stored |
| PropagationLoss.NYUPropagationLossModel.SetO2ILossType | propagation/model/nyu-propagation-loss-model.cc:330-336 | any type is stored, as the setter's assertion always holds |
| PropagationLoss.NYUPropagationLossModel.GetShadowing | propagation/model/nyu-propagation-loss-model.cc:798-848 | the value and the new cache are those of ShadowingUpdate under the link key; an unknown condition is an error and leaves the cache alone |
| PropagationLoss.NYUPropagationLossModel.DoCalcRxPower | propagation/model/nyu-propagation-loss-model.cc:346-387 | the condition comes from the condition model's cache, and the result and the new shadowing cache are those of RxPower |
| PropagationLoss.NYUPropagationLossModel.RxPowerForCondition | propagation/model/nyu-propagation-loss-model.cc:357-386 | once the condition is known, the result and the new shadowing cache are those of RxPower |
| PropagationLoss.NYUPropagationLossModel.DoDispose | propagation/model/nyu-propagation-loss-model.cc:204-209 | disposal empties the shadowing cache and disposes of the condition model |
| ChannelTable.GetNYUTable | spectrum/model/nyu-channel-model.cc:205-523 | the table is marked LOS exactly for a LOS condition, and always for InF; the XPD deviation is 1.6 dB |
| ChannelTable.UmiAndUmaShareTable | spectrum/model/nyu-channel-model.cc:228-344 | UMi and UMa use the same parameter table |
| ChannelTable.RmaSingleClusterSingleLobe | spectrum/model/nyu-channel-model.cc:345-400 | RMa has one time cluster and one lobe in each direction |
| ChannelTable.VoidIntervalByScenario | spectrum/model/nyu-channel-model.cc:205-523 | the minimum void interval is 25 ns outdoors, 6 ns for InH and 8 ns for InF |
| ChannelTable.DistributionTypesKnown | spectrum/model/nyu-channel-model.cc:205-523 | every table names only the Gaussian or Laplacian distributions for the lobe spreads |
| ChannelTable.DecayConstantsPositive | spectrum/model/nyu-channel-model.cc:205-523 | the cluster and subpath power decay constants of every table are positive |
| ChannelTable.XpdByCondition | spectrum/model/nyu-channel-model.cc:205-523 | the mean XPD depends only on the condition and is higher under LOS |
| ChannelTable.Signum | spectrum/model/nyu-channel-model.cc:1127-1145 | the sign is 1, -1 or 0 exactly for positive, negative or zero values |
| ChannelTable.SignumTimesValue | spectrum/model/nyu-channel-model.cc:1127-1145 | the sign times the value is the absolute value |
| ChannelTable.DbToPow | spectrum/model/nyu-channel-model.cc:1148-1153 | a power converted from dB is positive |
| ChannelTable.DynamicRange | spectrum/model/nyu-channel-model.cc:1157-1170 | the dynamic range is 190 dB up to 500 m and 220 dB beyond |
| ChannelTable.DynamicRangeMonotone | spectrum/model/nyu-channel-model.cc:1157-1170 | the dynamic range never shrinks with distance |
| ClusterGeneration.GetNumberOfTimeClusters | spectrum/model/nyu-channel-model.cc:1173-1189 | indoors at least one cluster (Poisson plus one); outdoors the discrete uniform draw |
| ClusterGeneration.GetNumberOfSpatialLobes | spectrum/model/nyu-channel-model.cc:1192-1218 | RMa has one lobe, UMi and UMa between 1 and 5, InF at least one, InH the uniform draw |
| ClusterGeneration.LobeClampKeepsValidDraws | spectrum/model/nyu-channel-model.cc:1209-1215 | a UMi or UMa draw already between 1 and 5 is kept unchanged |
| ClusterGeneration.GetNumberOfSubpathsInTimeCluster | spectrum/model/nyu-channel-model.cc:1250-1312 | one count per cluster (two for a single indoor cluster), each given by the scenario's branch |
| ClusterGeneration.SingleIndoorClusterHasTwoCounts | spectrum/model/nyu-channel-model.cc:1283-1286 | a single indoor cluster yields two counts, a single outdoor one yields one |
| ClusterGeneration.SubpathCountsPositive | spectrum/model/nyu-channel-model.cc:1262-1303 | every cluster has at least one subpath |
| ClusterGeneration.RawSubpathDelays | spectrum/model/nyu-channel-model.cc:1339-1361 | one raw delay per subpath; a zero bandwidth is excluded only outdoors below 100 GHz, the one branch that divides by it |
| ClusterGeneration.PowAll | spectrum/model/nyu-channel-model.cc:1377-1380 | raising every delay to a power keeps the count |
| ClusterGeneration.ClusterSubpathDelays | spectrum/model/nyu-channel-model.cc:1337-1382 | one delay per subpath of the cluster |
| ClusterGeneration.ClusterSubpathDelaysNormalised | spectrum/model/nyu-channel-model.cc:1363-1381 | intra-cluster delays start at 0, are sorted and are non-negative |
| ClusterGeneration.SubtractMinimum | spectrum/model/nyu-channel-model.cc:1363-1368 | the loop subtracts the sequence's minimum from every element |
| ClusterGeneration.ClusterIntraDelays | spectrum/model/nyu-channel-model.cc:1337-1382 | the per-cluster loop computes ClusterSubpathDelays |
| ClusterGeneration.AppendClusterDelays | spectrum/model/nyu-channel-model.cc:1334-1385 | one outer iteration appends the next cluster's ClusterSubpathDelays and keeps the earlier rows |
| ClusterGeneration.GetIntraClusterDelays | spectrum/model/nyu-channel-model.cc:1315-1396 | one delay row per cluster, each equal to ClusterSubpathDelays for that cluster's count and draws |
| ClusterGeneration.GetSubpathPhases | spectrum/model/nyu-channel-model.cc:1399-1431 | one row of four polarisation phases per subpath, taken from the draws in order |
| ClusterGeneration.LastDelays | spectrum/model/nyu-channel-model.cc:1479-1487 | one last-subpath delay per cluster |
| ClusterGeneration.ExcessDelays | spectrum/model/nyu-channel-model.cc:1452-1488 | one excess delay per cluster, the first being 0 |
| ClusterGeneration.ExcessDelaysStep | spectrum/model/nyu-channel-model.cc:1482-1488 | each cluster starts at its draw plus the previous cluster's start, last subpath delay and the void interval |
| ClusterGeneration.ClusterExcessDelays | spectrum/model/nyu-channel-model.cc:1434-1495 | one excess delay per cluster, the first being 0 |
| ClusterGeneration.ExcessDelaysSpacing | spectrum/model/nyu-channel-model.cc:1482-1488 | each cluster starts at least a void interval after the previous cluster's last subpath, and strictly later than the previous start |
| ClusterGeneration.ClusterExcessDelaysSpacing | spectrum/model/nyu-channel-model.cc:1434-1495 | with sorted non-negative draws, clusters never overlap and start strictly in order |
| ClusterGeneration.GetClusterExcessTimeDelays | spectrum/model/nyu-channel-model.cc:1434-1495 | the method computes ClusterExcessDelays |
| ClusterGeneration.AccumulateClusterDelays | spectrum/model/nyu-channel-model.cc:1479-1488 | the accumulation loop computes ExcessDelays |
| ClusterGeneration.DecayedPowerPositive | spectrum/model/nyu-channel-model.cc:1531 | an exponentially decayed, shadowed power is positive |
| ClusterGeneration.RawClusterPowers | spectrum/model/nyu-channel-model.cc:1517-1533 | one raw power per cluster |
| ClusterGeneration.Normalise | spectrum/model/nyu-channel-model.cc:1542-1552 | normalising keeps the count |
| ClusterGeneration.NormaliseSumsToOne | spectrum/model/nyu-channel-model.cc:1542-1552 | normalised powers sum to 1 |
| ClusterGeneration.RawClusterPowersPositive | spectrum/model/nyu-channel-model.cc:1529-1533 | the raw cluster powers have a positive sum |
| ClusterGeneration.GetClusterPowers | spectrum/model/nyu-channel-model.cc:1498-1560 | cluster powers are the normalised decayed powers and sum to 1 |
| ClusterGeneration.RawSubpathPowers | spectrum/model/nyu-channel-model.cc:1594-1612 | one raw power per subpath |
| ClusterGeneration.SwapStrongestFirst | spectrum/model/nyu-channel-model.cc:1622-1630 | the swap keeps the count |
| ClusterGeneration.SwapStrongestFirstProperties | spectrum/model/nyu-channel-model.cc:1622-1630 | after the swap the first subpath is the strongest, and the powers are a permutation with the same sum |
| ClusterGeneration.SubpathRatios | spectrum/model/nyu-channel-model.cc:1607-1630 | one ratio per subpath |
| ClusterGeneration.Share | spectrum/model/nyu-channel-model.cc:1633-1640 | one share per subpath |
| ClusterGeneration.ShareOfAdds | spectrum/model/nyu-channel-model.cc:1638 | shares of two parts add up to the share of their sum |
| ClusterGeneration.SumShare | spectrum/model/nyu-channel-model.cc:1633-1640 | the shares sum to the share of the total |
| ClusterGeneration.ShareSumsToTotal | spectrum/model/nyu-channel-model.cc:1633-1640 | splitting a cluster's power in proportion to the ratios preserves that power |
| ClusterGeneration.ClusterSubpathPowers | spectrum/model/nyu-channel-model.cc:1589-1642 | one power per subpath of the cluster |
| ClusterGeneration.ClusterSubpathPowersSum | spectrum/model/nyu-channel-model.cc:1589-1642 | a cluster's subpath powers sum to the cluster power; the strongest comes first for cluster 1 under LOS, and the raw order is kept otherwise |
| ClusterGeneration.GetSubpathPowers | spectrum/model/nyu-channel-model.cc:1563-1659 | one power row per cluster, equal to ClusterSubpathPowers of that cluster |
| ClusterGeneration.ComputeSubpathRatios | spectrum/model/nyu-channel-model.cc:1594-1630 | the shadowing and decay loops, with the strongest-first swap for cluster index 1 under LOS, compute SubpathRatios |
| ClusterGeneration.ComputeShares | spectrum/model/nyu-channel-model.cc:1633-1640 | the last loop gives every subpath its Share of the cluster power |
| ClusterGeneration.GetAbsolutePropagationTimes | spectrum/model/nyu-channel-model.cc:1662-1702 | every absolute time is the subpath delay plus the cluster delay plus the time of flight |
| ClusterGeneration.AbsoluteTimesKeepOrder | spectrum/model/nyu-channel-model.cc:1677-1690 | absolute times keep the subpath order, and the first subpath arrives at the time of flight |
| Angles.Positions | spectrum/model/nyu-channel-model.cc:1785-1788 | the (cluster, subpath) positions enumerate every subpath of every cluster in order |
| Angles.PositionsStep | spectrum/model/nyu-channel-model.cc:1785-1788 | adding a cluster appends its subpaths' positions |
| Angles.PositionsHead | spectrum/model/nyu-channel-model.cc:1785-1788 | the first subpaths enumerated are those of cluster 0 |
| Angles.LobeMeans | spectrum/model/nyu-channel-model.cc:1752-1776 | one mean direction per lobe |
| Angles.LobeMeansInSectors | spectrum/model/nyu-channel-model.cc:1752-1776 | lobe k's mean azimuth lies in the k-th equal azimuth sector, within [0, 360] |
| Angles.Spread | spectrum/model/nyu-channel-model.cc:1795-1808 | a spread exists exactly for the Gaussian and Laplacian distributions |
| Angles.LaplacianMedianIsZero | spectrum/model/nyu-channel-model.cc:1799-1804 | the Laplacian spread of the median draw is 0 |
| Angles.SubpathAngles | spectrum/model/nyu-channel-model.cc:1790-1831 | an unknown distribution is the fatal error, reporting azimuth before elevation |
| Angles.SubpathAnglesBounded | spectrum/model/nyu-channel-model.cc:1826-1828 | subpath azimuths are wrapped to [0, 360) and elevations clamped to [-60, 60] |
| Angles.MeanLobeAngles | spectrum/model/nyu-channel-model.cc:1738-1776 | the 1-indexed mean direction tables hold LobeMeans |
| Angles.SubpathAngle | spectrum/model/nyu-channel-model.cc:1790-1828 | the per-subpath step computes SubpathAngles |
| Angles.MapCluster | spectrum/model/nyu-channel-model.cc:1788-1832 | the inner loop appends one MappingRow per subpath of the cluster, or fails exactly when the cluster has a subpath and a distribution is unknown |
| Angles.MapNextCluster | spectrum/model/nyu-channel-model.cc:1785-1833 | one outer iteration extends the rows from the positions of the first i clusters to those of the first i + 1 |
| Angles.GetSubpathMappingAndAngles | spectrum/model/nyu-channel-model.cc:1705-1867 | one row per subpath with its position, lobe and angles, or the fatal error exactly when a distribution is unknown |
| PowerSpectrum.SpectrumRow | spectrum/model/nyu-channel-model.cc:1893-1904 | a row takes the absolute delay and power at its position, and angles from the row of its in-cluster index |
| PowerSpectrum.AppendClusterRows | spectrum/model/nyu-channel-model.cc:1891-1905 | the inner loop appends one SpectrumRow per subpath |
| PowerSpectrum.AppendNextCluster | spectrum/model/nyu-channel-model.cc:1889-1908 | one outer iteration extends the rows from the positions of the first i clusters to those of the first i + 1 |
| PowerSpectrum.GetPowerSpectrum | spectrum/model/nyu-channel-model.cc:1870-1961 | one row per subpath, in order, each equal to SpectrumRow at its position |
| PowerSpectrum.SpectrumAnglesComeFromFirstCluster | spectrum/model/nyu-channel-model.cc:1896-1901 | when the angle table lists clusters in order, every row's departure angles are those of a subpath of the first cluster |
| LosAlignment.CorrectAzimuth | spectrum/model/nyu-channel-model.cc:2091-2098 | the correct arrival azimuth is the departure azimuth turned by 180 degrees and stays in [0, 360) |
| LosAlignment.FoldElevation | spectrum/model/nyu-channel-model.cc:2133-2140 | folding maps [-270, 270] into [-90, 90] and leaves [-90, 90] unchanged |
| LosAlignment.LosAligned | spectrum/model/nyu-channel-model.cc:2088-2154 | alignment keeps the number of subpaths |
| LosAlignment.GetLosAlignedPowerSpectrum | spectrum/model/nyu-channel-model.cc:2075-2155 | the array is updated in place to LosAligned of its old contents |
| LosAlignment.RotateAzimuths | spectrum/model/nyu-channel-model.cc:2107-2111 | every arrival azimuth is shifted back by the difference and wrapped, and nothing else changes |
| LosAlignment.FoldElevations | spectrum/model/nyu-channel-model.cc:2130-2141 | every arrival elevation is shifted back by the difference and folded at the poles, and nothing else changes |
| LosAlignment.LosAlignedKeepsOtherFields | spectrum/model/nyu-channel-model.cc:2088-2154 | alignment changes only the arrival azimuth and elevation |
| LosAlignment.LosAlignedFirstAzimuthOpposite | spectrum/model/nyu-channel-model.cc:2091-2111 | under LOS the first subpath arrives from opposite its departure azimuth |
| LosAlignment.LosAlignedFirstElevationMirrored | spectrum/model/nyu-channel-model.cc:2121-2133 | under LOS the first subpath's arrival elevation is minus its departure elevation |
| LosAlignment.LosAlignedAzimuthsWrapped | spectrum/model/nyu-channel-model.cc:2107-2111 | every aligned arrival azimuth lies in [0, 360) |
| LosAlignment.LosAlignedElevationsBounded | spectrum/model/nyu-channel-model.cc:2130-2141 | aligned arrival elevations of in-range subpaths lie in [-90, 90] |
| SubpathCombiner.MinTime | spectrum/model/nyu-channel-model.cc:1985 | the resolution time is positive for a positive bandwidth |
| SubpathCombiner.GroupEnd | spectrum/model/nyu-channel-model.cc:1996-2001 | the inner scan stops at the first subpath past the boundary or at the last subpath |
| SubpathCombiner.Leaders | spectrum/model/nyu-channel-model.cc:1990-2009 | the group leaders are increasing indices starting at the first |
| SubpathCombiner.Combined | spectrum/model/nyu-channel-model.cc:1990-2009 | the combined spectrum is empty exactly when fewer than two subpaths remain, never longer than its input, and has non-negative powers |
| SubpathCombiner.CombinedStep | spectrum/model/nyu-channel-model.cc:1990-2009 | one outer step emits the leader with the group's combined power and resumes at the group end |
| SubpathCombiner.CombinedRowsAreLeaders | spectrum/model/nyu-channel-model.cc:1993-2005 | every combined row is its group leader with only the power replaced |
| SubpathCombiner.LeadersSpacedBeyondResolution | spectrum/model/nyu-channel-model.cc:1994-2007 | successive group leaders are more than the resolution time apart |
| SubpathCombiner.GroupsWithinResolution | spectrum/model/nyu-channel-model.cc:1994-2001 | every subpath merged into a group lies within the resolution time of its leader |
| SubpathCombiner.ResolvedSubpathsKeepTheirPowers | spectrum/model/nyu-channel-model.cc:1990-2009 | when all subpaths are resolvable, the output is the input without its last subpath |
| SubpathCombiner.ScanGroup | spectrum/model/nyu-channel-model.cc:1996-2001 | the inner loop finds GroupEnd and the phasor sum of the group |
| SubpathCombiner.CombineGroup | spectrum/model/nyu-channel-model.cc:1993-2007 | one outer iteration appends the group's leader row carrying the power of the group's phasor sum, and moves on to the end of the group |
| SubpathCombiner.CombineSubpaths | spectrum/model/nyu-channel-model.cc:1990-2009 | the outer loop computes Combined from the first subpath |
| SubpathCombiner.GetBWAdjustedPowerSpectrum | spectrum/model/nyu-channel-model.cc:1964-2072 | the result is the LOS-aligned combined spectrum, or the aligned input when it has one subpath |
| ValidSubpaths.MaxPower | spectrum/model/nyu-channel-model.cc:2169-2176 | the strongest power bounds every subpath, is one of them or 0, and is non-negative |
| ValidSubpaths.Above | spectrum/model/nyu-channel-model.cc:2183-2190 | the filter keeps exactly the subpaths whose power in dB exceeds the threshold |
| ValidSubpaths.StrongestPower | spectrum/model/nyu-channel-model.cc:2169-2176 | the loop computes MaxPower |
| ValidSubpaths.KeepAbove | spectrum/model/nyu-channel-model.cc:2183-2190 | the loop keeps exactly the subpaths above the threshold, in order (Above) |
| ValidSubpaths.GetValidSubpaths | spectrum/model/nyu-channel-model.cc:2158-2196 | the result is the filter at the threshold pwrthreshold below the strongest power |
| ValidSubpaths.StrongestSubpathKept | spectrum/model/nyu-channel-model.cc:2178-2188 | the strongest subpath always survives a positive threshold |
| ValidSubpaths.KeptIsUpwardClosed | spectrum/model/nyu-channel-model.cc:2183-2190 | a subpath at least as strong as a kept one is kept |
| ValidSubpaths.AboveIsSubsequence | spectrum/model/nyu-channel-model.cc:2183-2190 | the kept subpaths keep their order |
| ValidSubpaths.ValidSubpathsIdempotent | spectrum/model/nyu-channel-model.cc:2158-2196 | filtering a filtered spectrum again changes nothing |
| ValidSubpaths.AboveAllAbove | spectrum/model/nyu-channel-model.cc:2183-2190 | when every subpath is above the threshold, nothing is dropped |
| Rays.GetXpdPerSubpath | spectrum/model/nyu-channel-model.cc:2199-2235 | one XPD triple per subpath: theta-phi is the mean, and phi-phi and phi-theta carry the scaled draws |
| Rays.NYUCordinateSystemToGlobalCordinateSystem | spectrum/model/nyu-channel-model.cc:2238-2308 | four angle rows (AOA, ZOA, AOD, ZOD), one entry per subpath, converted and in radians; azimuths lie in [0, 2π) and the zeniths of in-range elevations in [0, π] |
| Rays.GcsAzimuthInRange | spectrum/model/nyu-channel-model.cc:2269-2271 | converted azimuths lie in [0, 2π) |
| Rays.GcsZenithInRange | spectrum/model/nyu-channel-model.cc:2270-2272 | converted zeniths of in-range elevations lie in [0, π] |
| ChannelModel.ChannelParamsNeedsUpdate | spectrum/model/nyu-channel-model.cc:526-550 | parameters are regenerated exactly when the condition changed or a non-zero period has expired: either reason forces an update and no other does; with period 0 only a condition change counts; parameters generated now under the same condition are current |
| ChannelModel.ChannelMatrixNeedsUpdate | spectrum/model/nyu-channel-model.cc:553-565 | a matrix is regenerated exactly when its parameters were generated after it |
| ChannelModel.NewParams | spectrum/model/nyu-channel-model.cc:526-550 | freshly generated parameters need no update at their generation time |
| ChannelModel.ParamsAfter | spectrum/model/nyu-channel-model.cc:593-624 | the parameters used are either the stored ones or the freshly generated ones |
| ChannelModel.MatrixAfter | spectrum/model/nyu-channel-model.cc:627-652 | the matrix used is either the stored one or the freshly generated one |
| ChannelModel.ValidParamsAreKept | spectrum/model/nyu-channel-model.cc:526-550 | stored parameters with the same condition and within the update period are reused |
| ChannelModel.ExpiredParamsRegenerate | spectrum/model/nyu-channel-model.cc:540-547 | stored parameters older than a non-zero period are replaced by the generated ones, whatever the condition |
| ChannelModel.ConditionChangeRegenerates | spectrum/model/nyu-channel-model.cc:526-550 | a change of LOS condition forces new parameters |
| ChannelModel.FreshParamsRenewOlderMatrix | spectrum/model/nyu-channel-model.cc:553-565 | a stored matrix older than new parameters is regenerated |
| ChannelModel.RepeatGetChannelIsHit | spectrum/model/nyu-channel-model.cc:568-656 | a second GetChannel at the same time with the same condition reuses both stored entries |
| ChannelModel.GetParamsAfterGetChannel | spectrum/model/nyu-channel-model.cc:659-676 | after parameters are stored for a→b, GetParams finds them for b→a too |
| ChannelModel.NYUChannelModel.constructor | spectrum/model/nyu-channel-model.cc:54-63 | the defaults are RMa, 140 GHz, 500 MHz, update period 0, and empty caches |
| ChannelModel.NYUChannelModel.SetFrequency | spectrum/model/nyu-channel-model.cc:135-140 | a frequency between 0.5 and 150 GHz is stored |
| ChannelModel.NYUChannelModel.SetRfBandwidth | spectrum/model/nyu-channel-model.cc:150-156 | a bandwidth between 0 and 1 GHz is stored |
| ChannelModel.NYUChannelModel.SetScenario | spectrum/model/nyu-channel-model.cc:166-173 | one of the five scenario names is stored, and it parses |
| ChannelModel.NYUChannelModel.GetChannel | spectrum/model/nyu-channel-model.cc:568-656 | both caches become ParamsAfter and MatrixAfter under the node-pair and antenna-pair keys, and the stored matrix is returned |
| ChannelModel.NYUChannelModel.GetParams | spectrum/model/nyu-channel-model.cc:659-676 | parameters are found exactly when the link has some, and the lookup is reciprocal |
| ChannelModel.NYUChannelModel.DoDispose | spectrum/model/nyu-channel-model.cc:71-81 | disposal empties both caches |
| SpectrumLoss.CalcLongTerm | spectrum/model/nyu-spectrum-propagation-loss-model.cc:113-132 | one long-term coefficient per cluster |
| SpectrumLoss.ZeroBeamRow | spectrum/model/nyu-spectrum-propagation-loss-model.cc:131 | a zero transmit beam contributes nothing to a row |
| SpectrumLoss.ZeroBeamPage | spectrum/model/nyu-spectrum-propagation-loss-model.cc:131 | a zero beam on either side zeroes a cluster's coefficient |
| SpectrumLoss.ZeroBeamZeroLongTerm | spectrum/model/nyu-spectrum-propagation-loss-model.cc:113-132 | a zero beamforming vector on either side gives an all-zero long-term component |
| SpectrumLoss.SingleElementLongTerm | spectrum/model/nyu-spectrum-propagation-loss-model.cc:113-132 | with single-element arrays the coefficient is uW·H·sW |
| SpectrumLoss.StoredLongTermIsHit | spectrum/model/nyu-spectrum-propagation-loss-model.cc:259-291 | right after storing, the same matrix and beams do not force a recomputation |
| SpectrumLoss.NewMatrixOrBeamRecomputes | spectrum/model/nyu-spectrum-propagation-loss-model.cc:267-269 | a newer matrix or a changed beam forces a recomputation |
| SpectrumLoss.ReverseDirectionMirrorsAngles | spectrum/model/nyu-spectrum-propagation-loss-model.cc:157-181 | in the reverse direction the arrival and departure angles swap roles |
| SpectrumLoss.StaticNodesHaveNoDoppler | spectrum/model/nyu-spectrum-propagation-loss-model.cc:183-204 | with both nodes at rest every Doppler term is 1 |
| SpectrumLoss.BeamformedPsd | spectrum/model/nyu-spectrum-propagation-loss-model.cc:210-227 | one output value per spectrum bin |
| SpectrumLoss.BeamformingScalesBins | spectrum/model/nyu-spectrum-propagation-loss-model.cc:212-224 | a zero bin stays zero, and the sign of every bin is kept |
| SpectrumLoss.ZeroLongTermZeroGain | spectrum/model/nyu-spectrum-propagation-loss-model.cc:216-222 | a zero long-term component gives a zero subband gain |
| SpectrumLoss.ZeroLongTermNothingReceived | spectrum/model/nyu-spectrum-propagation-loss-model.cc:210-227 | a zero long-term component empties every bin |
| SpectrumLoss.NormMul | spectrum/model/nyu-spectrum-propagation-loss-model.cc:221-223 | the norm of a product is the product of the norms |
| SpectrumLoss.SingleRayGainIsLongTermPower | spectrum/model/nyu-spectrum-propagation-loss-model.cc:216-223 | with one ray and a unit Doppler term the gain is the long-term coefficient's power |
| SpectrumLoss.Uint8RayLoopEndsBelow256 | spectrum/model/nyu-spectrum-propagation-loss-model.cc:218 | with fewer than 256 rays the 8-bit ray loop ends after numRays steps |
| SpectrumLoss.Uint8RayLoopNeverEnds | spectrum/model/nyu-spectrum-propagation-loss-model.cc:218 | with 256 or more rays the 8-bit ray loop never ends |
| SpectrumLoss.CalcSubbandGain | spectrum/model/nyu-spectrum-propagation-loss-model.cc:216-222 | the ray loop, with an index as wide as the ray count, computes SubbandGain |
| SpectrumLoss.CalcDoppler | spectrum/model/nyu-spectrum-propagation-loss-model.cc:183-204 | the Doppler loop computes Doppler |
| SpectrumLoss.ApplyGain | spectrum/model/nyu-spectrum-propagation-loss-model.cc:210-227 | the bins are scaled in place to BeamformedPsd of their old values |
| SpectrumLoss.CalcBeamformingGain | spectrum/model/nyu-spectrum-propagation-loss-model.cc:135-228 | the result is a new copy equal to BeamformedPsd, with the Doppler of the angles chosen for the link's direction |
| SpectrumLoss.NYUSpectrumPropagationLossModel.constructor | spectrum/model/nyu-spectrum-propagation-loss-model.cc:45-48 | a new model has an empty long-term cache |
| SpectrumLoss.NYUSpectrumPropagationLossModel.GetLongTerm | spectrum/model/nyu-spectrum-propagation-loss-model.cc:232-295 | the cache entry is recomputed exactly when MustCompute holds; the result is the stored long term, which is CalcLongTerm of the stored matrix and beams |
| SpectrumLoss.NYUSpectrumPropagationLossModel.DoDispose | spectrum/model/nyu-spectrum-propagation-loss-model.cc:56-61 | disposal empties the long-term cache |
| SpectrumLoss.NYUSpectrumPropagationLossModel.DoCalcRxPowerSpectralDensity | spectrum/model/nyu-spectrum-propagation-loss-model.cc:298-330 | a new spectrum of the same size whose bins are BeamformedPsd of the transmitted density, with the long term of the matrix and the pair's beams and the Doppler terms of the link; empty bins stay empty and non-negative bins stay non-negative |

## Left out

- Atmospheric attenuation factor: the ITU gas and rain absorption computation is not part of this model. The factor is an input of `RxPower`.
- `GenerateChannelParameters` and `GetNewChannel` (spectrum/model/nyu-channel-model.cc:680-1014) are not modelled as procedures. Their stages (table lookup, counts, delays, powers, phases, angles, spectrum, combining, filtering, XPD, angle conversion) are each modelled, and `GetChannel` takes the generated rays and channel coefficients as inputs. The complex antenna-field coefficients of `GetNewChannel` depend on the antenna models, which are not part of this model. In that code the lobe spread arguments are passed to `GetSubpathMappingAndAngles` as (azimuth, elevation) into parameters declared (elevation, azimuth); this too is outside the model.
- `sin`, `cos`, `exp`, `log10`, `pow`, `sqrt`, `WrapTo360` and the complex polar form: floating-point functions are passed in as function values. Only the laws the proofs use are assumed of them, as preconditions.
- Random variables: every draw is an explicit parameter, so the distributions themselves are not modelled.
- ConditionModel.InFPlos: the source computes `pow(-d, 0.16)`, which is NaN for d > 0. The model represents NaN as `None`, so the comparison with the reference draw fails and the link is NLOS, as IEEE comparison with NaN does.
- Keys: the source computes the Cantor key in 32-bit (condition and shadowing caches) or 64-bit (channel caches) unsigned arithmetic. The model uses unbounded naturals, so key collisions by wrap-around are not modelled.
- `m_blockage` and the ns-3 attribute system (TypeId, attribute getters), logging and the example programs are not modelled.
- `MatrixBasedChannelModel::ChannelMatrix::IsReverse` and `GetKey` come from ns-3 and are not part of this model. IsReverse is taken as "the stored antenna pair is (b, a)".
- SubpathCombiner.GetBWAdjustedPowerSpectrum: requires a positive bandwidth, because the resolution time divides by it. The bandwidth setter accepts 0.
- SubpathCombiner.GetBWAdjustedPowerSpectrum: the source reads the member bandwidth and ignores its argument. Its only caller passes the member, so the model uses the argument.
- `pow(abs(z), 2)` is modelled as the squared norm of z, without rounding.
- PropagationLoss.LogDistanceLoss, PropagationLoss.GetLossLos, PropagationLoss.GetLossNlos and PropagationLoss.RxPower: at a 2D distance of 0 the source takes `log10(0)`, which is −∞ in IEEE arithmetic, so its path loss is −∞ and its received power +∞. The model applies the supplied `log10` to 0 and yields a finite real, which stands for no value of the source. Their contracts say nothing about distances below 1 m.
- ClusterGeneration.RawSubpathDelays, ClusterGeneration.ClusterSubpathDelays, ClusterGeneration.ClusterSubpathDelaysNormalised, ClusterGeneration.ClusterIntraDelays, ClusterGeneration.AppendClusterDelays and ClusterGeneration.GetIntraClusterDelays: require a non-zero bandwidth outdoors below 100 GHz, the only branch that reads it. There the source divides by the bandwidth. At 0 every raw delay is +∞, and subtracting the minimum leaves NaN, which reals cannot represent. Indoors and from 100 GHz on, a bandwidth of 0 is accepted as in the source.
- ValidSubpaths.Db: `log10(0)` (−∞ in IEEE) is not represented. `Db` is `10·log10` of the power through the supplied function.
- Rays.GetXpdPerSubpath: takes the subpath count as a natural number. The source passes a `size()` converted to double.
- ChannelModel.NYUChannelModel.GetChannel: the channel condition, the generated rays and the new channel coefficients are inputs rather than calls to the condition model and the generator.
- SpectrumLoss.NYUSpectrumPropagationLossModel.DoCalcRxPowerSpectralDensity: takes the channel matrix and parameters returned by the channel model as inputs.
- SpectrumLoss.NYUSpectrumPropagationLossModel.DoCalcRxPowerSpectralDensity: requires that a cached long term of the same generation time belongs to the same matrix. The channel model guarantees this, since it stamps every new matrix of an antenna pair with a later time.
- SpectrumLoss.CalcBeamformingGain: the velocities are passed as node a for the s side and node b for the u side, as the source does, whatever the link direction.
- SpectrumLoss.CalcBeamformingGain: the simulator clock (`Simulator::Now`) and the channel model's frequency are parameters (`slotTime`, `frequency`).
- SpectrumLoss.CalcSubbandGain and SpectrumLoss.CalcDoppler: use an index as wide as the ray count. The 8-bit index of the source is modelled separately (see Findings).

## Findings

| source | as written | input that shows it | evidently intended | confidence | as-written member | corrected member |
|---|---|---|---|---|---|---|
| spectrum/model/nyu-spectrum-propagation-loss-model.cc:218 | the subband-gain loop over rays uses a `uint8_t` index compared with the 16-bit ray count (likewise the Doppler loop at line 183), so the index wraps at 256 | a channel matrix with 256 or more clusters: the loop never ends | an index as wide as the ray count, so that the loop visits each ray once | medium, not executed | SpectrumLoss.Uint8RayLoopNeverEnds | SpectrumLoss.CalcSubbandGain |
