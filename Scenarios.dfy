/**
  The two fee-multiplier scenarios: demand elasticity (volume responds to the
  fee through a power law) and liquidity migration (half of the volume leaves
  once the multiplier passes a threshold). Each recomputes every trader's cost
  at the scaled fee base fee * multiplier, and each is applied once per
  multiplier of a sweep.

  The power `feeMultiplier ** elasticity` is a real power with a fractional
  exponent, which Dafny cannot compute; it is a parameter `pow` of the model,
  and the lemmas state what they need of it (1 ** e == 1).
 */
module Scenarios {
  import opened Costs

  /** Default elasticity exponent of the demand curve. */
  const DefaultElasticity: real := -0.5
  /** Default multiplier above which liquidity migrates. */
  const DefaultThreshold: real := 1.5

  /** The sweep the script uses: the five evenly spaced values from 0.5 to 2.0. */
  const DefaultMultipliers: seq<real> := [0.5, 0.875, 1.25, 1.625, 2.0]

  /**
    Costs under demand elasticity: each swap is scaled by
    pow(feeMultiplier, elasticity), then charged the fee baseFee * feeMultiplier plus gas.
   */
  function DemandElasticity(feeMultiplier: real, swapSizes: seq<real>, gasCost: real, elasticity: real,
                            baseFee: real, pow: (real, real) -> real): (costs: seq<real>)
    ensures |costs| == |swapSizes|
    ensures forall i :: 0 <= i < |costs| ==>
              costs[i] == TotalCost(swapSizes[i] * pow(feeMultiplier, elasticity), baseFee * feeMultiplier, gasCost)
  {
    var adjustedSwaps := Scaled(swapSizes, pow(feeMultiplier, elasticity));
    CostsAt(adjustedSwaps, baseFee * feeMultiplier, gasCost)
  }

  /**
    At multiplier 1 the elasticity adjustment is neutral: the costs are the
    fixed-fee costs of the population, trader by trader.
   */
  lemma ElasticityNeutralAtUnitMultiplier(swapSizes: seq<real>, gasCost: real, elasticity: real,
                                          baseFee: real, pow: (real, real) -> real)
    requires pow(1.0, elasticity) == 1.0
    ensures DemandElasticity(1.0, swapSizes, gasCost, elasticity, baseFee, pow) == CostsAt(swapSizes, baseFee, gasCost)
  {
  }

  /**
    The worked elasticity case: a swap of 100 at multiplier 2 with exponent
    -0.5, base fee 0.3% and gas 0.01. Whatever real square root of one half the
    power returns, the adjusted cost c satisfies (c - 0.01)^2 == 0.18, that is,
    c == 0.01 + 0.6 / sqrt(2), which lies strictly between 0.4342 and 0.4344.
   */
  lemma ElasticityScenario(pow: (real, real) -> real)
    requires pow(2.0, -0.5) > 0.0 && pow(2.0, -0.5) * pow(2.0, -0.5) == 0.5
    ensures var c := DemandElasticity(2.0, [100.0], 0.01, -0.5, 0.003, pow)[0];
            (c - 0.01) * (c - 0.01) == 0.18 && 0.4342 < c < 0.4344
  {
    var f := pow(2.0, -0.5);
    var c := DemandElasticity(2.0, [100.0], 0.01, -0.5, 0.003, pow)[0];
    assert c == 0.6 * f + 0.01;
    assert (c - 0.01) * (c - 0.01) == 0.36 * (f * f);
    assert f * f == 0.5;
    // 0.707 < f < 0.7073, because 0.707^2 < 1/2 < 0.7073^2
    var below, above := f - 0.707, 0.7073 - f;
    var sumLow, sumHigh := f + 0.707, 0.7073 + f;
    assert below * sumLow == f * f - 0.499849;
    assert above * sumHigh == 0.50027329 - f * f;
    PositiveFactor(below, sumLow);
    PositiveFactor(above, sumHigh);
  }

  /** A factor of a positive product whose other factor is positive is positive. */
  lemma PositiveFactor(a: real, b: real)
    requires b > 0.0 && a * b > 0.0
    ensures a > 0.0
  {
  }

  /** The share of volume that stays in the pool: a step at the threshold. */
  function RetainedFraction(feeMultiplier: real, threshold: real): (kept: real)
    ensures kept == 0.5 || kept == 1.0
    ensures kept == 1.0 <==> feeMultiplier <= threshold
  {
    if feeMultiplier > threshold then 0.5 else 1.0
  }

  /**
    Costs under liquidity migration: at or below the threshold every swap is
    kept whole, above it every swap is halved; either way the fee is
    baseFee * feeMultiplier plus gas.
   */
  function LiquidityMigration(feeMultiplier: real, swapSizes: seq<real>, gasCost: real, threshold: real,
                              baseFee: real): (costs: seq<real>)
    ensures |costs| == |swapSizes|
    ensures feeMultiplier <= threshold ==>
              forall i :: 0 <= i < |costs| ==> costs[i] == TotalCost(swapSizes[i], baseFee * feeMultiplier, gasCost)
    ensures feeMultiplier > threshold ==>
              forall i :: 0 <= i < |costs| ==> costs[i] == TotalCost(swapSizes[i] / 2.0, baseFee * feeMultiplier, gasCost)
  {
    var adjustedSwaps := Scaled(swapSizes, RetainedFraction(feeMultiplier, threshold));
    CostsAt(adjustedSwaps, baseFee * feeMultiplier, gasCost)
  }

  /** The worked migration case: a swap of 100 at multiplier 2 over threshold 1.5 keeps 50 and costs 0.31. */
  lemma MigrationScenario()
    ensures LiquidityMigration(2.0, [100.0], 0.01, 1.5, 0.003) == [0.31]
  {
  }

  /**
    Within either side of the threshold a higher multiplier costs every
    positive swap strictly more.
   */
  lemma MigrationIncreasingOffThreshold(fm1: real, fm2: real, swapSizes: seq<real>, gasCost: real,
                                        threshold: real, baseFee: real)
    requires fm1 < fm2
    requires fm2 <= threshold || threshold < fm1
    requires baseFee > 0.0
    ensures var c1 := LiquidityMigration(fm1, swapSizes, gasCost, threshold, baseFee);
            var c2 := LiquidityMigration(fm2, swapSizes, gasCost, threshold, baseFee);
            forall i :: 0 <= i < |swapSizes| && swapSizes[i] > 0.0 ==> c1[i] < c2[i]
  {
    forall i | 0 <= i < |swapSizes| && swapSizes[i] > 0.0
      ensures LiquidityMigration(fm1, swapSizes, gasCost, threshold, baseFee)[i]
              < LiquidityMigration(fm2, swapSizes, gasCost, threshold, baseFee)[i]
    {
      MigrationTraderIncreasing(fm1, fm2, swapSizes, gasCost, threshold, baseFee, i);
    }
  }

  /** Trader i's share of MigrationIncreasingOffThreshold. */
  lemma MigrationTraderIncreasing(fm1: real, fm2: real, swapSizes: seq<real>, gasCost: real,
                                  threshold: real, baseFee: real, i: int)
    requires fm1 < fm2
    requires fm2 <= threshold || threshold < fm1
    requires baseFee > 0.0
    requires 0 <= i < |swapSizes| && swapSizes[i] > 0.0
    ensures LiquidityMigration(fm1, swapSizes, gasCost, threshold, baseFee)[i]
            < LiquidityMigration(fm2, swapSizes, gasCost, threshold, baseFee)[i]
  {
    var c1 := LiquidityMigration(fm1, swapSizes, gasCost, threshold, baseFee);
    var c2 := LiquidityMigration(fm2, swapSizes, gasCost, threshold, baseFee);
    var kept := if fm1 > threshold then swapSizes[i] / 2.0 else swapSizes[i];
    assert c1[i] == TotalCost(kept, baseFee * fm1, gasCost);
    assert c2[i] == TotalCost(kept, baseFee * fm2, gasCost);
    ScaledFeeCostsMore(kept, baseFee, fm1, fm2, gasCost);
  }

  /** A positive swap costs strictly more at a higher multiplier of a positive base fee. */
  lemma ScaledFeeCostsMore(swapSize: real, baseFee: real, fm1: real, fm2: real, gasCost: real)
    requires swapSize > 0.0 && baseFee > 0.0 && fm1 < fm2
    ensures TotalCost(swapSize, baseFee * fm1, gasCost) < TotalCost(swapSize, baseFee * fm2, gasCost)
  {
    StrictlyIncreasingProduct(baseFee, fm1, fm2);
    TotalCostIncreasingInFee(swapSize, baseFee * fm1, baseFee * fm2, gasCost);
  }

  /** Multiplying by a positive real keeps a strict order. */
  lemma StrictlyIncreasingProduct(v: real, x: real, y: real)
    requires v > 0.0 && x < y
    ensures v * x < v * y
  {
  }

  /**
    The step is a discontinuity: just past the threshold (below twice the
    threshold) every positive swap costs strictly less than at the threshold,
    because half of the volume has left.
   */
  lemma MigrationDropsPastThreshold(feeMultiplier: real, swapSizes: seq<real>, gasCost: real,
                                    threshold: real, baseFee: real)
    requires threshold < feeMultiplier < 2.0 * threshold
    requires baseFee > 0.0
    ensures var atThreshold := LiquidityMigration(threshold, swapSizes, gasCost, threshold, baseFee);
            var past := LiquidityMigration(feeMultiplier, swapSizes, gasCost, threshold, baseFee);
            forall i :: 0 <= i < |swapSizes| && swapSizes[i] > 0.0 ==> past[i] < atThreshold[i]
  {
    var atThreshold := LiquidityMigration(threshold, swapSizes, gasCost, threshold, baseFee);
    var past := LiquidityMigration(feeMultiplier, swapSizes, gasCost, threshold, baseFee);
    forall i | 0 <= i < |swapSizes| && swapSizes[i] > 0.0 ensures past[i] < atThreshold[i] {
      HalfVolumeCostsLess(swapSizes[i], baseFee, threshold, feeMultiplier, gasCost);
    }
  }

  /** Half of a positive swap at a multiplier below twice m costs less than the whole swap at m. */
  lemma HalfVolumeCostsLess(swapSize: real, baseFee: real, m: real, feeMultiplier: real, gasCost: real)
    requires swapSize > 0.0 && baseFee > 0.0 && feeMultiplier < 2.0 * m
    ensures TotalCost(swapSize / 2.0, baseFee * feeMultiplier, gasCost) < TotalCost(swapSize, baseFee * m, gasCost)
  {
    var v := swapSize * baseFee;
    StrictlyIncreasingProduct(swapSize, 0.0, baseFee);
    assert TotalCost(swapSize / 2.0, baseFee * feeMultiplier, gasCost) == v * (feeMultiplier / 2.0) + gasCost;
    assert TotalCost(swapSize, baseFee * m, gasCost) == v * m + gasCost;
    StrictlyIncreasingProduct(v, feeMultiplier / 2.0, m);
  }

  /** One elasticity cost sequence per multiplier, in sweep order. */
  function ElasticitySweep(feeMultipliers: seq<real>, swapSizes: seq<real>, gasCost: real, elasticity: real,
                           baseFee: real, pow: (real, real) -> real): (results: seq<seq<real>>)
    ensures |results| == |feeMultipliers|
    ensures forall k :: 0 <= k < |results| ==>
              results[k] == DemandElasticity(feeMultipliers[k], swapSizes, gasCost, elasticity, baseFee, pow)
              && |results[k]| == |swapSizes|
  {
    if |feeMultipliers| == 0 then []
    else [DemandElasticity(feeMultipliers[0], swapSizes, gasCost, elasticity, baseFee, pow)]
         + ElasticitySweep(feeMultipliers[1..], swapSizes, gasCost, elasticity, baseFee, pow)
  }

  /** One migration cost sequence per multiplier, in sweep order. */
  function MigrationSweep(feeMultipliers: seq<real>, swapSizes: seq<real>, gasCost: real, threshold: real,
                          baseFee: real): (results: seq<seq<real>>)
    ensures |results| == |feeMultipliers|
    ensures forall k :: 0 <= k < |results| ==>
              results[k] == LiquidityMigration(feeMultipliers[k], swapSizes, gasCost, threshold, baseFee)
              && |results[k]| == |swapSizes|
  {
    if |feeMultipliers| == 0 then []
    else [LiquidityMigration(feeMultipliers[0], swapSizes, gasCost, threshold, baseFee)]
         + MigrationSweep(feeMultipliers[1..], swapSizes, gasCost, threshold, baseFee)
  }

  /** Every migration result of a sweep is the total cost of the volume kept, at the scaled fee. */
  lemma MigrationSweepAsTotalCost(feeMultipliers: seq<real>, swapSizes: seq<real>, gasCost: real,
                                  threshold: real, baseFee: real)
    ensures var results := MigrationSweep(feeMultipliers, swapSizes, gasCost, threshold, baseFee);
            forall k, i :: 0 <= k < |feeMultipliers| && 0 <= i < |swapSizes| ==>
              results[k][i]
              == TotalCost(if feeMultipliers[k] > threshold then swapSizes[i] / 2.0 else swapSizes[i],
                           baseFee * feeMultipliers[k], gasCost)
  {
  }

  /**
    On the default sweep with the default threshold, the first three scenarios
    keep all of the volume and the last two (1.625 and 2.0) keep half of it.
   */
  lemma DefaultSweepMigration(swapSizes: seq<real>, gasCost: real, baseFee: real)
    ensures var results := MigrationSweep(DefaultMultipliers, swapSizes, gasCost, DefaultThreshold, baseFee);
            && |results| == 5
            && (forall k, i :: 0 <= k < 3 && 0 <= i < |swapSizes| ==>
                  results[k][i] == TotalCost(swapSizes[i], baseFee * DefaultMultipliers[k], gasCost))
            && (forall k, i :: 3 <= k < 5 && 0 <= i < |swapSizes| ==>
                  results[k][i] == TotalCost(swapSizes[i] / 2.0, baseFee * DefaultMultipliers[k], gasCost))
  {
  }
}
