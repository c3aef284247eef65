/**
  The script as a whole: from a given population (swap sizes and volatilities)
  and a multiplier sweep to the six distributions it reports. Generation of the
  population, plotting and printing are outside the model.
 */
module Simulation {
  import opened FeePolicy
  import opened Costs
  import opened Scenarios

  datatype Config = Config(baseFee: real, gasCost: real, elasticity: real, threshold: real)

  /** The script's parameters: a 0.3% pool fee, gas 0.01, exponent -0.5, threshold 1.5. */
  const DefaultConfig: Config := Config(0.003, 0.01, DefaultElasticity, DefaultThreshold)

  datatype Report = Report(
    fees: seq<real>,
    baseTotalCosts: seq<real>,
    hookTotalCosts: seq<real>,
    baseVolumes: seq<real>,
    hookVolumes: seq<real>,
    elasticityResults: seq<seq<real>>,
    migrationResults: seq<seq<real>>)

  /** Every distribution the script computes, with the power term supplied as `pow`. */
  function Simulate(swapSizes: seq<real>, volatilities: seq<real>, feeMultipliers: seq<real>,
                    cfg: Config, pow: (real, real) -> real): (r: Report)
    requires |swapSizes| == |volatilities|
    // one value per trader in each per-trader distribution
    ensures |r.fees| == |r.baseTotalCosts| == |r.hookTotalCosts| == |swapSizes|
    ensures |r.baseVolumes| == |r.hookVolumes| == |swapSizes|
    // the hook's fee and the fixed fee applied to the same trader
    ensures forall i :: 0 <= i < |swapSizes| ==>
              && r.fees[i] == DynamicFee(swapSizes[i], volatilities[i], cfg.baseFee)
              && r.baseTotalCosts[i] == TotalCost(swapSizes[i], cfg.baseFee, cfg.gasCost)
              && r.hookTotalCosts[i] == TotalCost(swapSizes[i], r.fees[i], cfg.gasCost)
    // with a positive base fee, the hook helps large swaps and costs small ones more
    ensures cfg.baseFee > 0.0 ==>
              forall i :: 0 <= i < |swapSizes| && swapSizes[i] >= SmallSwapLimit ==>
                r.hookTotalCosts[i] <= r.baseTotalCosts[i] && r.hookVolumes[i] <= r.baseVolumes[i]
    ensures cfg.baseFee > 0.0 ==>
              forall i :: 0 <= i < |swapSizes| && 0.0 < swapSizes[i] < SmallSwapLimit ==>
                r.hookTotalCosts[i] > r.baseTotalCosts[i] && r.hookVolumes[i] > r.baseVolumes[i]
    // the base and hook volumes, trader by trader
    ensures r.baseVolumes == Scaled(swapSizes, cfg.baseFee)
    ensures r.hookVolumes == Products(swapSizes, r.fees)
    // one per-trader distribution per multiplier, in sweep order
    ensures |r.elasticityResults| == |r.migrationResults| == |feeMultipliers|
    ensures forall k :: 0 <= k < |feeMultipliers| ==>
              |r.elasticityResults[k]| == |r.migrationResults[k]| == |swapSizes|
    ensures r.elasticityResults
            == ElasticitySweep(feeMultipliers, swapSizes, cfg.gasCost, cfg.elasticity, cfg.baseFee, pow)
    ensures r.migrationResults == MigrationSweep(feeMultipliers, swapSizes, cfg.gasCost, cfg.threshold, cfg.baseFee)
    // the unit multiplier reproduces the fixed-fee costs under elasticity
    ensures pow(1.0, cfg.elasticity) == 1.0 ==>
              forall k :: 0 <= k < |feeMultipliers| && feeMultipliers[k] == 1.0 ==>
                r.elasticityResults[k] == r.baseTotalCosts
  {
    var fees := Fees(swapSizes, volatilities, cfg.baseFee);
    var report := Report(
      fees,
      CostsAt(swapSizes, cfg.baseFee, cfg.gasCost),
      CostsWith(swapSizes, fees, cfg.gasCost),
      Scaled(swapSizes, cfg.baseFee),
      Products(swapSizes, fees),
      ElasticitySweep(feeMultipliers, swapSizes, cfg.gasCost, cfg.elasticity, cfg.baseFee, pow),
      MigrationSweep(feeMultipliers, swapSizes, cfg.gasCost, cfg.threshold, cfg.baseFee));
    assert cfg.baseFee > 0.0 ==>
             forall i :: 0 <= i < |swapSizes| && swapSizes[i] >= SmallSwapLimit ==>
               report.hookTotalCosts[i] <= report.baseTotalCosts[i] && report.hookVolumes[i] <= report.baseVolumes[i]
    by {
      if cfg.baseFee > 0.0 {
        HookCostsVersusBaseCosts(swapSizes, volatilities, cfg.baseFee, cfg.gasCost);
      }
    }
    assert cfg.baseFee > 0.0 ==>
             forall i :: 0 <= i < |swapSizes| && 0.0 < swapSizes[i] < SmallSwapLimit ==>
               report.hookTotalCosts[i] > report.baseTotalCosts[i] && report.hookVolumes[i] > report.baseVolumes[i]
    by {
      if cfg.baseFee > 0.0 {
        HookCostsVersusBaseCosts(swapSizes, volatilities, cfg.baseFee, cfg.gasCost);
      }
    }
    assert pow(1.0, cfg.elasticity) == 1.0 ==>
             forall k :: 0 <= k < |feeMultipliers| && feeMultipliers[k] == 1.0 ==>
               report.elasticityResults[k] == report.baseTotalCosts
    by {
      if pow(1.0, cfg.elasticity) == 1.0 {
        ElasticityNeutralAtUnitMultiplier(swapSizes, cfg.gasCost, cfg.elasticity, cfg.baseFee, pow);
      }
    }
    report
  }

  /** In the script's migration results, the volume kept is whole up to the threshold and half beyond it. */
  lemma SimulatedMigration(swapSizes: seq<real>, volatilities: seq<real>, feeMultipliers: seq<real>,
                           cfg: Config, pow: (real, real) -> real)
    requires |swapSizes| == |volatilities|
    ensures var r := Simulate(swapSizes, volatilities, feeMultipliers, cfg, pow);
            forall k, i :: 0 <= k < |feeMultipliers| && 0 <= i < |swapSizes| ==>
              r.migrationResults[k][i]
              == TotalCost(if feeMultipliers[k] > cfg.threshold then swapSizes[i] / 2.0 else swapSizes[i],
                           cfg.baseFee * feeMultipliers[k], cfg.gasCost)
  {
    MigrationSweepAsTotalCost(feeMultipliers, swapSizes, cfg.gasCost, cfg.threshold, cfg.baseFee);
  }
}
