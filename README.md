# Uniswap v4 hook fee simulation: a Dafny model of its economic rules

The repository is one Python script, `Hooks_simulated_Uni_v4.py`. It simulates
how a Uniswap v4 "hook" that changes the pool fee per swap affects what traders
pay, compared with a fixed fee. Given a population of traders, each with a swap
size and a market-volatility reading, it computes:

- the hook's fee for each trader (`dynamic_fee`). This is an ordered rule and
  the first case that matches wins. A swap below 10 pays twice the base fee.
  Otherwise, volatility above 0.05 earns half the base fee. Otherwise the trader
  pays the base fee.
- each trader's total cost, `swap * fee + gas` (`total_cost`). It is computed
  once at the fixed base fee and once at the hook's fee, along with the fee
  "volumes" `swap * fee`.
- a demand-elasticity scenario (`demand_elasticity`). Each swap is scaled by
  `multiplier ** elasticity` and then charged `base_fee * multiplier` plus gas.
- a liquidity-migration scenario (`liquidity_migration`). Each swap keeps all of
  its volume when the multiplier is at most the threshold, and half of it when
  the multiplier is above. It is then charged `base_fee * multiplier` plus gas.
- the two scenarios once per multiplier of a sweep.

The model is pure, like the script: functions over `real` and `seq<real>`, with
lemmas. Dafny's `real` is exact, so the model has no floating-point rounding.
The script reads `base_fee` and, in `liquidity_migration`, `swap_sizes` from
module-level variables. The model passes both as parameters. The script's values
appear as constants: `Simulation.DefaultConfig`, `Scenarios.DefaultElasticity`,
`Scenarios.DefaultThreshold` and `Scenarios.DefaultMultipliers`.

Dafny cannot evaluate a real power with a fractional exponent. So
`fee_multiplier ** elasticity` is a parameter `pow: (real, real) -> real`, and a
lemma that needs a property of the power states it as a precondition. For
example, `pow(1, e) == 1` is needed for the neutral-multiplier property, and
"a positive square root of one half" for the worked case at multiplier 2.

Files:

- `FeePolicy.dfy`: the fee hook. It also has an explicit first-match-wins rule
  table (`FirstMatch`, `HookRules`) as an independent reference definition, and
  a proof that the hook equals that table.
- `Costs.dfy`: the cost formula, the per-trader passes, and the hook-versus-base
  comparisons.
- `Scenarios.dfy`: elasticity, migration, the sweeps and their properties.
- `Simulation.dfy`: the script's pipeline, from a population and a sweep to all
  the distributions it reports.

## Model

| member | source | states |
|---|---|---|
| `FeePolicy.DynamicFee` | Hooks_simulated_Uni_v4.py:14-21 | the fee is always one of 2×base, base/2 or base; with a positive base fee it is positive and lies between base/2 and 2×base |
| `FeePolicy.SmallSwapPenaltyWins` | Hooks_simulated_Uni_v4.py:16-17 | a swap below 10 pays exactly 2×base whatever the volatility, and so never the reward rate base/2 (for a non-zero base fee): the penalty takes precedence |
| `FeePolicy.LargeSwapFee` | Hooks_simulated_Uni_v4.py:18-21 | for a swap of at least 10 the fee is base/2 when volatility is above 0.05, and base when it is at most 0.05 |
| `FeePolicy.FeeScenarios` | Hooks_simulated_Uni_v4.py:14-21 | with base fee 0.003: (5, 0.08) gives 0.006, (20, 0.08) gives 0.0015, and (20, 0.02) gives 0.003 |
| `FeePolicy.FirstMatch` | Hooks_simulated_Uni_v4.py:16-21 | the if/elif chain as an ordered rule table: the result is None exactly when no rule holds; otherwise it is the rate of a rule that holds, and no earlier rule holds |
| `FeePolicy.DynamicFeeIsFirstMatch` | Hooks_simulated_Uni_v4.py:16-21 | for every input, the hook's fee equals the first match in the table [small swap → 2×, high volatility → ½×, otherwise → 1×] |
| `FeePolicy.RuleOrderMatters` | Hooks_simulated_Uni_v4.py:16-19 | with the reward rule tried before the penalty, the swap (5, 0.08) would get a different fee, so the order of the chain matters |
| `Costs.TotalCost` | Hooks_simulated_Uni_v4.py:29-31 | the total cost equals the gas cost when the swap or the fee is zero, and is strictly above the gas cost when both are positive: the pool fee is charged on top of gas |
| `Costs.TotalCostIncreasingInFee` | Hooks_simulated_Uni_v4.py:29-31 | for a positive swap, total cost is strictly increasing in the fee rate |
| `Costs.TotalCostIncreasingInGas` | Hooks_simulated_Uni_v4.py:29-31 | total cost is strictly increasing in the gas cost |
| `Costs.Fees` | Hooks_simulated_Uni_v4.py:27 | one fee per trader, and fee i is the hook's fee for trader i's size and volatility |
| `Costs.CostsAt` | Hooks_simulated_Uni_v4.py:34 | one cost per trader, and cost i is the total cost of swap i at the one shared fee |
| `Costs.CostsWith` | Hooks_simulated_Uni_v4.py:35 | one cost per trader, and cost i is the total cost of swap i at fee i |
| `Costs.Scaled` | Hooks_simulated_Uni_v4.py:38 | the base volumes: same length, and element i is swap i times the scalar |
| `Costs.Products` | Hooks_simulated_Uni_v4.py:39 | the hook volumes: same length, and element i is swap i times fee i |
| `Costs.HookVersusBase` | Hooks_simulated_Uni_v4.py:16-21 | for one trader with a positive base fee: a swap of at least 10 pays no more with the hook, and strictly less when volatility is above 0.05; a swap in (0, 10) pays strictly more. This holds for both the total cost and the volume |
| `Costs.HookCostsVersusBaseCosts` | Hooks_simulated_Uni_v4.py:27-39 | over the whole population: the hook's cost and volume are at most the base ones for every trader with size ≥ 10, and strictly greater for every trader with 0 < size < 10 |
| `Scenarios.DemandElasticity` | Hooks_simulated_Uni_v4.py:60-65 | one cost per trader: the cost formula evaluated at the adjusted swap, swap × pow(multiplier, elasticity), and at the fee base × multiplier |
| `Scenarios.ElasticityNeutralAtUnitMultiplier` | Hooks_simulated_Uni_v4.py:63-64 | when pow(1, e) = 1, the elasticity costs at multiplier 1 are exactly the fixed-fee costs of the population |
| `Scenarios.ElasticityScenario` | Hooks_simulated_Uni_v4.py:63-64 | for swap 100, multiplier 2, exponent -0.5, base 0.003 and gas 0.01, with the power a positive square root of ½: the cost c satisfies (c - 0.01)² = 0.18 and 0.4342 < c < 0.4344 |
| `Scenarios.RetainedFraction` | Hooks_simulated_Uni_v4.py:92 | the retained share is either 1 or 0.5, and it is 1 exactly when the multiplier is at most the threshold |
| `Scenarios.LiquidityMigration` | Hooks_simulated_Uni_v4.py:90-95 | one cost per trader: up to the threshold, the cost formula at the full swap and fee base × multiplier; above it, the same formula at half of the swap |
| `Scenarios.MigrationScenario` | Hooks_simulated_Uni_v4.py:92-94 | swap 100, multiplier 2, threshold 1.5, base 0.003 and gas 0.01 give exactly [0.31] |
| `Scenarios.MigrationIncreasingOffThreshold` | Hooks_simulated_Uni_v4.py:92-94 | for two multipliers on the same side of the threshold, the larger one costs every positive swap strictly more |
| `Scenarios.MigrationDropsPastThreshold` | Hooks_simulated_Uni_v4.py:92 | the step is a discontinuity: for any multiplier strictly between the threshold and twice the threshold, every positive swap costs strictly less than at the threshold |
| `Scenarios.ElasticitySweep` | Hooks_simulated_Uni_v4.py:69 | one result per multiplier, in sweep order: result k is the elasticity cost sequence at multiplier k and has the population's length |
| `Scenarios.MigrationSweep` | Hooks_simulated_Uni_v4.py:98 | one result per multiplier, in sweep order: result k is the migration cost sequence at multiplier k and has the population's length |
| `Scenarios.MigrationSweepAsTotalCost` | Hooks_simulated_Uni_v4.py:98 | in every sweep result k, trader i pays the total cost of the whole swap (multiplier ≤ threshold) or half of it (multiplier > threshold) at fee base × multiplier k |
| `Scenarios.DefaultSweepMigration` | Hooks_simulated_Uni_v4.py:68 | on the script's sweep 0.5, 0.875, 1.25, 1.625, 2.0 with threshold 1.5, the first three scenarios keep the whole volume and the last two keep half |
| `Simulation.Simulate` | Hooks_simulated_Uni_v4.py:24-98 | every per-trader distribution has the population's length; fee i, base cost i, hook cost i, base volume i and hook volume i are each computed from trader i alone; with a positive base fee, the hook cost and volume are ≤ base for size ≥ 10 and > base for 0 < size < 10; the elasticity and migration results are the two sweeps over the given multipliers, one result per multiplier, each of the population's length; when pow(1, e) = 1, a multiplier of 1 in the sweep reproduces the base costs |
| `Simulation.SimulatedMigration` | Hooks_simulated_Uni_v4.py:90-98 | in the script's migration results, trader i at multiplier k pays the total cost of its whole swap up to the threshold, or of half of it beyond, at fee base × multiplier k |

## Left out

- Random generation of the population is not modelled: the seed (line 7), the exponential swap sizes (line 9) and the uniform volatilities (line 24). Sizes and volatilities are input sequences of any common length. The fixed count of 10000 traders is not modelled either.
- `np.linspace` (line 68) is not computed. The sweep is an input sequence, and `Scenarios.DefaultMultipliers` holds the five values it yields.
- Plotting (lines 42-49, 72-79, 101-108), printing and the `np.mean` summaries (lines 52-54, 82-84, 111-113) are left out. They are output only and make no decisions.
- IEEE floating point is not modelled. Dafny `real` is exact. For example, the migration case gives exactly 0.31, where floating point may give a value that differs in the last digits.
- The value of `fee_multiplier ** elasticity` (line 63) is not computed. It is the parameter `pow`, so no lemma depends on any value of the power except those it states as preconditions.
- `Scenarios.DemandElasticity`: numpy returns NaN for a negative multiplier with a fractional exponent, and inf for a zero multiplier with a negative exponent. The model does not capture this: `pow` is a total function returning a real.
- The script has no input validation: no guard on non-positive sizes, fees or multipliers, and no volatility range check. The model follows the code and invents no error cases. Positivity appears only as a precondition of the lemmas that need it. The model adds no validation beyond those preconditions.
