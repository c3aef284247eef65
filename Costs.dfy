/**
  The cost aggregator and the per-trader passes over the population.
  A population is given as two parallel sequences, swap sizes and
  volatilities; element i of every derived sequence depends on trader i alone.
 */
module Costs {
  import opened FeePolicy

  /** Total cost of one transaction: the pool fee on the swap plus gas. */
  function TotalCost(swapSize: real, fee: real, gasCost: real): (cost: real)
    ensures fee == 0.0 || swapSize == 0.0 ==> cost == gasCost
    ensures swapSize > 0.0 && fee > 0.0 ==> cost > gasCost
  {
    swapSize * fee + gasCost
  }

  /** For a positive swap a higher fee rate costs strictly more. */
  lemma TotalCostIncreasingInFee(swapSize: real, fee1: real, fee2: real, gasCost: real)
    requires swapSize > 0.0 && fee1 < fee2
    ensures TotalCost(swapSize, fee1, gasCost) < TotalCost(swapSize, fee2, gasCost)
  {
  }

  /** A higher gas cost costs strictly more, whatever the swap and the fee. */
  lemma TotalCostIncreasingInGas(swapSize: real, fee: real, gas1: real, gas2: real)
    requires gas1 < gas2
    ensures TotalCost(swapSize, fee, gas1) < TotalCost(swapSize, fee, gas2)
  {
  }

  /** The hook's fee rate for every trader. */
  function Fees(swapSizes: seq<real>, volatilities: seq<real>, baseFee: real): (fees: seq<real>)
    requires |swapSizes| == |volatilities|
    ensures |fees| == |swapSizes|
    ensures forall i :: 0 <= i < |fees| ==> fees[i] == DynamicFee(swapSizes[i], volatilities[i], baseFee)
  {
    if |swapSizes| == 0 then []
    else [DynamicFee(swapSizes[0], volatilities[0], baseFee)] + Fees(swapSizes[1..], volatilities[1..], baseFee)
  }

  /** Every trader's total cost at one fee rate shared by all. */
  function CostsAt(swapSizes: seq<real>, fee: real, gasCost: real): (costs: seq<real>)
    ensures |costs| == |swapSizes|
    ensures forall i :: 0 <= i < |costs| ==> costs[i] == TotalCost(swapSizes[i], fee, gasCost)
  {
    if |swapSizes| == 0 then []
    else [TotalCost(swapSizes[0], fee, gasCost)] + CostsAt(swapSizes[1..], fee, gasCost)
  }

  /** Every trader's total cost at that trader's own fee rate. */
  function CostsWith(swapSizes: seq<real>, fees: seq<real>, gasCost: real): (costs: seq<real>)
    requires |fees| == |swapSizes|
    ensures |costs| == |swapSizes|
    ensures forall i :: 0 <= i < |costs| ==> costs[i] == TotalCost(swapSizes[i], fees[i], gasCost)
  {
    if |swapSizes| == 0 then []
    else [TotalCost(swapSizes[0], fees[0], gasCost)] + CostsWith(swapSizes[1..], fees[1..], gasCost)
  }

  /** Every swap size multiplied by one scalar (numpy's array-times-scalar). */
  function Scaled(values: seq<real>, factor: real): (r: seq<real>)
    ensures |r| == |values|
    ensures forall i :: 0 <= i < |r| ==> r[i] == values[i] * factor
  {
    if |values| == 0 then [] else [values[0] * factor] + Scaled(values[1..], factor)
  }

  /** Element-wise product of two sequences of one length (numpy's array-times-array). */
  function Products(values: seq<real>, factors: seq<real>): (r: seq<real>)
    requires |factors| == |values|
    ensures |r| == |values|
    ensures forall i :: 0 <= i < |r| ==> r[i] == values[i] * factors[i]
  {
    if |values| == 0 then [] else [values[0] * factors[0]] + Products(values[1..], factors[1..])
  }

  /**
    One trader compared under the hook and under the fixed base fee: a swap of
    at least the small-swap limit never pays more with the hook (strictly less
    in a volatile market), and a positive swap below the limit pays strictly more.
    The volume swapSize * fee obeys the same ordering.
   */
  lemma HookVersusBase(swapSize: real, volatility: real, baseFee: real, gasCost: real)
    requires baseFee > 0.0
    ensures var fee := DynamicFee(swapSize, volatility, baseFee);
            && (swapSize >= SmallSwapLimit ==>
                  swapSize * fee <= swapSize * baseFee
                  && TotalCost(swapSize, fee, gasCost) <= TotalCost(swapSize, baseFee, gasCost))
            && (swapSize >= SmallSwapLimit && volatility > VolatilityLimit ==>
                  swapSize * fee < swapSize * baseFee
                  && TotalCost(swapSize, fee, gasCost) < TotalCost(swapSize, baseFee, gasCost))
            && (0.0 < swapSize < SmallSwapLimit ==>
                  swapSize * fee > swapSize * baseFee
                  && TotalCost(swapSize, fee, gasCost) > TotalCost(swapSize, baseFee, gasCost))
  {
  }

  /**
    The script's two cost sequences and two volume sequences compared trader by
    trader: with the hook, large swaps cost no more and small positive swaps
    cost strictly more than at the base fee.
   */
  lemma {:induction false} HookCostsVersusBaseCosts(swapSizes: seq<real>, volatilities: seq<real>, baseFee: real, gasCost: real)
    requires |swapSizes| == |volatilities|
    requires baseFee > 0.0
    ensures var fees := Fees(swapSizes, volatilities, baseFee);
            var baseCosts := CostsAt(swapSizes, baseFee, gasCost);
            var hookCosts := CostsWith(swapSizes, fees, gasCost);
            var baseVolumes := Scaled(swapSizes, baseFee);
            var hookVolumes := Products(swapSizes, fees);
            && (forall i :: 0 <= i < |swapSizes| && swapSizes[i] >= SmallSwapLimit ==>
                  hookCosts[i] <= baseCosts[i] && hookVolumes[i] <= baseVolumes[i])
            && (forall i :: 0 <= i < |swapSizes| && 0.0 < swapSizes[i] < SmallSwapLimit ==>
                  hookCosts[i] > baseCosts[i] && hookVolumes[i] > baseVolumes[i])
  {
    var fees := Fees(swapSizes, volatilities, baseFee);
    var baseCosts := CostsAt(swapSizes, baseFee, gasCost);
    var hookCosts := CostsWith(swapSizes, fees, gasCost);
    var baseVolumes := Scaled(swapSizes, baseFee);
    var hookVolumes := Products(swapSizes, fees);
    forall i | 0 <= i < |swapSizes|
      ensures swapSizes[i] >= SmallSwapLimit ==> hookCosts[i] <= baseCosts[i] && hookVolumes[i] <= baseVolumes[i]
      ensures 0.0 < swapSizes[i] < SmallSwapLimit ==> hookCosts[i] > baseCosts[i] && hookVolumes[i] > baseVolumes[i]
    {
      HookVersusBase(swapSizes[i], volatilities[i], baseFee, gasCost);
    }
  }
}
