/**
  The dynamic fee hook: one trader's swap size and the market volatility it
  sees decide the fee rate it pays, relative to the pool's base fee.
  The rule is ordered and the first matching case wins, so a small swap pays
  the penalty rate even when volatility would have earned it the reward.
 */
module FeePolicy {

  datatype Option<T> = None | Some(value: T)

  /** Swaps strictly below this size pay the small-swap penalty. */
  const SmallSwapLimit: real := 10.0
  /** Volatility strictly above this level earns the volatility reward. */
  const VolatilityLimit: real := 0.05

  /** Multipliers of the base fee for the three outcomes of the hook. */
  const PenaltyFactor: real := 2.0
  const RewardFactor: real := 0.5

  /** The hook's fee for one swap. */
  function DynamicFee(swapSize: real, volatility: real, baseFee: real): (fee: real)
    ensures fee == baseFee * PenaltyFactor || fee == baseFee * RewardFactor || fee == baseFee
    ensures baseFee > 0.0 ==> fee > 0.0
    ensures baseFee > 0.0 ==> baseFee * RewardFactor <= fee <= baseFee * PenaltyFactor
  {
    if swapSize < SmallSwapLimit then
      baseFee * PenaltyFactor
    else if volatility > VolatilityLimit then
      baseFee * RewardFactor
    else
      baseFee
  }

  /** A small swap pays the penalty rate whatever the volatility. */
  lemma SmallSwapPenaltyWins(swapSize: real, volatility: real, baseFee: real)
    requires swapSize < SmallSwapLimit
    ensures DynamicFee(swapSize, volatility, baseFee) == 2.0 * baseFee
    ensures baseFee != 0.0 ==> DynamicFee(swapSize, volatility, baseFee) != 0.5 * baseFee
  {
  }

  /** A swap of at least the limit earns the reward exactly when volatility is above its limit. */
  lemma LargeSwapFee(swapSize: real, volatility: real, baseFee: real)
    requires swapSize >= SmallSwapLimit
    ensures volatility > VolatilityLimit ==> DynamicFee(swapSize, volatility, baseFee) == 0.5 * baseFee
    ensures volatility <= VolatilityLimit ==> DynamicFee(swapSize, volatility, baseFee) == baseFee
  {
  }

  /** The three worked cases with a base fee of 0.3%. */
  lemma FeeScenarios()
    ensures DynamicFee(5.0, 0.08, 0.003) == 0.006
    ensures DynamicFee(20.0, 0.08, 0.003) == 0.0015
    ensures DynamicFee(20.0, 0.02, 0.003) == 0.003
  {
  }

  // ---------------------------------------------------------------------
  // The same hook written as an explicit table of (condition, rate) rules
  // evaluated first-match-wins. It is an independent reference definition:
  // DynamicFeeIsFirstMatch proves the hook is exactly this table.
  // ---------------------------------------------------------------------

  datatype Condition = SmallSwap | HighVolatility | Always

  datatype FeeRule = FeeRule(when: Condition, factor: real)

  predicate Holds(c: Condition, swapSize: real, volatility: real) {
    match c
    case SmallSwap => swapSize < SmallSwapLimit
    case HighVolatility => volatility > VolatilityLimit
    case Always => true
  }

  /** The fee of the first rule whose condition holds, or None when none does. */
  function FirstMatch(rules: seq<FeeRule>, swapSize: real, volatility: real, baseFee: real): (r: Option<real>)
    ensures r.None? <==> forall k :: 0 <= k < |rules| ==> !Holds(rules[k].when, swapSize, volatility)
    ensures r.Some? ==> exists k :: 0 <= k < |rules| && Holds(rules[k].when, swapSize, volatility)
                                     && r.value == baseFee * rules[k].factor
                                     && forall j :: 0 <= j < k ==> !Holds(rules[j].when, swapSize, volatility)
  {
    if |rules| == 0 then
      None
    else if Holds(rules[0].when, swapSize, volatility) then
      Some(baseFee * rules[0].factor)
    else
      var rest := FirstMatch(rules[1..], swapSize, volatility, baseFee);
      assert forall k :: 1 <= k < |rules| ==> rules[k] == rules[1..][k - 1];
      rest
  }

  /** The hook's rules in the order the hook tries them. */
  const HookRules: seq<FeeRule> :=
    [FeeRule(SmallSwap, PenaltyFactor), FeeRule(HighVolatility, RewardFactor), FeeRule(Always, 1.0)]

  /** The hook charges exactly what its rule table says, for every input. */
  lemma {:induction false} DynamicFeeIsFirstMatch(swapSize: real, volatility: real, baseFee: real)
    ensures FirstMatch(HookRules, swapSize, volatility, baseFee) == Some(DynamicFee(swapSize, volatility, baseFee))
  {
    var r := FirstMatch(HookRules, swapSize, volatility, baseFee);
    assert Holds(HookRules[2].when, swapSize, volatility);
    assert r.Some?;
    var k :| 0 <= k < 3 && Holds(HookRules[k].when, swapSize, volatility)
             && r.value == baseFee * HookRules[k].factor
             && forall j :: 0 <= j < k ==> !Holds(HookRules[j].when, swapSize, volatility);
    if k == 0 {
    } else if k == 1 {
      assert !Holds(HookRules[0].when, swapSize, volatility);
    } else {
      assert !Holds(HookRules[0].when, swapSize, volatility);
      assert !Holds(HookRules[1].when, swapSize, volatility);
    }
  }

  /**
    The order of the rules matters: with the reward tried before the penalty,
    a small swap in a volatile market would be charged a different fee.
   */
  lemma RuleOrderMatters(baseFee: real)
    requires baseFee != 0.0
    ensures var reordered := [HookRules[1], HookRules[0], HookRules[2]];
            FirstMatch(reordered, 5.0, 0.08, baseFee) != FirstMatch(HookRules, 5.0, 0.08, baseFee)
  {
  }
}
