/**
 * The simplified tier calculator: a second pricing policy, separate from the
 * estimator. Overhead is a fraction of labour, the three tiers are fixed
 * markups of the base cost, and nothing is rounded.
 */
module PricingEngine {
  import Estimator

  datatype PricingInput = PricingInput(laborCost: real, materialCost: real, overheadPct: real)

  datatype TierPrices = TierPrices(destructive: real, minimum: real, recommended: real)

  /** The three markups of the policy. */
  const DestructiveFactor: real := 1.05
  const MinimumFactor: real := 1.15
  const RecommendedFactor: real := 1.35

  /** Overhead on labour; `overheadPct` is a fraction, not a percentage. */
  function OverheadCost(input: PricingInput): (r: real)
    ensures r == Estimator.PercentOf(input.laborCost, 100.0 * input.overheadPct)
    ensures input.laborCost == 0.0 || input.overheadPct == 0.0 ==> r == 0.0
  {
    input.laborCost * input.overheadPct
  }

  /** Labour, materials and overhead: with non-negative costs and rate, at least labour plus materials. */
  function BaseCost(input: PricingInput): (r: real)
    ensures input.laborCost >= 0.0 && input.overheadPct >= 0.0 ==> r >= input.laborCost + input.materialCost
    ensures input.overheadPct == 0.0 ==> r == input.laborCost + input.materialCost
  {
    input.laborCost + input.materialCost + OverheadCost(input)
  }

  /** `calculateTierPrices(input)`: each tier is a fixed markup of the base cost, unrounded. */
  function CalculateTierPrices(input: PricingInput): (t: TierPrices)
    ensures t.destructive / DestructiveFactor == BaseCost(input)
    ensures t.minimum / MinimumFactor == BaseCost(input)
    ensures t.recommended / RecommendedFactor == BaseCost(input)
    ensures t.destructive <= t.minimum <= t.recommended <==> BaseCost(input) >= 0.0
    ensures BaseCost(input) < 0.0 ==> t.recommended < t.minimum < t.destructive
    ensures input.laborCost == 0.0 && input.materialCost == 0.0 ==> t == TierPrices(0.0, 0.0, 0.0)
  {
    var base := BaseCost(input);
    TierPrices(base * DestructiveFactor, base * MinimumFactor, base * RecommendedFactor)
  }
}
