/**
 * The estimation engine of src/lib/estimator.ts: job inputs to a cost breakdown and
 * three rounded sell prices, and the classifier and warning for a proposed price.
 */
module Estimator {
  import opened Wrappers
  import opened QuoteTypes
  import opened Constants
  import opened Collections

  /** `Math.max(a, b)`. */
  function Max(a: real, b: real): (m: real)
    ensures m >= a && m >= b
    ensures m == a || m == b
  {
    if a >= b then a else b
  }

  lemma MulNonNegative(a: real, b: real)
    requires a >= 0.0 && b >= 0.0
    ensures a * b >= 0.0
  {
  }

  lemma MulMonotone(t: real, x: real, y: real)
    requires t >= 0.0 && x <= y
    ensures t * x <= t * y
  {
    MulNonNegative(t, y - x);
    assert t * (y - x) == t * y - t * x;
  }

  // ------------------------------------------------------------------
  // Rounding
  // ------------------------------------------------------------------

  /** A whole number of cents. */
  predicate IsCents(x: real)
  {
    (x * 100.0).Floor as real == x * 100.0
  }

  /**
   * `roundTo(x, 2)`: `Math.round(x * 100) / 100`, where `Math.round` is
   * `floor(v + 1/2)`, so ties go toward positive infinity.
   */
  function RoundCents(x: real): (r: real)
    ensures IsCents(r)
    ensures x - 0.005 < r <= x + 0.005
  {
    ((x * 100.0 + 0.5).Floor as real) / 100.0
  }

  /** Rounding never reverses the order of two amounts. */
  lemma RoundCentsMonotone(x: real, y: real)
    requires x <= y
    ensures RoundCents(x) <= RoundCents(y)
  {
    var a, b := x * 100.0 + 0.5, y * 100.0 + 0.5;
    assert a <= b;
    assert a.Floor <= b.Floor;
  }

  /** An amount already in whole cents is left as it is, so rounding twice equals rounding once. */
  lemma RoundCentsIdempotent(x: real)
    ensures IsCents(x) ==> RoundCents(x) == x
    ensures RoundCents(RoundCents(x)) == RoundCents(x)
  {
    var r := RoundCents(x);
    assert (r * 100.0 + 0.5).Floor == (r * 100.0).Floor;
    if IsCents(x) {
      assert (x * 100.0 + 0.5).Floor == (x * 100.0).Floor;
    }
  }

  /** Half a cent rounds up on both sides of zero. */
  lemma RoundCentsTies()
    ensures RoundCents(0.125) == 0.13
    ensures RoundCents(-0.125) == -0.12
    ensures RoundCents(1106.875) == 1106.88
  {
    assert (0.125 * 100.0 + 0.5).Floor == 13;
    assert (-0.125 * 100.0 + 0.5).Floor == -12;
    assert (1106.875 * 100.0 + 0.5).Floor == 110688;
  }

  // ------------------------------------------------------------------
  // The steps of the estimate
  // ------------------------------------------------------------------

  /** Hours billed: none for a job without labour, otherwise at least the minimum billable hours. */
  function EffectiveLaborHours(hours: real, minimumHours: real): (h: real)
    ensures hours <= 0.0 ==> h == 0.0
    ensures hours > 0.0 ==> h >= hours && h >= minimumHours && (h == hours || h == minimumHours)
  {
    if hours > 0.0 then Max(hours, minimumHours) else 0.0
  }

  /** Labour cost before the emergency rule: billed hours at the rate, times both multipliers. */
  function RawLaborCost(cfg: Config, d: QuoteFormData): (r: real)
    ensures d.laborHours <= 0.0 ==> r == 0.0
  {
    EffectiveLaborHours(d.laborHours, DefaultMinimumBillableHours(cfg)) * d.laborRate
      * QualityMultiplier(cfg, d.qualityLevel) * CustomerMultiplier(cfg, d.customerType)
  }

  /** The unrounded surcharge: charged only for an emergency job that has labour to surcharge. */
  function EmergencySurcharge(labor: real, isEmergency: bool, multiplier: real): (s: real)
    ensures !(isEmergency && labor > 0.0) ==> s == 0.0
    ensures multiplier >= 1.0 ==> s >= 0.0
  {
    if isEmergency && labor > 0.0 then labor * (multiplier - 1.0) else 0.0
  }

  /** Labour after the emergency rule: scaled by the multiplier, which adds exactly the surcharge. */
  function EmergencyLabor(labor: real, isEmergency: bool, multiplier: real): (r: real)
    ensures r == labor + EmergencySurcharge(labor, isEmergency, multiplier)
    ensures isEmergency && labor > 0.0 ==> r == labor * multiplier
    ensures labor >= 0.0 && multiplier >= 0.0 ==> r >= 0.0
  {
    if isEmergency && labor > 0.0 then labor * multiplier else labor
  }

  /** `quantity * unit_price`. */
  function LineAmount(item: LineItem): real
  {
    item.quantity * item.unitPrice
  }

  /** `items.filter((item) => item.category === c)`. */
  function ItemsIn(items: seq<LineItem>, c: LineItemCategory): (r: seq<LineItem>)
    ensures |r| <= |items|
    ensures forall i :: 0 <= i < |r| ==> r[i].category == c
  {
    if items == [] then []
    else (if items[0].category == c then [items[0]] else []) + ItemsIn(items[1..], c)
  }

  /** `.reduce((sum, item) => sum + item.quantity * item.unit_price, 0)`. */
  function SumAmounts(items: seq<LineItem>): (r: real)
    ensures NonNegativeItems(items) ==> r >= 0.0
  {
    if items == [] then 0.0 else LineAmount(items[0]) + SumAmounts(items[1..])
  }

  /** The line-item total of one category. */
  function CategoryTotal(items: seq<LineItem>, c: LineItemCategory): real
  {
    SumAmounts(ItemsIn(items, c))
  }

  lemma {:induction false} SumAmountsAppend(a: seq<LineItem>, b: seq<LineItem>)
    ensures SumAmounts(a + b) == SumAmounts(a) + SumAmounts(b)
  {
    if a == [] {
      assert a + b == b;
    } else {
      assert (a + b)[0] == a[0];
      assert (a + b)[1..] == a[1..] + b;
      SumAmountsAppend(a[1..], b);
    }
  }

  /** Filtering distributes over concatenation. */
  lemma {:induction false} ItemsInAppend(a: seq<LineItem>, b: seq<LineItem>, c: LineItemCategory)
    ensures ItemsIn(a + b, c) == ItemsIn(a, c) + ItemsIn(b, c)
  {
    if a == [] {
      assert a + b == b;
    } else {
      assert (a + b)[0] == a[0];
      assert (a + b)[1..] == a[1..] + b;
      ItemsInAppend(a[1..], b, c);
    }
  }

  /** So the category total of a concatenation is the sum of the two totals. */
  lemma CategoryTotalAppend(a: seq<LineItem>, b: seq<LineItem>, c: LineItemCategory)
    ensures CategoryTotal(a + b, c) == CategoryTotal(a, c) + CategoryTotal(b, c)
  {
    ItemsInAppend(a, b, c);
    SumAmountsAppend(ItemsIn(a, c), ItemsIn(b, c));
  }

  /** The items of one category, counted as a multiset. */
  ghost function CategoryBag(items: seq<LineItem>, c: LineItemCategory): multiset<LineItem>
  {
    multiset(ItemsIn(items, c))
  }

  /** One step of the filter, counted as a multiset. */
  lemma CategoryBagStep(items: seq<LineItem>, c: LineItemCategory)
    requires items != []
    ensures CategoryBag(items, c)
            == if items[0].category == c then multiset{items[0]} + CategoryBag(items[1..], c)
               else CategoryBag(items[1..], c)
  {
  }

  /** Every line item lands in exactly one of the three category filters. */
  lemma {:induction false} CategoriesPartitionItems(items: seq<LineItem>)
    ensures CategoryBag(items, Materials) + CategoryBag(items, Labor) + CategoryBag(items, Other)
            == multiset(items)
  {
    if items != [] {
      CategoriesPartitionItems(items[1..]);
      CategoryBagStep(items, Materials);
      CategoryBagStep(items, Labor);
      CategoryBagStep(items, Other);
      MultisetCons(items);
    }
  }

  /** So the three category totals add up to the amount of the whole list. */
  lemma {:induction false} CategoriesPartitionTotal(items: seq<LineItem>)
    ensures CategoryTotal(items, Materials) + CategoryTotal(items, Labor) + CategoryTotal(items, Other)
            == SumAmounts(items)
  {
    if items != [] {
      CategoriesPartitionTotal(items[1..]);
      var head := [items[0]];
      forall c: LineItemCategory
        ensures CategoryTotal(items, c)
                == (if items[0].category == c then LineAmount(items[0]) else 0.0) + CategoryTotal(items[1..], c)
      {
        SumAmountsAppend(if items[0].category == c then head else [], ItemsIn(items[1..], c));
      }
    }
  }

  /** Line items with non-negative quantities and prices give a non-negative amount. */
  predicate NonNegativeItems(items: seq<LineItem>)
  {
    forall i :: 0 <= i < |items| ==> items[i].quantity >= 0.0 && items[i].unitPrice >= 0.0
  }

  lemma {:induction false} CategoryTotalNonNegative(items: seq<LineItem>, c: LineItemCategory)
    requires NonNegativeItems(items)
    ensures CategoryTotal(items, c) >= 0.0
  {
    if items != [] {
      CategoryTotalNonNegative(items[1..], c);
      var head := if items[0].category == c then [items[0]] else [];
      SumAmountsAppend(head, ItemsIn(items[1..], c));
      assert LineAmount(items[0]) >= 0.0;
    }
  }

  /** The minimum-visit floor: a positive total below the floor is raised to it. */
  function ApplyMinimumVisit(total: real, minimumVisit: real): (r: real)
    ensures r >= total
    ensures total > 0.0 ==> r >= minimumVisit
    ensures total <= 0.0 || total >= minimumVisit ==> r == total
  {
    if 0.0 < total < minimumVisit then minimumVisit else total
  }

  /** The sell price at a margin (in percent) over the total cost, rounded to cents. */
  function TierPrice(total: real, marginPct: real): (p: real)
    ensures IsCents(p)
  {
    RoundCents(total * (1.0 + marginPct / 100.0))
  }

  /** A larger margin never gives a smaller price on a non-negative total. */
  lemma TierPriceMonotone(total: real, m1: real, m2: real)
    requires total >= 0.0 && m1 <= m2
    ensures TierPrice(total, m1) <= TierPrice(total, m2)
  {
    MulMonotone(total, 1.0 + m1 / 100.0, 1.0 + m2 / 100.0);
    RoundCentsMonotone(total * (1.0 + m1 / 100.0), total * (1.0 + m2 / 100.0));
  }

  /** `amount * (pct / 100)`: nothing of nothing, and not negative when neither input is. */
  function PercentOf(amount: real, pct: real): (r: real)
    ensures amount == 0.0 || pct == 0.0 ==> r == 0.0
    ensures amount >= 0.0 && pct >= 0.0 ==> r >= 0.0
    ensures pct == 100.0 ==> r == amount
  {
    var r := amount * (pct / 100.0);
    assert amount >= 0.0 && pct >= 0.0 ==> r >= 0.0 by {
      if amount >= 0.0 && pct >= 0.0 {
        MulNonNegative(amount, pct / 100.0);
      }
    }
    r
  }

  /**
   * `calculatePricing(data)`: the three prices are in whole cents, the recommended margin is
   * never below the entered margin or the floor, and the minimum-visit floor only ever raises
   * the total over the taxed subtotal.
   */
  function CalculatePricing(cfg: Config, d: QuoteFormData): (r: PricingResult)
    ensures IsCents(r.recommendedPrice) && IsCents(r.minimumPrice) && IsCents(r.destructivePrice)
    ensures r.recommendedMargin >= d.profitMarginPct && r.recommendedMargin >= cfg.recommendedMarginMin
    ensures r.totalCost >= r.subtotal + r.adminOverhead + r.taxAmount
    ensures r.emergencyApplied == d.isEmergency
    ensures r.minimumVisitApplied ==> r.totalCost == r.minimumVisitRate
  {
    var minimumHours := DefaultMinimumBillableHours(cfg);
    var raw := RawLaborCost(cfg, d);
    var labor := EmergencyLabor(raw, d.isEmergency, DefaultEmergencyMultiplier(cfg));
    var lineMaterials := CategoryTotal(d.lineItems, Materials);
    var lineLabor := CategoryTotal(d.lineItems, Labor);
    var lineOther := CategoryTotal(d.lineItems, Other);
    var materials := d.materialsCost + lineMaterials;
    var direct := labor + lineLabor + materials + d.transportationCost + d.toolWearCost + lineOther;
    var overhead := PercentOf(direct, d.adminOverheadPct);
    var sub := direct + overhead;
    var tax := PercentOf(sub, d.taxRate);
    var minimumVisit := DefaultMinimumVisitRate(cfg);
    var total := ApplyMinimumVisit(sub + tax, minimumVisit);
    var margin := Max(d.profitMarginPct, cfg.recommendedMarginMin);
    PricingResult(
      baseLaborCost := labor + lineLabor,
      materialsCost := materials,
      transportationCost := d.transportationCost,
      toolWearCost := d.toolWearCost,
      subtotal := direct,
      adminOverhead := overhead,
      taxAmount := tax,
      totalCost := total,
      recommendedPrice := TierPrice(total, margin),
      minimumPrice := TierPrice(total, cfg.minimumMargin),
      destructivePrice := TierPrice(total, cfg.destructiveMargin),
      recommendedMargin := margin,
      minimumMargin := cfg.minimumMargin,
      emergencyApplied := d.isEmergency,
      minimumVisitApplied := 0.0 < sub + tax < minimumVisit,
      minimumHoursApplied := 0.0 < d.laborHours < minimumHours,
      effectiveLaborHours := EffectiveLaborHours(d.laborHours, minimumHours),
      emergencySurcharge := RoundCents(EmergencySurcharge(raw, d.isEmergency, DefaultEmergencyMultiplier(cfg))),
      minimumVisitRate := minimumVisit)
  }

  // ------------------------------------------------------------------
  // What the estimate promises
  // ------------------------------------------------------------------

  /** The minimum-billable-hours rule. */
  lemma LaborHoursRule(cfg: Config, d: QuoteFormData)
    ensures var r := CalculatePricing(cfg, d);
      var minimumHours := DefaultMinimumBillableHours(cfg);
      && (d.laborHours <= 0.0 ==> r.effectiveLaborHours == 0.0)
      && (d.laborHours > 0.0 ==> r.effectiveLaborHours == Max(d.laborHours, minimumHours))
      && (r.minimumHoursApplied <==> 0.0 < d.laborHours < minimumHours)
      && (r.minimumHoursApplied ==> r.effectiveLaborHours == minimumHours)
      && (minimumHours > 0.0 ==> (r.effectiveLaborHours == 0.0 <==> d.laborHours <= 0.0))
  {
  }

  /** The emergency rule: the flag follows the checkbox; the surcharge needs labour to apply to. */
  lemma EmergencyRule(cfg: Config, d: QuoteFormData)
    ensures var r := CalculatePricing(cfg, d);
      var raw := RawLaborCost(cfg, d);
      var lineLabor := CategoryTotal(d.lineItems, Labor);
      var m := DefaultEmergencyMultiplier(cfg);
      && r.emergencyApplied == d.isEmergency
      && (d.isEmergency && raw > 0.0 ==>
            r.baseLaborCost - lineLabor == raw * m
            && r.emergencySurcharge == RoundCents(raw * (m - 1.0)))
      && (!(d.isEmergency && raw > 0.0) ==>
            r.baseLaborCost - lineLabor == raw && r.emergencySurcharge == 0.0)
  {
    assert RoundCents(0.0) == 0.0 by { RoundCentsIdempotent(0.0); }
  }

  /** The reported labour and materials merge the form's figures with the line items of that category. */
  lemma LineItemOutputs(cfg: Config, d: QuoteFormData)
    ensures var r := CalculatePricing(cfg, d);
      && r.materialsCost == d.materialsCost + CategoryTotal(d.lineItems, Materials)
      && r.baseLaborCost
         == EmergencyLabor(RawLaborCost(cfg, d), d.isEmergency, DefaultEmergencyMultiplier(cfg))
            + CategoryTotal(d.lineItems, Labor)
      && r.transportationCost == d.transportationCost
      && r.toolWearCost == d.toolWearCost
  {
  }

  /** The cost chain: direct costs, then overhead on them, then tax on both. */
  lemma CostChain(cfg: Config, d: QuoteFormData)
    ensures var r := CalculatePricing(cfg, d);
      r.subtotal == r.baseLaborCost + r.materialsCost + r.transportationCost + r.toolWearCost
                    + CategoryTotal(d.lineItems, Other)
    ensures var r := CalculatePricing(cfg, d);
      r.adminOverhead == PercentOf(r.subtotal, d.adminOverheadPct)
    ensures var r := CalculatePricing(cfg, d);
      r.taxAmount == PercentOf(r.subtotal + r.adminOverhead, d.taxRate)
    ensures var r := CalculatePricing(cfg, d);
      !r.minimumVisitApplied ==> r.totalCost == r.subtotal + r.adminOverhead + r.taxAmount
  {
  }

  /** The minimum-visit floor applies exactly to positive totals below the floor. */
  lemma MinimumVisitRule(cfg: Config, d: QuoteFormData)
    ensures var r := CalculatePricing(cfg, d);
      var before := r.subtotal + r.adminOverhead + r.taxAmount;
      && r.minimumVisitRate == DefaultMinimumVisitRate(cfg)
      && (r.minimumVisitApplied <==> 0.0 < before < r.minimumVisitRate)
      && (r.minimumVisitApplied ==> r.totalCost == r.minimumVisitRate)
      && (!r.minimumVisitApplied ==> r.totalCost == before)
      && (before == 0.0 ==> r.totalCost == 0.0)
      && (r.totalCost > 0.0 ==> r.totalCost >= r.minimumVisitRate)
  {
  }

  /** The recommended margin is floored; the other two tiers use the fixed margins. */
  lemma MarginRule(cfg: Config, d: QuoteFormData)
    ensures var r := CalculatePricing(cfg, d);
      && r.recommendedMargin == Max(d.profitMarginPct, cfg.recommendedMarginMin)
      && r.minimumMargin == cfg.minimumMargin
      && r.recommendedPrice == TierPrice(r.totalCost, r.recommendedMargin)
      && r.minimumPrice == TierPrice(r.totalCost, cfg.minimumMargin)
      && r.destructivePrice == TierPrice(r.totalCost, cfg.destructiveMargin)
      && IsCents(r.recommendedPrice) && IsCents(r.minimumPrice) && IsCents(r.destructivePrice)
  {
  }

  /** Thresholds in the order destructive, minimum, recommended. */
  predicate Ordered(r: PricingResult)
  {
    r.destructivePrice <= r.minimumPrice <= r.recommendedPrice
  }

  /** Margin constants in the order destructive, minimum, recommended floor. */
  predicate MarginsOrdered(cfg: Config)
  {
    cfg.destructiveMargin <= cfg.minimumMargin <= cfg.recommendedMarginMin
  }

  /** With ordered margins, a non-negative total gives ordered tier prices. */
  lemma TiersOrdered(cfg: Config, d: QuoteFormData)
    requires MarginsOrdered(cfg)
    requires CalculatePricing(cfg, d).totalCost >= 0.0
    ensures Ordered(CalculatePricing(cfg, d))
  {
    var r := CalculatePricing(cfg, d);
    TierPriceMonotone(r.totalCost, cfg.destructiveMargin, cfg.minimumMargin);
    TierPriceMonotone(r.totalCost, cfg.minimumMargin, r.recommendedMargin);
  }

  /** The inputs a sensible job has: nothing negative, and multipliers that do not flip signs. */
  predicate NonNegativeInputs(cfg: Config, d: QuoteFormData)
  {
    && d.laborHours >= 0.0 && d.laborRate >= 0.0
    && d.materialsCost >= 0.0 && d.transportationCost >= 0.0 && d.toolWearCost >= 0.0
    && d.adminOverheadPct >= 0.0 && d.taxRate >= 0.0
    && NonNegativeItems(d.lineItems)
    && QualityMultiplier(cfg, d.qualityLevel) >= 0.0
    && CustomerMultiplier(cfg, d.customerType) >= 0.0
    && DefaultEmergencyMultiplier(cfg) >= 0.0
    && DefaultMinimumBillableHours(cfg) >= 0.0
  }

  /** Non-negative inputs give a non-negative subtotal. */
  lemma SubtotalNonNegative(cfg: Config, d: QuoteFormData)
    requires NonNegativeInputs(cfg, d)
    ensures CalculatePricing(cfg, d).subtotal >= 0.0
  {
    RawLaborCostNonNegative(cfg, d);
    CategoryTotalNonNegative(d.lineItems, Materials);
    CategoryTotalNonNegative(d.lineItems, Labor);
    CategoryTotalNonNegative(d.lineItems, Other);
    LineItemOutputs(cfg, d);
    CostChain(cfg, d);
  }

  /** For non-negative inputs the total is non-negative, so the tier prices are ordered. */
  lemma NonNegativeInputsGiveOrderedTiers(cfg: Config, d: QuoteFormData)
    requires NonNegativeInputs(cfg, d)
    requires MarginsOrdered(cfg)
    ensures CalculatePricing(cfg, d).totalCost >= 0.0
    ensures Ordered(CalculatePricing(cfg, d))
  {
    var r := CalculatePricing(cfg, d);
    SubtotalNonNegative(cfg, d);
    CostChain(cfg, d);
    TiersOrdered(cfg, d);
  }

  lemma RawLaborCostNonNegative(cfg: Config, d: QuoteFormData)
    requires NonNegativeInputs(cfg, d)
    ensures RawLaborCost(cfg, d) >= 0.0
  {
    var hours := EffectiveLaborHours(d.laborHours, DefaultMinimumBillableHours(cfg));
    var q, c := QualityMultiplier(cfg, d.qualityLevel), CustomerMultiplier(cfg, d.customerType);
    MulNonNegative(hours, d.laborRate);
    MulNonNegative(hours * d.laborRate, q);
    MulNonNegative(hours * d.laborRate * q, c);
  }

  // ------------------------------------------------------------------
  // Classifying a proposed price
  // ------------------------------------------------------------------

  datatype PriceTier = Recommended | Minimum | Destructive | Below

  /** `getPriceTier(price, pricing)`: the highest tier whose threshold the price reaches. */
  function GetPriceTier(price: real, pricing: PricingResult): (t: PriceTier)
    ensures t == Recommended <==> price >= pricing.recommendedPrice
    ensures t == Minimum ==> pricing.minimumPrice <= price < pricing.recommendedPrice
    ensures t == Destructive ==> pricing.destructivePrice <= price < pricing.minimumPrice
    ensures t == Below ==> price < pricing.destructivePrice && price < pricing.minimumPrice
  {
    if price >= pricing.recommendedPrice then Recommended
    else if price >= pricing.minimumPrice then Minimum
    else if price >= pricing.destructivePrice then Destructive
    else Below
  }

  /** Tiers from lowest to highest. */
  function Rank(t: PriceTier): nat
  {
    match t
    case Below => 0
    case Destructive => 1
    case Minimum => 2
    case Recommended => 3
  }

  /** A higher price never lands in a lower tier. */
  lemma TierMonotone(p: real, q: real, pricing: PricingResult)
    requires p <= q
    ensures Rank(GetPriceTier(p, pricing)) <= Rank(GetPriceTier(q, pricing))
  {
  }

  /** A threshold price takes its own tier (ties go to the higher tier). */
  lemma TierAtThresholds(r: PricingResult)
    ensures GetPriceTier(r.recommendedPrice, r) == Recommended
    ensures r.minimumPrice < r.recommendedPrice ==> GetPriceTier(r.minimumPrice, r) == Minimum
    ensures r.destructivePrice < r.minimumPrice <= r.recommendedPrice
            ==> GetPriceTier(r.destructivePrice, r) == Destructive
  {
  }

  const BelowCostWarning := "You're pricing below your total costs. This isn't just low -- you're literally paying to work. Don't give away your work."
  const DevaluingWarning := "Pricing below this value not only affects your wallet, it also devalues the profession and puts negative pressure on the local market. Don't give away your work."
  const ThinMarginWarning := "This price covers your costs but leaves a thin margin. One unexpected expense and your profit disappears. Raising your price a little here will protect you all month."

  /** `getPriceWarning(price, pricing)`: the message for the first threshold, from the bottom, the price misses. */
  function GetPriceWarning(price: real, pricing: PricingResult): (w: Option<string>)
    ensures w.None? <==> price >= pricing.destructivePrice && price >= pricing.minimumPrice
                         && price >= pricing.recommendedPrice
  {
    if price < pricing.destructivePrice then Some(BelowCostWarning)
    else if price < pricing.minimumPrice then Some(DevaluingWarning)
    else if price < pricing.recommendedPrice then Some(ThinMarginWarning)
    else None
  }

  /** The message each tier calls for. */
  function WarningFor(t: PriceTier): Option<string>
  {
    match t
    case Below => Some(BelowCostWarning)
    case Destructive => Some(DevaluingWarning)
    case Minimum => Some(ThinMarginWarning)
    case Recommended => None
  }

  /** With ordered thresholds the warning and the tier agree; no warning means the recommended tier. */
  lemma WarningMatchesTier(price: real, r: PricingResult)
    requires Ordered(r)
    ensures GetPriceWarning(price, r) == WarningFor(GetPriceTier(price, r))
    ensures GetPriceWarning(price, r).None? <==> price >= r.recommendedPrice
  {
  }
}
