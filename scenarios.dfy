/** Worked estimates under any configuration with the shipped engine settings. */
module EstimatorScenarios {
  import opened Wrappers
  import opened QuoteTypes
  import opened Constants
  import opened Estimator

  /** The settings the estimate reads, at their shipped values. */
  predicate ShippedEngineSettings(cfg: Config)
  {
    && QualityMultiplier(cfg, Standard) == 1.0 && CustomerMultiplier(cfg, Residential) == 1.0
    && DefaultMinimumBillableHours(cfg) == 1.5 && DefaultMinimumVisitRate(cfg) == 140.0
    && DefaultEmergencyMultiplier(cfg) == 1.5
    && cfg.recommendedMarginMin == 25.0 && cfg.minimumMargin == 12.0 && cfg.destructiveMargin == 3.0
  }

  lemma StandardConfigShipsEngineSettings()
    ensures ShippedEngineSettings(StandardConfig())
  {
    StandardDefaults();
  }

  /** A standard residential job with no line items, transport or tool wear. */
  function Job(hours: real, rate: real, materials: real, emergency: bool,
               taxRate: real, overheadPct: real, marginPct: real): (d: QuoteFormData)
    ensures d.laborHours == hours && d.laborRate == rate && d.materialsCost == materials
    ensures d.isEmergency == emergency && d.taxRate == taxRate
    ensures d.adminOverheadPct == overheadPct && d.profitMarginPct == marginPct
    ensures d.lineItems == [] && d.transportationCost == 0.0 && d.toolWearCost == 0.0
    ensures d.qualityLevel == Standard && d.customerType == Residential
  {
    QuoteFormData("", General, "", "", "", "", Residential, Standard, "Montreal, QC",
                  emergency, hours, rate, materials, 0.0, taxRate, overheadPct, 0.0, marginPct, "", [])
  }

  /**
   * Ten hours at 50 plus 200 of materials, 10 % overhead and 15 % tax: a total
   * cost of 885.50 and tier prices 1106.88, 991.76 and 912.07.
   */
  lemma ScenarioTypicalJob(cfg: Config)
    requires ShippedEngineSettings(cfg)
    ensures var r := CalculatePricing(cfg, Job(10.0, 50.0, 200.0, false, 15.0, 10.0, 25.0));
      && r.baseLaborCost == 500.0 && r.subtotal == 700.0 && r.adminOverhead == 70.0
      && r.taxAmount == 115.5 && r.totalCost == 885.5
      && !r.minimumHoursApplied && !r.minimumVisitApplied
      && r.recommendedPrice == 1106.88 && r.minimumPrice == 991.76 && r.destructivePrice == 912.07
  {
    var d := Job(10.0, 50.0, 200.0, false, 15.0, 10.0, 25.0);
    var r := CalculatePricing(cfg, d);
    assert RawLaborCost(cfg, d) == 500.0 by {
      assert EffectiveLaborHours(10.0, 1.5) == 10.0;
    }
    assert CategoryTotal([], Materials) == 0.0 && CategoryTotal([], Labor) == 0.0 && CategoryTotal([], Other) == 0.0;
    LineItemOutputs(cfg, d);
    assert r.baseLaborCost == 500.0 && r.materialsCost == 200.0;
    CostChain(cfg, d);
    assert r.subtotal == 700.0;
    assert r.adminOverhead == PercentOf(700.0, 10.0) == 70.0;
    assert r.taxAmount == PercentOf(770.0, 15.0) == 115.5;
    MinimumVisitRule(cfg, d);
    assert r.totalCost == 885.5;
    MarginRule(cfg, d);
    TypicalJobTierPrices();
  }

  /** The three tiers of a total cost of 885.50, rounded to cents. */
  lemma TypicalJobTierPrices()
    ensures TierPrice(885.5, 25.0) == 1106.88
    ensures TierPrice(885.5, 12.0) == 991.76
    ensures TierPrice(885.5, 3.0) == 912.07
  {
    assert (885.5 * 1.25 * 100.0 + 0.5).Floor == 110688;
    assert (885.5 * 1.12 * 100.0 + 0.5).Floor == 99176;
    assert (885.5 * 1.03 * 100.0 + 0.5).Floor == 91207;
  }

  /** Half an hour of labour is billed as the 1.5-hour minimum. */
  lemma ScenarioMinimumHours(cfg: Config)
    requires ShippedEngineSettings(cfg)
    ensures var r := CalculatePricing(cfg, Job(0.5, 50.0, 0.0, false, 0.0, 0.0, 25.0));
      r.minimumHoursApplied && r.effectiveLaborHours == 1.5
  {
  }

  /** An emergency without labour reports the flag but adds no surcharge. */
  lemma ScenarioEmergencyWithoutLabor(cfg: Config)
    requires ShippedEngineSettings(cfg)
    ensures var r := CalculatePricing(cfg, Job(0.0, 95.0, 0.0, true, 0.0, 0.0, 25.0));
      r.emergencyApplied && r.emergencySurcharge == 0.0 && r.baseLaborCost == 0.0
  {
    EmergencyRule(cfg, Job(0.0, 95.0, 0.0, true, 0.0, 0.0, 25.0));
  }

  /** Ten of materials with 15 % tax comes to 11.50, which the minimum visit raises to 140. */
  lemma ScenarioMinimumVisit(cfg: Config)
    requires ShippedEngineSettings(cfg)
    ensures var r := CalculatePricing(cfg, Job(0.0, 95.0, 10.0, false, 15.0, 0.0, 25.0));
      && r.subtotal + r.adminOverhead + r.taxAmount == 11.5
      && r.minimumVisitApplied && r.totalCost == 140.0
  {
    var d := Job(0.0, 95.0, 10.0, false, 15.0, 0.0, 25.0);
    assert CategoryTotal([], Materials) == 0.0 && CategoryTotal([], Labor) == 0.0 && CategoryTotal([], Other) == 0.0;
    assert RawLaborCost(cfg, d) == 0.0;
  }

  /** With the shipped settings, one cent below the recommended price is the minimum tier. */
  lemma OneCentBelowRecommended(cfg: Config, d: QuoteFormData)
    requires ShippedEngineSettings(cfg)
    requires CalculatePricing(cfg, d).totalCost > 0.0
    ensures var r := CalculatePricing(cfg, d);
      GetPriceTier(r.recommendedPrice - 0.01, r) == Minimum
  {
    var r := CalculatePricing(cfg, d);
    MinimumVisitRule(cfg, d);
    MarginRule(cfg, d);
    RecommendedCentAboveMinimum(r.totalCost, r.recommendedMargin);
  }

  /** From a total of 140 on, a margin of at least 25 % prices more than a cent above the 12 % tier. */
  lemma RecommendedCentAboveMinimum(t: real, m: real)
    requires t >= 140.0 && m >= 25.0
    ensures TierPrice(t, m) - 0.01 >= TierPrice(t, 12.0)
  {
    var x := t * (1.0 + m / 100.0);
    assert x >= t * 1.25 by {
      MulMonotone(t, 1.25, 1.0 + m / 100.0);
    }
    assert TierPrice(t, m) > t * 1.25 - 0.005;
    assert TierPrice(t, 12.0) <= t * 1.12 + 0.005;
  }

  /**
   * With a negative total the thresholds come out reversed, and then the two disagree:
   * a price can be "recommended" while the warning says it is below cost.
   */
  lemma NegativeTotalDisagreement(cfg: Config)
    requires ShippedEngineSettings(cfg)
    ensures var r := CalculatePricing(cfg, Job(0.0, 95.0, -100.0, false, 0.0, 0.0, 25.0));
      && r.totalCost == -100.0
      && GetPriceTier(-110.0, r) == Recommended
      && GetPriceWarning(-110.0, r) == Some(BelowCostWarning)
  {
    var d := Job(0.0, 95.0, -100.0, false, 0.0, 0.0, 25.0);
    var r := CalculatePricing(cfg, d);
    assert r.totalCost == -100.0;
    assert (-100.0 * 1.25 * 100.0 + 0.5).Floor == -12500;
    assert (-100.0 * 1.03 * 100.0 + 0.5).Floor == -10300;
    assert (-100.0 * 1.12 * 100.0 + 0.5).Floor == -11200;
  }
}
