/** The new-quote wizard: the initial form, the update merge and the step machine. */
module NewQuote {
  import opened Wrappers
  import opened QuoteTypes
  import opened Constants
  import opened Estimator
  import opened FormUpdates
  import TradeInfo
  import JobDetails

  /** `profile?.default_trade ?? 'general'`. */
  function TradeDefault(profile: Option<Profile>): (t: TradeType)
    ensures profile.Some? && profile.value.defaultTrade.Some? ==> t == profile.value.defaultTrade.value
    ensures profile.None? || profile.value.defaultTrade.None? ==> t == General
  {
    if profile.Some? then profile.value.defaultTrade.GetOr(General) else General
  }

  /** `profile?.default_region ?? DEFAULT_REGION.name`. */
  function RegionNameDefault(cfg: Config, profile: Option<Profile>): (name: string)
    ensures profile.Some? && profile.value.defaultRegion.Some? ==> name == profile.value.defaultRegion.value
    ensures profile.None? || profile.value.defaultRegion.None? ==> name == DefaultRegion(cfg).name
  {
    if profile.Some? then profile.value.defaultRegion.GetOr(DefaultRegion(cfg).name) else DefaultRegion(cfg).name
  }

  /** `buildInitialData(profile)`: a blank form seeded from the profile's defaults and the region's rates. */
  function BuildInitialData(cfg: Config, profile: Option<Profile>): (d: QuoteFormData)
    ensures d.tradeType == TradeDefault(profile)
    ensures d.region == RegionNameDefault(cfg, profile)
    ensures d.taxRate == RegionByName(cfg, d.region).taxRate
    ensures d.laborRate
            == RateForTrade(GetTradeOptions(cfg, Some(RegionByName(cfg, d.region).id)), d.tradeType)
    ensures d.projectName == [] && d.clientName == [] && d.clientEmail == [] && d.clientPhone == []
            && d.clientAddress == [] && d.notes == [] && d.lineItems == []
    ensures d.laborHours == 0.0 && d.materialsCost == 0.0 && d.transportationCost == 0.0
            && d.toolWearCost == 0.0
    ensures profile.None? ==>
              && d.customerType == Residential && d.qualityLevel == Standard && !d.isEmergency
              && d.adminOverheadPct == cfg.defaultAdminOverhead
              && d.profitMarginPct == cfg.defaultProfitMargin
    ensures profile.Some? ==>
              && d.customerType == profile.value.defaultCustomerType.GetOr(Residential)
              && d.qualityLevel == profile.value.defaultQualityLevel.GetOr(Standard)
              && d.isEmergency == profile.value.defaultIsEmergency.GetOr(false)
              && d.adminOverheadPct == profile.value.defaultAdminOverheadPct.GetOr(cfg.defaultAdminOverhead)
              && d.profitMarginPct == profile.value.defaultProfitMarginPct.GetOr(cfg.defaultProfitMargin)
  {
    var trade := TradeDefault(profile);
    var regionName := RegionNameDefault(cfg, profile);
    var region := RegionByName(cfg, regionName);
    var rate := RateForTrade(GetTradeOptions(cfg, Some(region.id)), trade);
    QuoteFormData(
      projectName := "",
      tradeType := trade,
      clientName := "",
      clientEmail := "",
      clientPhone := "",
      clientAddress := "",
      customerType := if profile.Some? then profile.value.defaultCustomerType.GetOr(Residential) else Residential,
      qualityLevel := if profile.Some? then profile.value.defaultQualityLevel.GetOr(Standard) else Standard,
      region := regionName,
      isEmergency := if profile.Some? then profile.value.defaultIsEmergency.GetOr(false) else false,
      laborHours := 0.0,
      laborRate := rate,
      materialsCost := 0.0,
      transportationCost := 0.0,
      taxRate := region.taxRate,
      adminOverheadPct :=
        if profile.Some? then profile.value.defaultAdminOverheadPct.GetOr(cfg.defaultAdminOverhead)
        else cfg.defaultAdminOverhead,
      toolWearCost := 0.0,
      profitMarginPct :=
        if profile.Some? then profile.value.defaultProfitMarginPct.GetOr(cfg.defaultProfitMargin)
        else cfg.defaultProfitMargin,
      notes := "",
      lineItems := [])
  }

  /** A stored zero overhead or margin is kept, not replaced by the default. */
  lemma StoredZeroKept(cfg: Config, p: Profile)
    requires p.defaultAdminOverheadPct == Some(0.0) && p.defaultProfitMarginPct == Some(0.0)
    ensures BuildInitialData(cfg, Some(p)).adminOverheadPct == 0.0
    ensures BuildInitialData(cfg, Some(p)).profitMarginPct == 0.0
  {
  }

  /** No two presets share an id. */
  predicate UniqueIds(cfg: Config)
  {
    forall i, j :: 0 <= i < j < |cfg.regionPresets| ==> cfg.regionPresets[i].id != cfg.regionPresets[j].id
  }

  /** With unique ids, looking a preset up by its own id finds that preset. */
  lemma RegionByOwnId(cfg: Config, p: RegionPreset)
    requires UniqueIds(cfg) && p in cfg.regionPresets
    ensures RegionById(cfg, Some(p.id)) == p
  {
    var j :| 0 <= j < |cfg.regionPresets| && cfg.regionPresets[j] == p;
    var r := RegionById(cfg, Some(p.id));
    var k :| 0 <= k < |cfg.regionPresets| && cfg.regionPresets[k] == r;
  }

  /**
   * The initial rate and tax come from the region the profile names, or from the
   * default region when no preset has that name; the form still shows the given name.
   */
  lemma InitialRegionRates(cfg: Config, profile: Option<Profile>)
    requires UniqueIds(cfg)
    requires Lists(cfg.tradeOptionMeta, TradeDefault(profile))
    ensures var d := BuildInitialData(cfg, profile);
      var region := RegionByName(cfg, d.region);
      && d.laborRate == region.rates.Rate(d.tradeType)
      && d.taxRate == region.taxRate
      && ((forall i :: 0 <= i < |cfg.regionPresets| ==> cfg.regionPresets[i].name != d.region)
          ==> region == DefaultRegion(cfg) && d.region == RegionNameDefault(cfg, profile))
  {
    var d := BuildInitialData(cfg, profile);
    var region := RegionByName(cfg, d.region);
    RegionByOwnId(cfg, region);
    RateForListedTrade(cfg, Some(region.id), d.tradeType);
  }

  /** Without a profile the standard tables give a general job in Montreal at 95 an hour and 14.975 % tax. */
  lemma StandardInitialData()
    ensures var d := BuildInitialData(StandardConfig(), None);
      && d.tradeType == General && d.region == "Montreal, QC"
      && d.laborRate == 95.0 && d.taxRate == 14.975
      && d.adminOverheadPct == 10.0 && d.profitMarginPct == 25.0
  {
    var cfg: Config := StandardConfig();
    var d := BuildInitialData(cfg, None);
    assert cfg.regionPresets == [Montreal];
    var region := RegionByName(cfg, d.region);
    assert region == Montreal;
    assert Lists(cfg.tradeOptionMeta, General) by {
      StandardListsEveryTrade();
    }
    RateForListedTrade(cfg, Some(region.id), General);
    assert RegionById(cfg, Some(region.id)) == Montreal;
  }

  /** Which step may follow `step`: the first two need their step's check, the third is free. */
  predicate CanAdvance(step: nat, d: QuoteFormData)
  {
    || (step == 0 && TradeInfo.CanProceed(d))
    || (step == 1 && JobDetails.CanProceed(d))
    || step == 2
  }

  /** The wizard's state: the step shown and the form data. */
  class QuoteWizard {
    const cfg: Config
    var step: nat
    var data: QuoteFormData

    /** There are four steps, 0 to 3. */
    predicate Valid()
      reads this
    {
      step <= 3
    }

    /** A fresh wizard on the first step with the initial form. */
    constructor (cfg: Config, profile: Option<Profile>)
      ensures Valid()
      ensures this.cfg == cfg && step == 0 && data == BuildInitialData(cfg, profile)
    {
      this.cfg := cfg;
      step := 0;
      data := BuildInitialData(cfg, profile);
    }

    /** `handleChange(updates)`: merge the update into the form; the step stays. */
    method HandleChange(u: FormUpdate)
      requires Valid()
      modifies this
      ensures Valid()
      ensures data == Merge(old(data), u) && step == old(step)
    {
      data := Merge(data, u);
    }

    /** The "next" button: enabled only when the current step's check passes. */
    method Next()
      requires Valid()
      modifies this
      ensures Valid()
      ensures step == if CanAdvance(old(step), old(data)) then old(step) + 1 else old(step)
      ensures data == old(data)
    {
      if CanAdvance(step, data) {
        step := step + 1;
      }
    }

    /** The "back" button of steps 1 to 3. */
    method Back()
      requires Valid()
      modifies this
      ensures Valid()
      ensures step == if old(step) > 0 then old(step) - 1 else 0
      ensures data == old(data)
    {
      if step > 0 {
        step := step - 1;
      }
    }
  }

  /** Next then back returns to the same step, when the step could advance. */
  method NextThenBack(w: QuoteWizard)
    requires w.Valid() && CanAdvance(w.step, w.data)
    modifies w
    ensures w.step == old(w.step) && w.data == old(w.data)
  {
    w.Next();
    w.Back();
  }
}
