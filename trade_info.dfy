/** The trade-and-info step of the quote wizard: project name, region and trade. */
module TradeInfo {
  import opened Wrappers
  import opened Text
  import opened QuoteTypes
  import opened Constants
  import opened FormUpdates

  /**
   * `canProceed`: a trade is chosen and the project has a name. A trade is a
   * value of a closed type, so only the name can be missing.
   */
  predicate CanProceed(d: QuoteFormData)
  {
    !IsBlank(d.projectName)
  }

  /** A name of nothing but whitespace blocks the step. */
  lemma CanProceedNeedsVisibleName(d: QuoteFormData)
    ensures CanProceed(d) <==> exists i :: 0 <= i < |d.projectName| && !IsWhitespace(d.projectName[i])
  {
    BlankIffAllWhitespace(d.projectName);
  }

  /** `activeRegion`: the preset named in the form, else the default region. */
  function ActiveRegion(cfg: Config, d: QuoteFormData): (r: RegionPreset)
    ensures r in cfg.regionPresets
    ensures (exists i :: 0 <= i < |cfg.regionPresets| && cfg.regionPresets[i].name == d.region) ==> r.name == d.region
    ensures (forall i :: 0 <= i < |cfg.regionPresets| ==> cfg.regionPresets[i].name != d.region)
            ==> r == DefaultRegion(cfg)
    ensures forall i :: 0 <= i < |cfg.regionPresets| && cfg.regionPresets[i].name == d.region
                        && (forall j :: 0 <= j < i ==> cfg.regionPresets[j].name != d.region)
                        ==> r == cfg.regionPresets[i]
  {
    RegionByName(cfg, d.region)
  }

  /** The trade buttons: the options of the active region. */
  function ShownTradeOptions(cfg: Config, d: QuoteFormData): (r: seq<TradeOption>)
    ensures |r| == |cfg.tradeOptionMeta|
  {
    GetTradeOptions(cfg, Some(ActiveRegion(cfg, d).id))
  }

  /**
   * `handleRegionChange(regionId)`: the region's name and tax rate, and the
   * region's rate for the current trade, as one update.
   */
  function RegionChange(cfg: Config, d: QuoteFormData, regionId: string): (u: FormUpdate)
    ensures u == NoChange.(region := u.region, laborRate := u.laborRate, taxRate := u.taxRate)
    ensures var region := RegionById(cfg, Some(regionId));
      && u.region == Some(region.name)
      && u.taxRate == Some(region.taxRate)
      && u.laborRate == Some(RateForTrade(GetTradeOptions(cfg, Some(regionId)), d.tradeType))
  {
    var region := RegionById(cfg, Some(regionId));
    var rate := RateForTrade(GetTradeOptions(cfg, Some(regionId)), d.tradeType);
    NoChange.(region := Some(region.name), laborRate := Some(rate), taxRate := Some(region.taxRate))
  }

  /** After a region change, only the region, the labour rate and the tax rate differ. */
  lemma RegionChangeTouchesThreeFields(cfg: Config, d: QuoteFormData, regionId: string)
    ensures var r := Merge(d, RegionChange(cfg, d, regionId));
      var region := RegionById(cfg, Some(regionId));
      && r == d.(region := r.region, laborRate := r.laborRate, taxRate := r.taxRate)
      && r.region == region.name && r.taxRate == region.taxRate
  {
  }

  /** With the trade listed, the new labour rate is the chosen region's rate for the trade. */
  lemma RegionChangeRate(cfg: Config, d: QuoteFormData, regionId: string)
    requires Lists(cfg.tradeOptionMeta, d.tradeType)
    ensures Merge(d, RegionChange(cfg, d, regionId)).laborRate
            == RegionById(cfg, Some(regionId)).rates.Rate(d.tradeType)
  {
    RateForListedTrade(cfg, Some(regionId), d.tradeType);
  }

  /** An unknown region id falls back to the default region for name, tax and rate. */
  lemma UnknownRegionFallsBack(cfg: Config, d: QuoteFormData, regionId: string)
    requires forall i :: 0 <= i < |cfg.regionPresets| ==> cfg.regionPresets[i].id != regionId
    requires Lists(cfg.tradeOptionMeta, d.tradeType)
    ensures var r := Merge(d, RegionChange(cfg, d, regionId));
      && r.region == DefaultRegion(cfg).name
      && r.taxRate == DefaultTaxRate(cfg)
      && r.laborRate == DefaultRegion(cfg).rates.Rate(d.tradeType)
  {
    RegionChangeRate(cfg, d, regionId);
  }

  /** A click on a trade button: the trade and its rate, nothing else. */
  function TradeSelect(option: TradeOption): (u: FormUpdate)
    ensures u == NoChange.(tradeType := u.tradeType, laborRate := u.laborRate)
    ensures u.tradeType == Some(option.value) && u.laborRate == Some(option.defaultRate)
  {
    NoChange.(tradeType := Some(option.value), laborRate := Some(option.defaultRate))
  }

  /** Picking a shown trade sets the active region's rate for it. */
  lemma TradeSelectRate(cfg: Config, d: QuoteFormData, i: nat)
    requires i < |cfg.tradeOptionMeta|
    ensures var r := Merge(d, TradeSelect(ShownTradeOptions(cfg, d)[i]));
      var t := cfg.tradeOptionMeta[i].value;
      && r == d.(tradeType := t, laborRate := r.laborRate)
      && r.laborRate == RegionById(cfg, Some(ActiveRegion(cfg, d).id)).rates.Rate(t)
  {
  }

  /** A click on the emergency panel: the flag flips and nothing else changes. */
  function ToggleEmergency(d: QuoteFormData): (u: FormUpdate)
    ensures Merge(d, u) == d.(isEmergency := !d.isEmergency)
  {
    NoChange.(isEmergency := Some(!d.isEmergency))
  }

  /** Toggling twice restores the form. */
  lemma ToggleTwice(d: QuoteFormData)
    ensures Merge(Merge(d, ToggleEmergency(d)), ToggleEmergency(Merge(d, ToggleEmergency(d)))) == d
  {
  }
}
