/**
 * The configuration tables of src/lib/constants.ts, gathered in one explicit
 * value that the engine and the pages receive instead of reading globals.
 */
module Constants {
  import opened Wrappers
  import opened Collections
  import opened QuoteTypes

  datatype TradeOptionMeta = TradeOptionMeta(value: TradeType, labelText: string, icon: string)

  /** A trade button: its metadata plus the hourly rate of the chosen region. */
  datatype TradeOption = TradeOption(value: TradeType, labelText: string, icon: string, defaultRate: real)

  datatype Settings = Settings(
    regionPresets: seq<RegionPreset>,
    tradeOptionMeta: seq<TradeOptionMeta>,
    qualityMultipliers: map<QualityLevel, real>,
    customerMultipliers: map<CustomerType, real>,
    defaultAdminOverhead: real,
    defaultProfitMargin: real,
    recommendedMarginMin: real,
    minimumMargin: real,
    destructiveMargin: real)

  /** `DEFAULT_REGION = REGION_PRESETS[0]` needs at least one preset. */
  type Config = c: Settings | c.regionPresets != [] witness StandardConfig()

  function DefaultRegion(cfg: Config): RegionPreset
  {
    cfg.regionPresets[0]
  }

  /** `DEFAULT_TAX_RATE` and the engine's `DEFAULT_*` constants: fields of the default region. */
  function DefaultTaxRate(cfg: Config): real { DefaultRegion(cfg).taxRate }
  function DefaultMinimumVisitRate(cfg: Config): real { DefaultRegion(cfg).minimumVisitRate }
  function DefaultEmergencyMultiplier(cfg: Config): real { DefaultRegion(cfg).emergencyMultiplier }
  function DefaultMinimumBillableHours(cfg: Config): real { DefaultRegion(cfg).minimumBillableHours }

  /** `QUALITY_MULTIPLIERS[level] ?? 1`. */
  function QualityMultiplier(cfg: Config, q: QualityLevel): (m: real)
    ensures q in cfg.qualityMultipliers ==> m == cfg.qualityMultipliers[q]
    ensures q !in cfg.qualityMultipliers ==> m == 1.0
  {
    if q in cfg.qualityMultipliers then cfg.qualityMultipliers[q] else 1.0
  }

  /** `CUSTOMER_MULTIPLIERS[type] ?? 1`. */
  function CustomerMultiplier(cfg: Config, c: CustomerType): (m: real)
    ensures c in cfg.customerMultipliers ==> m == cfg.customerMultipliers[c]
    ensures c !in cfg.customerMultipliers ==> m == 1.0
  {
    if c in cfg.customerMultipliers then cfg.customerMultipliers[c] else 1.0
  }

  /** `REGION_PRESETS.find((r) => r.id === regionId) ?? DEFAULT_REGION`; an absent id matches nothing. */
  function RegionById(cfg: Config, regionId: Option<string>): (r: RegionPreset)
    ensures r in cfg.regionPresets
    ensures (exists i :: 0 <= i < |cfg.regionPresets| && Some(cfg.regionPresets[i].id) == regionId)
            ==> Some(r.id) == regionId
    ensures (forall i :: 0 <= i < |cfg.regionPresets| ==> Some(cfg.regionPresets[i].id) != regionId)
            ==> r == DefaultRegion(cfg)
    ensures forall i :: 0 <= i < |cfg.regionPresets| && Some(cfg.regionPresets[i].id) == regionId
                        && (forall j :: 0 <= j < i ==> Some(cfg.regionPresets[j].id) != regionId)
                        ==> r == cfg.regionPresets[i]
  {
    Find(cfg.regionPresets, (p: RegionPreset) => Some(p.id) == regionId).GetOr(DefaultRegion(cfg))
  }

  /** `REGION_PRESETS.find((r) => r.name === name) ?? DEFAULT_REGION`, as the quote pages write it. */
  function RegionByName(cfg: Config, name: string): (r: RegionPreset)
    ensures r in cfg.regionPresets
    ensures (exists i :: 0 <= i < |cfg.regionPresets| && cfg.regionPresets[i].name == name) ==> r.name == name
    ensures (forall i :: 0 <= i < |cfg.regionPresets| ==> cfg.regionPresets[i].name != name)
            ==> r == DefaultRegion(cfg)
    ensures forall i :: 0 <= i < |cfg.regionPresets| && cfg.regionPresets[i].name == name
                        && (forall j :: 0 <= j < i ==> cfg.regionPresets[j].name != name)
                        ==> r == cfg.regionPresets[i]
  {
    Find(cfg.regionPresets, (p: RegionPreset) => p.name == name).GetOr(DefaultRegion(cfg))
  }

  /** `getTradeOptions(regionId)`: every trade of the metadata, in order, priced at the region's rate. */
  function GetTradeOptions(cfg: Config, regionId: Option<string>): (r: seq<TradeOption>)
    ensures |r| == |cfg.tradeOptionMeta|
    ensures forall i :: 0 <= i < |r| ==>
      var t := cfg.tradeOptionMeta[i];
      r[i].value == t.value && r[i].labelText == t.labelText && r[i].icon == t.icon
      && r[i].defaultRate == RegionById(cfg, regionId).rates.Rate(t.value)
  {
    var region := RegionById(cfg, regionId);
    seq(|cfg.tradeOptionMeta|, i requires 0 <= i < |cfg.tradeOptionMeta| =>
      var t := cfg.tradeOptionMeta[i];
      TradeOption(t.value, t.labelText, t.icon, region.rates.Rate(t.value)))
  }

  /** `tradeOptions.find((t) => t.value === trade)?.defaultRate ?? 95`, as the quote pages write it. */
  function RateForTrade(options: seq<TradeOption>, trade: TradeType): (r: real)
    ensures (forall i :: 0 <= i < |options| ==> options[i].value != trade) ==> r == FallbackRate
    ensures forall i :: 0 <= i < |options| && options[i].value == trade
                        && (forall j :: 0 <= j < i ==> options[j].value != trade)
                        ==> r == options[i].defaultRate
  {
    match Find(options, (t: TradeOption) => t.value == trade)
    case Some(t) => t.defaultRate
    case None => FallbackRate
  }

  const FallbackRate: real := 95.0

  /** The options of a region list the region's own rate for every trade the metadata mentions. */
  lemma RateForListedTrade(cfg: Config, regionId: Option<string>, trade: TradeType)
    requires Lists(cfg.tradeOptionMeta, trade)
    ensures RateForTrade(GetTradeOptions(cfg, regionId), trade) == RegionById(cfg, regionId).rates.Rate(trade)
  {
    var options := GetTradeOptions(cfg, regionId);
    var i :| 0 <= i < |cfg.tradeOptionMeta| && cfg.tradeOptionMeta[i].value == trade;
    RateOfListedOption(options, trade, i, RegionById(cfg, regionId).rates.Rate(trade));
  }

  /** When every option for the trade carries the same rate, the lookup finds that rate. */
  lemma RateOfListedOption(options: seq<TradeOption>, trade: TradeType, i: nat, rate: real)
    requires i < |options| && options[i].value == trade
    requires forall j :: 0 <= j < |options| && options[j].value == trade ==> options[j].defaultRate == rate
    ensures RateForTrade(options, trade) == rate
  {
    var isTrade := (t: TradeOption) => t.value == trade;
    assert isTrade(options[i]);
    var k := FirstIndex(options, isTrade).value;
    assert options[k].value == trade;
    assert forall j :: 0 <= j < k ==> options[j].value != trade by {
      forall j | 0 <= j < k
        ensures options[j].value != trade
      {
        assert !isTrade(options[j]);
      }
    }
  }

  /** A trade the metadata does not list gets the fixed fallback rate. */
  lemma RateForUnlistedTrade(cfg: Config, regionId: Option<string>, trade: TradeType)
    requires forall i :: 0 <= i < |cfg.tradeOptionMeta| ==> cfg.tradeOptionMeta[i].value != trade
    ensures RateForTrade(GetTradeOptions(cfg, regionId), trade) == FallbackRate
  {
    var options := GetTradeOptions(cfg, regionId);
    assert forall i :: 0 <= i < |options| ==> options[i].value != trade;
  }

  /** Some entry of the metadata is the button for `trade`. */
  predicate Lists(meta: seq<TradeOptionMeta>, trade: TradeType)
  {
    exists i :: 0 <= i < |meta| && meta[i].value == trade
  }

  predicate ListsEveryTrade(meta: seq<TradeOptionMeta>)
  {
    forall t: TradeType :: Lists(meta, t)
  }

  // ------------------------------------------------------------------
  // The shipped tables
  // ------------------------------------------------------------------

  const MontrealRates := TradeRates(
    masonry := 95.0, plumbing := 135.0, electrical := 135.0, remodeling := 110.0,
    landscaping := 75.0, roofing := 105.0, painting := 80.0, hvac := 155.0,
    carpentry := 95.0, general := 95.0)

  const Montreal := RegionPreset(
    id := "montreal", name := "Montreal, QC", currency := "CAD",
    taxRate := 14.975, minimumVisitRate := 140.0, emergencyMultiplier := 1.5,
    minimumBillableHours := 1.5, rates := MontrealRates)

  const TradeMeta: seq<TradeOptionMeta> := [
    TradeOptionMeta(Masonry, "Masonry", "Blocks"),
    TradeOptionMeta(Plumbing, "Plumbing", "Pipette"),
    TradeOptionMeta(Electrical, "Electrical", "Zap"),
    TradeOptionMeta(Remodeling, "Remodeling", "Hammer"),
    TradeOptionMeta(Landscaping, "Landscaping", "TreePine"),
    TradeOptionMeta(Roofing, "Roofing", "Home"),
    TradeOptionMeta(Painting, "Painting", "Paintbrush"),
    TradeOptionMeta(Hvac, "HVAC", "Wind"),
    TradeOptionMeta(Carpentry, "Carpentry", "Axe"),
    TradeOptionMeta(General, "General", "Wrench")]

  function StandardConfig(): Settings
  {
    Settings(
      regionPresets := [Montreal],
      tradeOptionMeta := TradeMeta,
      qualityMultipliers := map[Economy := 0.85, Standard := 1.0, Premium := 1.35],
      customerMultipliers := map[Residential := 1.0, Commercial := 1.15],
      defaultAdminOverhead := 10.0,
      defaultProfitMargin := 25.0,
      recommendedMarginMin := 25.0,
      minimumMargin := 12.0,
      destructiveMargin := 3.0)
  }

  /** `TRADE_OPTIONS = getTradeOptions()`. */
  function TradeOptions(): seq<TradeOption>
  {
    GetTradeOptions(StandardConfig(), None)
  }

  /** The defaults are the Montreal preset's fields, plus the fixed overhead and margin defaults. */
  lemma StandardDefaults()
    ensures DefaultRegion(StandardConfig()) == Montreal
    ensures DefaultTaxRate(StandardConfig()) == 14.975
    ensures DefaultMinimumVisitRate(StandardConfig()) == 140.0
    ensures DefaultEmergencyMultiplier(StandardConfig()) == 1.5
    ensures DefaultMinimumBillableHours(StandardConfig()) == 1.5
    ensures StandardConfig().defaultAdminOverhead == 10.0
    ensures StandardConfig().defaultProfitMargin == 25.0
  {
  }

  /** The three margin constants are strictly ordered. */
  lemma StandardMarginsOrdered()
    ensures 0.0 < StandardConfig().destructiveMargin < StandardConfig().minimumMargin
            < StandardConfig().recommendedMarginMin
  {
  }

  /** Every quality level and customer type has a table entry, all positive and ordered. */
  lemma StandardMultipliers()
    ensures forall q :: q in StandardConfig().qualityMultipliers
    ensures forall c :: c in StandardConfig().customerMultipliers
    ensures 0.0 < QualityMultiplier(StandardConfig(), Economy) < QualityMultiplier(StandardConfig(), Standard)
            < QualityMultiplier(StandardConfig(), Premium)
    ensures 0.0 < CustomerMultiplier(StandardConfig(), Residential) < CustomerMultiplier(StandardConfig(), Commercial)
  {
    forall q: QualityLevel ensures q in StandardConfig().qualityMultipliers {
      match q
      case Economy =>
      case Standard =>
      case Premium =>
    }
    forall c: CustomerType ensures c in StandardConfig().customerMultipliers {
      match c
      case Residential =>
      case Commercial =>
    }
  }

  /** The shipped metadata has a button for every trade. */
  lemma StandardListsEveryTrade()
    ensures ListsEveryTrade(StandardConfig().tradeOptionMeta)
  {
    forall t: TradeType
      ensures Lists(TradeMeta, t)
    {
      var i := match t
        case Masonry => 0 case Plumbing => 1 case Electrical => 2 case Remodeling => 3
        case Landscaping => 4 case Roofing => 5 case Painting => 6 case Hvac => 7
        case Carpentry => 8 case General => 9;
      assert TradeMeta[i].value == t;
    }
  }

  /** Any id other than "montreal", and a missing id, resolve to the Montreal preset. */
  lemma StandardRegionById(regionId: Option<string>)
    ensures RegionById(StandardConfig(), regionId) == Montreal
  {
  }

  /** `TRADE_OPTIONS` lists the ten trades in order with the Montreal rates. */
  lemma TradeOptionsAreMontrealRates()
    ensures |TradeOptions()| == 10
    ensures forall i :: 0 <= i < 10 ==>
      TradeOptions()[i].value == TradeMeta[i].value
      && TradeOptions()[i].defaultRate == MontrealRates.Rate(TradeMeta[i].value)
    ensures TradeOptions() == GetTradeOptions(StandardConfig(), Some("montreal"))
  {
    StandardRegionById(None);
    StandardRegionById(Some("montreal"));
  }
}
