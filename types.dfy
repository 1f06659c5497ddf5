/**
 * The records and closed unions of the quoting tool (src/lib/types.ts).
 * Money, hours and percentages are exact reals; strings are character sequences.
 */
module QuoteTypes {
  import opened Wrappers

  datatype TradeType =
    | Masonry | Plumbing | Electrical | Remodeling | Landscaping
    | Roofing | Painting | Hvac | Carpentry | General

  datatype CustomerType = Residential | Commercial

  datatype QualityLevel = Economy | Standard | Premium

  datatype QuoteStatus = Draft | Sent | Accepted | Rejected

  datatype LineItemCategory = Labor | Materials | Other

  /** `Record<TradeType, number>`: one hourly rate for every trade. */
  datatype TradeRates = TradeRates(
    masonry: real, plumbing: real, electrical: real, remodeling: real, landscaping: real,
    roofing: real, painting: real, hvac: real, carpentry: real, general: real)
  {
    /** `rates[trade]`. */
    function Rate(t: TradeType): real
    {
      match t
      case Masonry => masonry
      case Plumbing => plumbing
      case Electrical => electrical
      case Remodeling => remodeling
      case Landscaping => landscaping
      case Roofing => roofing
      case Painting => painting
      case Hvac => hvac
      case Carpentry => carpentry
      case General => general
    }
  }

  datatype RegionPreset = RegionPreset(
    id: string,
    name: string,
    currency: string,
    taxRate: real,
    minimumVisitRate: real,
    emergencyMultiplier: real,
    minimumBillableHours: real,
    rates: TradeRates)

  /** A line item as it is edited in the quote form (no database identity). */
  datatype LineItem = LineItem(
    description: string,
    quantity: real,
    unit: string,
    unitPrice: real,
    category: LineItemCategory)

  /** The state of the new-quote form, which is also the estimator's input. */
  datatype QuoteFormData = QuoteFormData(
    projectName: string,
    tradeType: TradeType,
    clientName: string,
    clientEmail: string,
    clientPhone: string,
    clientAddress: string,
    customerType: CustomerType,
    qualityLevel: QualityLevel,
    region: string,
    isEmergency: bool,
    laborHours: real,
    laborRate: real,
    materialsCost: real,
    transportationCost: real,
    taxRate: real,
    adminOverheadPct: real,
    toolWearCost: real,
    profitMarginPct: real,
    notes: string,
    lineItems: seq<LineItem>)

  /** The estimator's output. */
  datatype PricingResult = PricingResult(
    baseLaborCost: real,
    materialsCost: real,
    transportationCost: real,
    toolWearCost: real,
    subtotal: real,
    adminOverhead: real,
    taxAmount: real,
    totalCost: real,
    recommendedPrice: real,
    minimumPrice: real,
    destructivePrice: real,
    recommendedMargin: real,
    minimumMargin: real,
    emergencyApplied: bool,
    minimumVisitApplied: bool,
    minimumHoursApplied: bool,
    effectiveLaborHours: real,
    emergencySurcharge: real,
    minimumVisitRate: real)

  /**
   * The profile columns the pages read. The ones the source reads through `??`
   * are nullable (None stands for null or undefined).
   */
  datatype Profile = Profile(
    fullName: Option<string>,
    companyName: string,
    defaultTrade: Option<TradeType>,
    defaultRegion: Option<string>,
    defaultQualityLevel: Option<QualityLevel>,
    defaultCustomerType: Option<CustomerType>,
    defaultIsEmergency: Option<bool>,
    defaultProfitMarginPct: Option<real>,
    defaultAdminOverheadPct: Option<real>)

  /** The two quote columns the dashboard aggregates. */
  datatype Quote = Quote(finalPrice: real, status: QuoteStatus)
}
