/**
 * Partial updates of the new-quote form: every step reports its edits as a
 * record of the fields it changes, and the wizard spreads that record over
 * the current form state.
 */
module FormUpdates {
  import opened Wrappers
  import opened QuoteTypes

  /** `Partial<QuoteFormData>`: None marks a field the update does not mention. */
  datatype FormUpdate = FormUpdate(
    projectName: Option<string>,
    tradeType: Option<TradeType>,
    clientName: Option<string>,
    clientEmail: Option<string>,
    clientPhone: Option<string>,
    clientAddress: Option<string>,
    customerType: Option<CustomerType>,
    qualityLevel: Option<QualityLevel>,
    region: Option<string>,
    isEmergency: Option<bool>,
    laborHours: Option<real>,
    laborRate: Option<real>,
    materialsCost: Option<real>,
    transportationCost: Option<real>,
    taxRate: Option<real>,
    adminOverheadPct: Option<real>,
    toolWearCost: Option<real>,
    profitMarginPct: Option<real>,
    notes: Option<string>,
    lineItems: Option<seq<LineItem>>)

  /** The update that mentions no field. */
  const NoChange: FormUpdate := FormUpdate(None, None, None, None, None, None, None, None, None, None, None, None, None, None, None, None, None, None, None, None)

  /** `{ ...prev, ...updates }`: every mentioned field is replaced, every other one kept. */
  function Merge(d: QuoteFormData, u: FormUpdate): (r: QuoteFormData)
    ensures u == NoChange ==> r == d
  {
    QuoteFormData(
      projectName := u.projectName.GetOr(d.projectName),
      tradeType := u.tradeType.GetOr(d.tradeType),
      clientName := u.clientName.GetOr(d.clientName),
      clientEmail := u.clientEmail.GetOr(d.clientEmail),
      clientPhone := u.clientPhone.GetOr(d.clientPhone),
      clientAddress := u.clientAddress.GetOr(d.clientAddress),
      customerType := u.customerType.GetOr(d.customerType),
      qualityLevel := u.qualityLevel.GetOr(d.qualityLevel),
      region := u.region.GetOr(d.region),
      isEmergency := u.isEmergency.GetOr(d.isEmergency),
      laborHours := u.laborHours.GetOr(d.laborHours),
      laborRate := u.laborRate.GetOr(d.laborRate),
      materialsCost := u.materialsCost.GetOr(d.materialsCost),
      transportationCost := u.transportationCost.GetOr(d.transportationCost),
      taxRate := u.taxRate.GetOr(d.taxRate),
      adminOverheadPct := u.adminOverheadPct.GetOr(d.adminOverheadPct),
      toolWearCost := u.toolWearCost.GetOr(d.toolWearCost),
      profitMarginPct := u.profitMarginPct.GetOr(d.profitMarginPct),
      notes := u.notes.GetOr(d.notes),
      lineItems := u.lineItems.GetOr(d.lineItems))
  }

  /** The later of two optional values, when it is there. */
  function Latest<T>(first: Option<T>, second: Option<T>): (r: Option<T>)
    ensures second.Some? ==> r == second
    ensures second.None? ==> r == first
  {
    if second.Some? then second else first
  }

  /** Two updates as one: fields of the second win, fields only the first mentions stay. */
  function Then(first: FormUpdate, second: FormUpdate): FormUpdate
  {
    FormUpdate(
      projectName := Latest(first.projectName, second.projectName),
      tradeType := Latest(first.tradeType, second.tradeType),
      clientName := Latest(first.clientName, second.clientName),
      clientEmail := Latest(first.clientEmail, second.clientEmail),
      clientPhone := Latest(first.clientPhone, second.clientPhone),
      clientAddress := Latest(first.clientAddress, second.clientAddress),
      customerType := Latest(first.customerType, second.customerType),
      qualityLevel := Latest(first.qualityLevel, second.qualityLevel),
      region := Latest(first.region, second.region),
      isEmergency := Latest(first.isEmergency, second.isEmergency),
      laborHours := Latest(first.laborHours, second.laborHours),
      laborRate := Latest(first.laborRate, second.laborRate),
      materialsCost := Latest(first.materialsCost, second.materialsCost),
      transportationCost := Latest(first.transportationCost, second.transportationCost),
      taxRate := Latest(first.taxRate, second.taxRate),
      adminOverheadPct := Latest(first.adminOverheadPct, second.adminOverheadPct),
      toolWearCost := Latest(first.toolWearCost, second.toolWearCost),
      profitMarginPct := Latest(first.profitMarginPct, second.profitMarginPct),
      notes := Latest(first.notes, second.notes),
      lineItems := Latest(first.lineItems, second.lineItems))
  }

  /** Applying the same update twice is applying it once. */
  lemma MergeIdempotent(d: QuoteFormData, u: FormUpdate)
    ensures Merge(Merge(d, u), u) == Merge(d, u)
  {
  }

  /** Two updates in a row are one combined update. */
  lemma MergeThen(d: QuoteFormData, first: FormUpdate, second: FormUpdate)
    ensures Merge(Merge(d, first), second) == Merge(d, Then(first, second))
  {
  }
}
