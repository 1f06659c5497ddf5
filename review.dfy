/** The review step: choosing the final price, the warning banner and the save button. */
module Review {
  import opened Wrappers
  import opened QuoteTypes
  import opened Estimator

  /** The three tiers a click can select. */
  datatype TierChoice = PickRecommended | PickMinimum | PickDestructive

  /** `tierPrices[selectedTier]`. */
  function TierPriceOf(pricing: PricingResult, choice: TierChoice): (r: real)
    ensures r == pricing.recommendedPrice || r == pricing.minimumPrice || r == pricing.destructivePrice
    ensures Ordered(pricing) ==> pricing.destructivePrice <= r <= pricing.recommendedPrice
  {
    match choice
    case PickRecommended => pricing.recommendedPrice
    case PickMinimum => pricing.minimumPrice
    case PickDestructive => pricing.destructivePrice
  }

  /** `parseFloat(text) || 0`: the parsed number, or 0 when the text does not parse. */
  function ParsedOrZero(parse: string -> Option<real>, text: string): (r: real)
    ensures parse(text).Some? ==> r == parse(text).value
    ensures parse(text).None? ==> r == 0.0
  {
    parse(text).GetOr(0.0)
  }

  /** `finalPrice`: the parsed custom price when the custom field is in use, else the selected tier's price. */
  function FinalPriceOf(choice: TierChoice, customPrice: string, useCustom: bool,
                        pricing: PricingResult, parse: string -> Option<real>): (r: real)
    ensures useCustom ==> r == ParsedOrZero(parse, customPrice)
    ensures !useCustom ==> r in {pricing.recommendedPrice, pricing.minimumPrice, pricing.destructivePrice}
    ensures !useCustom && choice == PickRecommended ==> r == pricing.recommendedPrice
  {
    if useCustom then ParsedOrZero(parse, customPrice) else TierPriceOf(pricing, choice)
  }

  /** The selection state of the review step. */
  class ReviewSelection {
    var selectedTier: TierChoice
    var customPrice: string
    var useCustom: bool

    /** The recommended tier, an empty custom field, and the custom field not in use. */
    constructor ()
      ensures selectedTier == PickRecommended && customPrice == "" && !useCustom
    {
      selectedTier := PickRecommended;
      customPrice := "";
      useCustom := false;
    }

    /** A click on a tier card: select it and stop using the custom price, which is kept as typed. */
    method SelectTier(choice: TierChoice)
      modifies this
      ensures selectedTier == choice && !useCustom && customPrice == old(customPrice)
    {
      selectedTier := choice;
      useCustom := false;
    }

    /** Typing in the custom field: take the text and switch to it. */
    method EditCustom(text: string)
      modifies this
      ensures customPrice == text && useCustom && selectedTier == old(selectedTier)
    {
      customPrice := text;
      useCustom := true;
    }

    /** Focusing the custom field switches to it without changing the text. */
    method FocusCustom()
      modifies this
      ensures useCustom && customPrice == old(customPrice) && selectedTier == old(selectedTier)
    {
      useCustom := true;
    }

    /** The price the quote would be saved at. */
    function FinalPrice(pricing: PricingResult, parse: string -> Option<real>): (r: real)
      reads this
      ensures useCustom ==> r == ParsedOrZero(parse, customPrice)
      ensures !useCustom ==> r == TierPriceOf(pricing, selectedTier)
    {
      FinalPriceOf(selectedTier, customPrice, useCustom, pricing, parse)
    }
  }

  /** Before any click the final price is the recommended price. */
  lemma InitialFinalPrice(pricing: PricingResult, parse: string -> Option<real>)
    ensures FinalPriceOf(PickRecommended, "", false, pricing, parse) == pricing.recommendedPrice
  {
  }

  /** After a tier click the final price is that tier's price, whatever the custom field holds. */
  lemma SelectedTierPrice(choice: TierChoice, customPrice: string, pricing: PricingResult,
                          parse: string -> Option<real>)
    ensures FinalPriceOf(choice, customPrice, false, pricing, parse) == TierPriceOf(pricing, choice)
  {
  }

  datatype Severity = Danger | Warning

  /** `tier === 'below' || tier === 'destructive' ? 'danger' : 'warning'`. */
  function SeverityOf(t: PriceTier): (s: Severity)
    ensures s == Danger <==> t == Below || t == Destructive
  {
    if t == Below || t == Destructive then Danger else Warning
  }

  datatype Banner = Banner(message: string, severity: Severity)

  /** The banner under the price: shown only when there is a warning, coloured by the price's tier. */
  function BannerFor(price: real, pricing: PricingResult): (b: Option<Banner>)
    ensures b.None? <==> GetPriceWarning(price, pricing).None?
    ensures b.Some? ==> b.value.message == GetPriceWarning(price, pricing).value
                        && b.value.severity == SeverityOf(GetPriceTier(price, pricing))
  {
    match GetPriceWarning(price, pricing)
    case None => None
    case Some(message) => Some(Banner(message, SeverityOf(GetPriceTier(price, pricing))))
  }

  /**
   * With ordered thresholds: a banner shows exactly below the recommended price,
   * and it is a danger banner exactly below the minimum price.
   */
  lemma BannerThresholds(price: real, pricing: PricingResult)
    requires Ordered(pricing)
    ensures BannerFor(price, pricing).Some? <==> price < pricing.recommendedPrice
    ensures BannerFor(price, pricing).Some? && BannerFor(price, pricing).value.severity == Danger
            <==> price < pricing.minimumPrice
  {
    WarningMatchesTier(price, pricing);
  }

  /** The banner each tier card produces when its prices are distinct and ordered. */
  lemma TierChoiceBanners(pricing: PricingResult)
    requires pricing.destructivePrice < pricing.minimumPrice < pricing.recommendedPrice
    ensures BannerFor(TierPriceOf(pricing, PickRecommended), pricing).None?
    ensures BannerFor(TierPriceOf(pricing, PickMinimum), pricing) == Some(Banner(ThinMarginWarning, Warning))
    ensures BannerFor(TierPriceOf(pricing, PickDestructive), pricing) == Some(Banner(DevaluingWarning, Danger))
  {
  }

  /** `disabled={saving || finalPrice <= 0}`. */
  predicate SaveDisabled(saving: bool, finalPrice: real)
  {
    saving || finalPrice <= 0.0
  }

  /** An unparsable custom price is zero, so saving it is impossible. */
  lemma UnparsableCustomPriceBlocksSave(choice: TierChoice, customPrice: string, pricing: PricingResult,
                                        parse: string -> Option<real>, saving: bool)
    requires parse(customPrice).None?
    ensures SaveDisabled(saving, FinalPriceOf(choice, customPrice, true, pricing, parse))
  {
  }
}
