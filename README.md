# Handy-estimator pricing core in Dafny

This project models the quoting tool's pricing core and the small rules on its pages.

- **The estimation engine** turns a job's inputs into a cost breakdown and three sell prices, each rounded to cents:
  - *recommended*: the profit margin, floored at 25 %;
  - *minimum*: +12 %;
  - *destructive*: +3 %.

  It can also place any proposed price against those three thresholds and pick the matching warning text.
- **The simplified tier calculator** is a separate policy: fixed markups of ×1.05, ×1.15 and ×1.35 on labour, materials and an overhead fraction.
- **The configuration tables** are modelled as one explicit `Config` value that the engine and the pages receive:
  - the region preset and its per-trade rates;
  - the quality and customer multipliers;
  - the overhead and margin defaults;
  - the trade buttons.

  `StandardConfig()` holds the shipped values.
- **The rules embedded in the pages:**
  - the line-item editor of the job-details step;
  - the dashboard's greeting and totals;
  - registration validation;
  - the header's display name and initials;
  - the new-quote wizard's initial form, its partial-update merge and its step machine;
  - region and trade switching;
  - the review step's price selection, warning banner and save rule.

Modelling choices:

- **Money, hours and percentages are exact `real`s.** `roundTo(x, 2)` is `Floor(x*100 + 1/2) / 100`. JavaScript's `Math.round` breaks ties toward +∞, so −0.125 rounds to −0.12.
- **Trades, quality levels, customer types, categories and statuses are closed datatypes.**
- **Nullable profile columns are `Option`s.** `x ?? d` is `GetOr(d)`, so a stored 0 is kept and only a missing value takes the default.
- **`parseFloat` is a parameter** `parse: string -> Option<real>`. `None` stands for NaN.
- **State the source updates in place is a class:**
  - the wizard's step and form data is `NewQuote.QuoteWizard`;
  - the review step's selection is `Review.ReviewSelection`;
  - the copy-then-assign row edit is a method over an array.

The module layout mirrors the source:

| module | file | source |
|---|---|---|
| `Wrappers` | `wrappers.dfy` | `Option` |
| `Text` | `text.dfy` | JavaScript's string builtins |
| `QuoteTypes` | `types.dfy` | `src/lib/types.ts` |
| `Collections` | `collections.dfy` | `find` |
| `Constants` | `constants.dfy` | `src/lib/constants.ts` |
| `Estimator` | `estimator.dfy` | `src/lib/estimator.ts` |
| `PricingEngine` | `pricing_engine.dfy` | `src/components/engine/pricingEngine.ts` |
| `JobDetails` | `job_details.dfy` | `src/pages/NewQuote/StepJobDetails.tsx` |
| `Dashboard` | `dashboard.dfy` | `src/pages/Dashboard.tsx` |
| `Register` | `register.dfy` | `src/pages/Register.tsx` |
| `Header` | `header.dfy` | `src/components/Header.tsx` |
| `FormUpdates` | `form_update.dfy` | `Partial<QuoteFormData>` |
| `TradeInfo` | `trade_info.dfy` | `src/pages/NewQuote/StepTradeInfo.tsx` |
| `NewQuote` | `new_quote.dfy` | `src/pages/NewQuote/index.tsx` |
| `Review` | `review.dfy` | `src/pages/NewQuote/StepReview.tsx` |
| `EstimatorScenarios` | `scenarios.dfy` | worked estimates |

Three details of the estimate that are easy to get wrong:

- **Rounding.** `Math.round` breaks ties toward +∞, so half a cent rounds up on both sides of zero (`Estimator.RoundCentsTies`).
- **The `subtotal` output field.** The result's `subtotal` field holds the direct costs (700 for the typical job), while the taxed subtotal also includes overhead (`Estimator.CostChain`, `EstimatorScenarios.ScenarioTypicalJob`).
- **The minimum-visit floor.** The floor raises only totals strictly between 0 and the minimum visit; zero and negative totals are left alone (`Estimator.MinimumVisitRule`).

## Model

| member | source | states |
|---|---|---|
| `Text.Split` | src/components/Header.tsx:32 | `split(sep)` gives at least one piece; no piece contains the separator; the first piece is the prefix of the input up to the first separator |
| `Text.JoinSplit` | src/components/Header.tsx:32-34 | joining (`JoinWith`) the pieces of a split with the same separator restores the string |
| `Text.SplitJoin` | src/components/Header.tsx:32-34 | splitting a join of separator-free pieces restores the pieces, so `split` and `join` are inverse |
| `Text.SplitPrefix` | src/pages/Dashboard.tsx:32 | a separator-free prefix stays glued to the first piece of whatever follows |
| `Text.TrimStart` | src/pages/Register.tsx:18-19 | drops exactly the leading white space: every dropped character is white space and the result does not start with one |
| `Text.TrimEnd` | src/pages/Register.tsx:18-19 | drops exactly the trailing white space, symmetrically |
| `Text.Trim` | src/pages/Register.tsx:18 | `trim()` is the slice of the input that starts and ends with a character other than white space, and every character cut off either end is white space |
| `Text.BlankIffAllWhitespace` | src/pages/Register.tsx:18-19 | `IsBlank(s)`, i.e. `!s.trim()`, holds exactly when every character of `s` is white space |
| `Text.ToUpperChar` | src/components/Header.tsx:35 | a lower-case ASCII letter becomes the upper-case letter 32 code points below it; every other character is kept |
| `Text.ToUpper` | src/components/Header.tsx:35 | keeps the length and upper-cases character by character |
| `Text.Take` | src/components/Header.tsx:36 | `slice(0, n)` is the prefix of length n, or the whole string when it is shorter |
| `Collections.FirstIndex` | src/lib/constants.ts:30 | the first index whose element satisfies the predicate, or none exactly when no element does |
| `Collections.Find` | src/lib/constants.ts:30 | `find` returns the first element of the list that satisfies the predicate, or nothing exactly when none does |
| `Constants.QualityMultiplier` | src/lib/estimator.ts:14 | the table entry for the level, or 1 when the table lacks it |
| `Constants.CustomerMultiplier` | src/lib/estimator.ts:15 | the table entry for the customer type, or 1 when the table lacks it |
| `Constants.RegionById` | src/lib/constants.ts:29-30 | the first preset with the given id when one exists, otherwise the default region; always one of the presets |
| `Constants.RegionByName` | src/pages/NewQuote/index.tsx:24 | the first preset with the given name when one exists, otherwise the default region |
| `Constants.GetTradeOptions` | src/lib/constants.ts:29-34 | one option per metadata entry, in order, keeping value, label and icon, and adding the resolved region's rate for that trade |
| `Constants.RateForTrade` | src/pages/NewQuote/index.tsx:26 | `find(...)?.defaultRate ?? 95`: the rate of the first option for the trade, or 95 when no option is for it |
| `Constants.RateForListedTrade` | src/pages/NewQuote/index.tsx:25-26 | for a trade the metadata lists, the looked-up rate is the region's own rate for it |
| `Constants.RateOfListedOption` | src/pages/NewQuote/index.tsx:26 | when some option is for the trade and every option for it carries the same rate, the lookup returns that rate |
| `Constants.RateForUnlistedTrade` | src/pages/NewQuote/index.tsx:26 | for a trade the metadata does not list, the looked-up rate is the fallback 95 |
| `Constants.StandardDefaults` | src/lib/constants.ts:80-85 | the defaults are the Montreal preset's fields: tax 14.975, minimum visit 140, emergency ×1.5, 1.5 billable hours; overhead 10 and margin 25 |
| `Constants.StandardMarginsOrdered` | src/lib/constants.ts:87-89 | 0 < destructive 3 < minimum 12 < recommended floor 25 |
| `Constants.StandardMultipliers` | src/lib/constants.ts:52-61 | every level and customer type has an entry; economy < standard < premium and residential < commercial, all positive |
| `Constants.StandardListsEveryTrade` | src/lib/constants.ts:37-48 | the shipped metadata has a button for each of the ten trades |
| `Constants.StandardRegionById` | src/lib/constants.ts:27-30 | with one preset, every id and a missing id resolve to Montreal |
| `Constants.TradeOptionsAreMontrealRates` | src/lib/constants.ts:50 | `TRADE_OPTIONS` lists the ten trades in order at the Montreal rates, the same list as for the id "montreal" |
| `Estimator.Max` | src/lib/estimator.ts:59 | `Math.max`: at least both arguments and equal to one of them |
| `Estimator.RoundCents` | src/lib/estimator.ts:107-110 | the result is a whole number of cents within half a cent of the input (the upper half-cent included) |
| `Estimator.RoundCentsMonotone` | src/lib/estimator.ts:107-110 | rounding never reverses the order of two amounts |
| `Estimator.RoundCentsIdempotent` | src/lib/estimator.ts:107-110 | whole cents are kept, so rounding twice is rounding once |
| `Estimator.RoundCentsTies` | src/lib/estimator.ts:107-110 | half a cent rounds toward +∞ on both sides of zero (0.125 → 0.13, −0.125 → −0.12) |
| `Estimator.EffectiveLaborHours` | src/lib/estimator.ts:18-20 | no hours bill nothing; otherwise the billed hours are the larger of the entered hours and the minimum |
| `Estimator.EmergencySurcharge` | src/lib/estimator.ts:25-27 | zero unless the job is an emergency with positive labour; never negative for a multiplier of at least 1 |
| `Estimator.EmergencyLabor` | src/lib/estimator.ts:26-29 | labour times the multiplier equals labour plus the surcharge; labour is unchanged otherwise; never negative for non-negative inputs |
| `Estimator.ItemsIn` | src/lib/estimator.ts:32 | the filter keeps only items of the category and is no longer than its input |
| `Estimator.RawLaborCost` | src/lib/estimator.ts:17-22 | labour before the emergency rule; a job with no hours costs no labour |
| `Estimator.SumAmounts` | src/lib/estimator.ts:33 | items with non-negative quantities and prices sum to a non-negative amount |
| `Estimator.SumAmountsAppend` | src/lib/estimator.ts:33 | the sum of `quantity * unit_price` over a concatenation is the sum of the two sums |
| `Estimator.ItemsInAppend` | src/lib/estimator.ts:31-41 | filtering a concatenation concatenates the filtered parts |
| `Estimator.CategoryTotalAppend` | src/lib/estimator.ts:31-41 | the category total of a concatenation is the sum of the two totals |
| `Estimator.CategoriesPartitionItems` | src/lib/estimator.ts:31-41 | every line item lands in exactly one of the three category filters: together they are a permutation of the list |
| `Estimator.CategoriesPartitionTotal` | src/lib/estimator.ts:31-41 | the materials, labour and other totals (`CategoryTotal`) add up to the amount of the whole list |
| `Estimator.CategoryTotalNonNegative` | src/lib/estimator.ts:31-41 | items with non-negative quantity and price give a non-negative category total |
| `Estimator.ApplyMinimumVisit` | src/lib/estimator.ts:54-57 | never lowers the total; a positive total reaches at least the floor; totals that are not positive, or already at the floor, are unchanged |
| `Estimator.TierPrice` | src/lib/estimator.ts:60-75 | a tier price is a whole number of cents |
| `Estimator.TierPriceMonotone` | src/lib/estimator.ts:60-62 | on a non-negative total, a larger margin never gives a smaller price |
| `Estimator.PercentOf` | src/lib/estimator.ts:49-51 | a zero amount or percentage gives 0; a non-negative percentage of a non-negative amount is non-negative; 100 % is the amount itself |
| `Estimator.RawLaborCostNonNegative` | src/lib/estimator.ts:22 | non-negative hours, rate and multipliers give non-negative labour |
| `Estimator.CalculatePricing` | src/lib/estimator.ts:13-85 | the three prices are whole cents; the recommended margin is at least the entered margin and the 25-floor; the total is at least the taxed subtotal, and equals the minimum visit when the floor applies; `emergencyApplied` is the checkbox |
| `Estimator.LaborHoursRule` | src/lib/estimator.ts:17-20 | billed hours are 0 for no labour, else `max(hours, minimum)`; `minimumHoursApplied` holds exactly when `0 < hours < minimum` and then bills the minimum |
| `Estimator.EmergencyRule` | src/lib/estimator.ts:24-29 | `emergencyApplied` always equals the checkbox; labour is scaled and the rounded surcharge reported only when there is positive labour, else the surcharge is 0 |
| `Estimator.LineItemOutputs` | src/lib/estimator.ts:43-45 | reported materials are the form's plus the materials items; reported labour is the adjusted labour plus the labour items |
| `Estimator.CostChain` | src/lib/estimator.ts:47-52 | `subtotal` is the six direct-cost terms; overhead is a percentage of it; tax is charged on direct costs plus overhead; without the floor the total is their sum |
| `Estimator.MinimumVisitRule` | src/lib/estimator.ts:52-57 | the floor applies exactly when the pre-floor total is strictly between 0 and the minimum visit rate, and then the total is that rate; a zero total stays zero |
| `Estimator.MarginRule` | src/lib/estimator.ts:59-77 | the recommended margin is `max(margin, 25-floor)`; the three prices are the total at the recommended, minimum and destructive margins, each in whole cents |
| `Estimator.TiersOrdered` | src/lib/estimator.ts:59-75 | with ordered margin constants and a non-negative total, destructive ≤ minimum ≤ recommended |
| `Estimator.SubtotalNonNegative` | src/lib/estimator.ts:47 | non-negative inputs give non-negative direct costs |
| `Estimator.NonNegativeInputsGiveOrderedTiers` | src/lib/estimator.ts:47-62 | non-negative inputs give a non-negative total, and so ordered tier prices |
| `Estimator.GetPriceTier` | src/lib/estimator.ts:100-105 | the tier is "recommended" exactly at or above the recommended price; each lower tier is bounded by its own threshold and the next one up |
| `Estimator.TierMonotone` | src/lib/estimator.ts:100-105 | a higher price never lands in a lower tier |
| `Estimator.TierAtThresholds` | src/lib/estimator.ts:100-105 | a price equal to a threshold takes that threshold's (higher) tier |
| `Estimator.GetPriceWarning` | src/lib/estimator.ts:87-98 | there is no warning exactly when the price reaches all three thresholds |
| `Estimator.WarningMatchesTier` | src/lib/estimator.ts:87-105 | with ordered thresholds the warning is the tier's message: below cost for "below", devaluing for "destructive", thin margin for "minimum", none exactly for "recommended" |
| `PricingEngine.OverheadCost` | src/components/engine/pricingEngine.ts:16 | overhead is labour times the raw fraction, i.e. the engine's percentage of labour at 100 × the fraction; zero labour or fraction gives none |
| `PricingEngine.BaseCost` | src/components/engine/pricingEngine.ts:18-21 | with non-negative labour and overhead fraction the base is at least labour plus materials, and exactly that with no overhead |
| `PricingEngine.CalculateTierPrices` | src/components/engine/pricingEngine.ts:15-28 | each tier divided by its factor (1.05, 1.15, 1.35) is the base cost, unrounded; the tiers are ordered exactly when the base is non-negative and reversed when it is negative; zero labour and materials give three zeros |
| `JobDetails.BlankLineItem` | src/pages/NewQuote/StepJobDetails.tsx:17 | the appended row is worth nothing |
| `JobDetails.AddLineItem` | src/pages/NewQuote/StepJobDetails.tsx:13-20 | exactly one blank row at the end; every existing row kept in place |
| `JobDetails.RemoveLineItem` | src/pages/NewQuote/StepJobDetails.tsx:28-30 | an in-range index drops exactly that row, keeping the others in order; any other index changes nothing |
| `JobDetails.ApplyUpdate` | src/pages/NewQuote/StepJobDetails.tsx:24 | each field the update carries overwrites; every other field is kept |
| `JobDetails.EmptyUpdateKeepsItem` | src/pages/NewQuote/StepJobDetails.tsx:24 | an update with no fields leaves the row as it was |
| `JobDetails.ApplyUpdateIdempotent` | src/pages/NewQuote/StepJobDetails.tsx:24 | applying an update twice is applying it once |
| `JobDetails.UpdateLineItem` | src/pages/NewQuote/StepJobDetails.tsx:22-26 | the copied list keeps its length; the row at the index is the updated row; every other row is unchanged |
| `JobDetails.RemoveUndoesAdd` | src/pages/NewQuote/StepJobDetails.tsx:13-30 | removing the row just added restores the list |
| `JobDetails.AddKeepsCategoryTotals` | src/pages/NewQuote/StepJobDetails.tsx:13-20 | adding a blank row changes no category total of the estimate |
| `JobDetails.RemoveCategoryTotal` | src/pages/NewQuote/StepJobDetails.tsx:28-30 | removing a row takes its amount off its own category's total and leaves the other totals alone |
| `JobDetails.BelowMinHoursIsEngineFlag` | src/pages/NewQuote/StepJobDetails.tsx:33 | the step's hint (`BelowMinHours`) shows exactly when the engine reports the minimum-hours rule, and then the minimum is billed |
| `JobDetails.CanProceedBillsLabor` | src/pages/NewQuote/StepJobDetails.tsx:32 | the step can be left (`CanProceed`) exactly when the engine bills some labour, and then at least the entered hours |
| `Dashboard.SumPrices` | src/pages/Dashboard.tsx:35 | the sum of final prices is not negative when no price is |
| `Dashboard.TotalQuoted` | src/pages/Dashboard.tsx:35 | the total quoted is not negative when no price is |
| `Dashboard.AcceptedQuotes` | src/pages/Dashboard.tsx:36-37 | keeps only accepted quotes and is no longer than the list |
| `Dashboard.AcceptedQuotesExact` | src/pages/Dashboard.tsx:36-37 | the filter keeps every accepted quote as often as the list holds it, and nothing else |
| `Dashboard.PendingOf` | src/pages/Dashboard.tsx:39 | keeps only draft and sent quotes and is no longer than the list |
| `Dashboard.PendingOfExact` | src/pages/Dashboard.tsx:39 | the filter keeps every draft and sent quote as often as the list holds it, and nothing else |
| `Dashboard.PendingOfSnoc` | src/pages/Dashboard.tsx:39 | filtering a list extended by one quote extends the filtered list by that quote exactly when it is pending |
| `Dashboard.PendingCount` | src/pages/Dashboard.tsx:39 | the filtered list is exactly as long as the number of positions holding a pending quote |
| `Dashboard.PendingQuotes` | src/pages/Dashboard.tsx:39 | the pending count is the number of positions holding a draft or sent quote, so at most the number of quotes |
| `Dashboard.AcceptedSumAtMostSum` | src/pages/Dashboard.tsx:35-38 | with no negative prices, the accepted quotes sum to between 0 and the sum of all quotes |
| `Dashboard.AcceptedRevenue` | src/pages/Dashboard.tsx:36-38 | with no negative prices, 0 ≤ accepted revenue ≤ total quoted |
| `Dashboard.AllAcceptedRevenueIsTotal` | src/pages/Dashboard.tsx:35-38 | when every quote is accepted the two figures agree |
| `Dashboard.AcceptedAndPendingDisjoint` | src/pages/Dashboard.tsx:36-39 | accepted and pending quotes together never outnumber the list |
| `Dashboard.FirstName` | src/pages/Dashboard.tsx:32 | the greeting is non-empty and space-free: the text of the full name before its first space, or "there" when that is empty or the profile or name is missing |
| `Register.Validate` | src/pages/Register.tsx:17-23 | no message exactly when all four checks pass; otherwise the message of the first failing check in the order name, email, length, match |
| `Register.WhitespaceNameRefused` | src/pages/Register.tsx:18 | a name of only white space gets the name error whatever the other fields hold |
| `Register.SixSpacesAccepted` | src/pages/Register.tsx:20-21 | the password is not trimmed: six spaces, confirmed, pass |
| `Header.DisplayName` | src/components/Header.tsx:30 | the full name when non-empty, else the email text before its first '@' when non-empty, else "User"; never empty |
| `Header.Heads` | src/components/Header.tsx:33-34 | at most one character per word |
| `Header.HeadsAppend` | src/components/Header.tsx:33-34 | the heads of concatenated word lists are the concatenated heads |
| `Header.EmptyWordIgnored` | src/components/Header.tsx:32-34 | an empty word, as repeated spaces produce, contributes nothing |
| `Header.Initials` | src/components/Header.tsx:31-36 | at most two characters, no ASCII lower-case letter: the upper-cased first characters of the first two non-empty words |
| `Header.TwoWordInitials` | src/components/Header.tsx:31-36 | two words separated by one space or by two give the same two initials |
| `FormUpdates.Merge` | src/pages/NewQuote/index.tsx:59-61 | an update that lists no field leaves the form as it was |
| `FormUpdates.MergeIdempotent` | src/pages/NewQuote/index.tsx:59-61 | merging the same update twice is merging it once |
| `FormUpdates.MergeThen` | src/pages/NewQuote/index.tsx:59-61 | two merges in a row are one merge of the combined update, in which the later fields win |
| `TradeInfo.CanProceedNeedsVisibleName` | src/pages/NewQuote/StepTradeInfo.tsx:13 | the step can be left (`CanProceed`) exactly when the project name has a character other than white space |
| `TradeInfo.ActiveRegion` | src/pages/NewQuote/StepTradeInfo.tsx:14 | the first preset whose name is the form's region, or the default region when no preset has that name; always one of the presets |
| `TradeInfo.ShownTradeOptions` | src/pages/NewQuote/StepTradeInfo.tsx:15 | one trade button per metadata entry |
| `TradeInfo.RegionChange` | src/pages/NewQuote/StepTradeInfo.tsx:17-25 | the update carries only region, labour rate and tax rate: the resolved region's name and tax, and the new options' rate for the current trade |
| `TradeInfo.RegionChangeTouchesThreeFields` | src/pages/NewQuote/StepTradeInfo.tsx:21-25 | after the merge only those three fields differ from the form |
| `TradeInfo.RegionChangeRate` | src/pages/NewQuote/StepTradeInfo.tsx:19-23 | for a listed trade the new labour rate is the chosen region's rate for it |
| `TradeInfo.UnknownRegionFallsBack` | src/pages/NewQuote/StepTradeInfo.tsx:18-24 | an unknown region id gives the default region's name, tax and rate |
| `TradeInfo.TradeSelect` | src/pages/NewQuote/StepTradeInfo.tsx:56-60 | a trade click sets the trade and its rate, and nothing else |
| `TradeInfo.TradeSelectRate` | src/pages/NewQuote/StepTradeInfo.tsx:52-60 | picking a shown trade sets the active region's rate for that trade and keeps every other field |
| `TradeInfo.ToggleEmergency` | src/pages/NewQuote/StepTradeInfo.tsx:90 | the merged form differs only in the flipped emergency flag |
| `TradeInfo.ToggleTwice` | src/pages/NewQuote/StepTradeInfo.tsx:90 | two clicks restore the form |
| `NewQuote.TradeDefault` | src/pages/NewQuote/index.tsx:22 | `profile?.default_trade ?? 'general'`: the stored trade when there is one, else general |
| `NewQuote.RegionNameDefault` | src/pages/NewQuote/index.tsx:23 | `profile?.default_region ?? DEFAULT_REGION.name`: the stored region when there is one, else the default region's name |
| `NewQuote.BuildInitialData` | src/pages/NewQuote/index.tsx:21-50 | the trade and region name come from the profile or default to general and the default region; rate and tax come from the region found by that name; the text fields, costs and line items start empty or zero; the other defaults apply only to missing profile values |
| `NewQuote.StoredZeroKept` | src/pages/NewQuote/index.tsx:44-46 | a stored 0 overhead or margin is kept, not replaced by 10 or 25 |
| `NewQuote.RegionByOwnId` | src/lib/constants.ts:30 | with unique ids, looking a preset up by its own id finds that preset |
| `NewQuote.InitialRegionRates` | src/pages/NewQuote/index.tsx:24-43 | the initial rate and tax are the resolved region's; an unknown region name resolves to the default region while the form keeps the name |
| `NewQuote.StandardInitialData` | src/pages/NewQuote/index.tsx:21-50 | without a profile, the shipped tables give a general job in "Montreal, QC" at 95 an hour, 14.975 % tax, 10 % overhead and 25 % margin |
| `NewQuote.QuoteWizard.constructor` | src/pages/NewQuote/index.tsx:55-56 | the wizard starts on step 0 with the initial form |
| `NewQuote.QuoteWizard.HandleChange` | src/pages/NewQuote/index.tsx:59-61 | the form becomes the merge of the old form and the update; the step stays |
| `NewQuote.QuoteWizard.Next` | src/pages/NewQuote/index.tsx:133-142 | advances one step exactly when the current step's check (`CanAdvance`) passes (project name on step 0, labour on step 1, none on step 2); the form stays |
| `NewQuote.QuoteWizard.Back` | src/pages/NewQuote/index.tsx:137-143 | goes back one step from steps 1 to 3; the form stays |
| `NewQuote.NextThenBack` | src/pages/NewQuote/index.tsx:133-143 | when the step could advance, next then back returns to the same step with the same form |
| `Review.TierPriceOf` | src/pages/NewQuote/StepReview.tsx:22-26 | `tierPrices[selectedTier]` is one of the three tier prices, and between the destructive and recommended prices when they are ordered |
| `Review.ParsedOrZero` | src/pages/NewQuote/StepReview.tsx:28 | the parsed number, or 0 when the text does not parse |
| `Review.FinalPriceOf` | src/pages/NewQuote/StepReview.tsx:22-28 | with the custom field in use, the parsed custom price (0 if unparsable); otherwise one of the three tier prices, the recommended one for the recommended choice |
| `Review.ReviewSelection.constructor` | src/pages/NewQuote/StepReview.tsx:18-20 | the recommended tier, an empty custom field, not in use |
| `Review.ReviewSelection.SelectTier` | src/pages/NewQuote/StepReview.tsx:89-103 | a tier click selects that tier and clears the custom flag, keeping the typed text |
| `Review.ReviewSelection.EditCustom` | src/pages/NewQuote/StepReview.tsx:125 | typing stores the text and sets the custom flag |
| `Review.ReviewSelection.FocusCustom` | src/pages/NewQuote/StepReview.tsx:126 | focusing sets the custom flag and changes nothing else |
| `Review.ReviewSelection.FinalPrice` | src/pages/NewQuote/StepReview.tsx:28 | the parsed custom price when the flag is set, else the selected tier's price |
| `Review.InitialFinalPrice` | src/pages/NewQuote/StepReview.tsx:18-28 | before any click the final price is the recommended price |
| `Review.SelectedTierPrice` | src/pages/NewQuote/StepReview.tsx:22-28 | after a tier click the final price is that tier's price, whatever the custom field holds |
| `Review.SeverityOf` | src/pages/NewQuote/StepReview.tsx:138 | "danger" exactly for the below and destructive tiers, otherwise "warning" |
| `Review.BannerFor` | src/pages/NewQuote/StepReview.tsx:135-139 | a banner appears exactly when there is a warning, with its message and the severity of the price's tier |
| `Review.BannerThresholds` | src/pages/NewQuote/StepReview.tsx:29-30 | with ordered thresholds, a banner shows exactly below the recommended price and is a danger banner exactly below the minimum price |
| `Review.TierChoiceBanners` | src/pages/NewQuote/StepReview.tsx:84-104 | with distinct ordered prices, the recommended card shows no banner, the minimum card a thin-margin warning, the destructive card a devaluing danger |
| `Review.UnparsableCustomPriceBlocksSave` | src/pages/NewQuote/StepReview.tsx:173 | an unparsable custom price counts as 0, so save is disabled (`SaveDisabled`) |
| `EstimatorScenarios.StandardConfigShipsEngineSettings` | src/lib/constants.ts:52-89 | the shipped tables have standard/residential multipliers 1, 1.5 minimum hours, a 140 minimum visit, ×1.5 emergency and margins 25/12/3 |
| `EstimatorScenarios.ScenarioTypicalJob` | src/lib/estimator.ts:13-85 | 10 h at 50, 200 of materials, 10 % overhead and 15 % tax give labour 500, subtotal (direct costs) 700, overhead 70, tax 115.50, total 885.50 and prices 1106.88, 991.76 and 912.07 |
| `EstimatorScenarios.TypicalJobTierPrices` | src/lib/estimator.ts:59-77 | a total of 885.50 prices at 1106.88, 991.76 and 912.07 at 25, 12 and 3 % |
| `EstimatorScenarios.RecommendedCentAboveMinimum` | src/lib/estimator.ts:59-77 | from a total of 140 on, a margin of at least 25 % prices more than a cent above the 12 % tier |
| `EstimatorScenarios.ScenarioMinimumHours` | src/lib/estimator.ts:17-20 | half an hour is billed as 1.5 hours and flagged |
| `EstimatorScenarios.ScenarioEmergencyWithoutLabor` | src/lib/estimator.ts:24-29 | an emergency without labour is flagged, with a zero surcharge |
| `EstimatorScenarios.ScenarioMinimumVisit` | src/lib/estimator.ts:52-57 | a pre-floor total of 11.50 is raised to 140 and flagged |
| `EstimatorScenarios.OneCentBelowRecommended` | src/lib/estimator.ts:100-105 | with the shipped settings and a positive total, one cent below the recommended price is the minimum tier |
| `EstimatorScenarios.NegativeTotalDisagreement` | src/lib/estimator.ts:87-105 | with a negative total (−100 of materials) the thresholds reverse, and a price of −110 is "recommended" while the warning says it is below cost |

## Left out

- **External services.** Supabase I/O is not modelled: loading, inserting, updating, deleting and duplicating quotes, the share page, profile and password saves, and the session context. The quote list and the profile are parameters.
- **Presentation.** JSX rendering, styling, routing, navigation, the clipboard, `window.print` and timers are not modelled.
- **`src/components/PriceTier.tsx`.** It is presentational; its trailing lines refer to an undefined `tiers`.
- **Settings and Login pages.** Their validation is interleaved with async calls. The settings page's password checks duplicate `Register.Validate`.
- **IEEE-754 arithmetic.** Amounts are exact reals, so binary rounding artefacts, `toFixed`, `formatCurrency` and the display-only profit figures are not reproduced.
- **`parseFloat`.** It is an abstract `parse` parameter, so which texts parse to which numbers is not modelled.
- Text.ToUpperChar: upper-cases ASCII letters only. Upper-casing beyond ASCII is not modelled, including characters whose upper case is longer.
- Text.Split: works on code points, as do the other string functions; JavaScript indexes UTF-16 code units, so `n[0]` of a word starting with an astral character differs.
- Register.Validate: measures the password in code points, while `password.length` counts UTF-16 code units, so a password with astral characters can fail the six-character check here while the browser accepts it.
- JobDetails.UpdateLineItem: requires an index in range. The page only passes the indices of rendered rows. JavaScript would write a new row past the end for an out-of-range index, and that is not modelled.
- TradeInfo.CanProceed: checks only the project name. The trade is a value of a closed type, so the `trade_type` truthiness test cannot fail.
- NewQuote.QuoteWizard.Next: follows the enabled state of each step's continue button (StepTradeInfo, StepJobDetails; StepCosts has no condition). What the step components render is not modelled.
- **Other edits on the costs step.** They go through the same `handleChange` merge as every step and are covered by `FormUpdates.Merge`. The save handler, which builds a database row and navigates, is not modelled.
- **`EstimatorScenarios` lemmas.** They are stated for any configuration with the shipped engine settings (`ShippedEngineSettings`) rather than for `StandardConfig()` by name; `StandardConfigShipsEngineSettings` connects the two.
- **The share page's raw `hours × rate` total.** It is display-only and is not modelled.
