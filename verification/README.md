# Credify core, modelled in Dafny

Credify is a client-side credit-card browser. A fixed catalog of six Indian
credit cards is shown in a grid. The user narrows the grid with a filter panel
(free-text search, bank, tier and category facets, fee and salary ranges,
lounge and fuel-waiver checkboxes), or asks a keyword "assistant" whose answer
restricts the grid to the card ids it names. Up to three cards can be put side
by side in a comparison panel.

This project models that logic as immutable datatypes and pure functions:

| file | module | models |
|---|---|---|
| `options.dfy` | `Options` | `Option<T>`, for nullable values and tri-state flags |
| `seqs.dfy` | `Seqs` | `Array.filter`, removal of every occurrence of a value, order-preserving sublists, and a cascade of optional filter steps |
| `text.dfy` | `Text` | `toLowerCase` (ASCII A-Z), `includes` and `trim` on strings |
| `catalog.dfy` | `Catalog` | the `CreditCard` record and the six-card catalog |
| `filters.dfy` | `Filters` | `FilterState` and the filter panel's editing helpers |
| `evaluator.dfy` | `Evaluator` | the `filteredCards` evaluator, step by step, and its one-predicate reference definition |
| `session.dfy` | `Session` | the home page's state: comparison list, assistant restriction, and their handlers |
| `matcher.dfy` | `Matcher` | `processAIQuery`, the ordered first-match keyword table |
| `samples.dfy` | `Samples` | the five sample queries and the answer each one gets |
| `assistant.dfy` | `Assistant` | the assistant panel's input, history and submission, joined to the page |

The main operations are proved against a partner definition:

- the step-by-step evaluator against the nine conditions `Evaluator.Admits`;
- the matcher's chain of tests against the rule table `Matcher.Rules` read by
  `Matcher.FirstMatch`;
- the badge count against the number of active facets;
- the toggles against their double application;
- the comparison handlers against their double application and the list's
  validity;
- the lounge, no-fee and budget-premium id lists against a filter over the
  catalog, and the fuel list against one with a single exception (below).

The first-time, comparison, online and fallback id lists are canned data. The
model checks only that each is non-empty, repeats no id and names only catalog
cards (`Matcher.ResponsesWellFormed`).

The fuel answer's summary speaks of cards that waive the fuel surcharge. Its
list holds every waiving catalog card except American Express Platinum Travel,
which waives the surcharge too (`Matcher.FuelIdsAreWaivingCardsButAmex`). The
model keeps the list as the code writes it.

The fuel-surcharge filter is kept exactly as the code writes it. The card field
`fuelSurcharge` is true when the surcharge is charged. The fuel step keeps a
card when the negated field equals the flag. The "Fuel Surcharge Waiver"
checkbox writes `false`. So ticking it shows only ICICI Amazon Pay, the one card
that charges the surcharge (`Evaluator.FuelWaiverCheckboxShowsSurchargedCard`).
A flag of `true` shows the five waiving cards
(`Evaluator.FuelFlagTrueShowsWaivingCards`).

## Model

| member | source | states |
|---|---|---|
| Catalog.CardTypeNamesExact | src/data/creditCards.ts:6 | the card tier is one of exactly four distinct names, which are the four the type facet offers |
| Catalog.OfferKindNamesExact | src/data/creditCards.ts:25 | an offer's type is one of exactly three distinct names |
| Catalog.CatalogIdsDistinct | src/data/creditCards.ts:29-269 | the catalog has six cards, with these six ids in this order, no id twice |
| Catalog.CatalogWithinDefaultRanges | src/data/creditCards.ts:29-269 | every annual fee lies in [0, 100000] and every minimum salary in [0, 3000000] |
| Catalog.OnlyFreeCardIsIcici | src/data/creditCards.ts:110-114 | a catalog card has annual fee 0 exactly when it is icici-amazon-pay |
| Catalog.OnlySurchargedCardIsIcici | src/data/creditCards.ts:110-119 | a catalog card charges the fuel surcharge, and lacks lounge access, exactly when it is icici-amazon-pay |
| Catalog.JoiningFeeIsAnnualFee | src/data/creditCards.ts:29-269 | every card's joining fee equals its annual fee |
| Filters.FieldsDetermineState | src/components/SearchFilters.tsx:13-22 | two filter states that agree on all eight keys are equal |
| Filters.UpdateFilter | src/components/SearchFilters.tsx:41-43 | the written key reads back the written value; every other key keeps its value |
| Filters.UpdateWithCurrentValue | src/components/SearchFilters.tsx:41-43 | writing a key's current value back leaves the state unchanged |
| Filters.UpdatesCompose | src/components/SearchFilters.tsx:41-43 | of two writes to one key the second wins; writes to different keys commute |
| Seqs.Without | src/components/SearchFilters.tsx:48 | the removed value no longer occurs, every other value occurs exactly when it did, and the result is an order-preserving sublist of the input; the same removal serves `handleCompare` and the panel's remove button (src/pages/Index.tsx:97, :234) |
| Seqs.WithoutCounts | src/components/SearchFilters.tsx:48 | removal drops every copy of the value and keeps every other value's number of occurrences |
| Filters.Toggle | src/components/SearchFilters.tsx:45-51 | a selected value is removed wherever it occurs, the rest kept in order and multiplicity; an unselected value is appended at the end; no other value's membership changes |
| Filters.ToggleTwiceRestores | src/components/SearchFilters.tsx:45-51 | toggling an unselected value twice gives back the original list exactly |
| Filters.ToggleTwiceMovesToEnd | src/components/SearchFilters.tsx:45-51 | toggling a selected value twice leaves it once, at the end, after the other values in their order |
| Filters.ToggleArrayFilter | src/components/SearchFilters.tsx:45-51 | the toggled value's membership in the chosen list flips, other values' membership is kept, and every other key is unchanged |
| Filters.ClearAllFilters | src/components/SearchFilters.tsx:53-64 | the cleared state has an active-filter count of zero |
| Filters.ClearedRangesAdmitCatalog | src/components/SearchFilters.tsx:58-59 | the cleared fee and salary ranges contain every catalog card's fee and salary |
| Filters.ActiveFilterCount | src/components/SearchFilters.tsx:66-77 | the count is at most 8 |
| Filters.KeyOrderExact | src/components/SearchFilters.tsx:68-75 | the count's tests visit each of the eight keys exactly once |
| Filters.ActiveFilterCountIsActiveFacets | src/components/SearchFilters.tsx:66-77 | the count is the number of keys whose facet narrows the result |
| Filters.ActiveFilterCountZeroIff | src/components/SearchFilters.tsx:66-77 | the count is 0 exactly when no facet is active |
| Filters.ListFacetCountsOnce | src/components/SearchFilters.tsx:69-73 | a non-empty bank, tier or category list adds exactly one to the count, whatever its length |
| Filters.FeeRangeCount | src/components/SearchFilters.tsx:74 | the fee range adds one exactly when its low end is above 0 or its high end below 100000 |
| Filters.LoungeCheckbox | src/components/SearchFilters.tsx:202-203 | the lounge checkbox writes only `true` or null |
| Filters.FuelWaiverCheckbox | src/components/SearchFilters.tsx:214-215 | the fuel-waiver checkbox writes only `false` or null |
| Filters.LoungeCheckboxRoundTrip | src/components/SearchFilters.tsx:201-203 | after a click the lounge box is drawn in the clicked state, and the flag is set exactly when it is ticked |
| Filters.FuelWaiverCheckboxRoundTrip | src/components/SearchFilters.tsx:213-215 | after a click the fuel-waiver box is drawn in the clicked state, and the flag is set exactly when it is ticked |
| Text.Lower | src/components/AIQueryInterface.tsx:68 | the result has the input's length and each character lower-cased in place; lower-casing is idempotent (`Text.LowerIdempotent`) and distributes over concatenation (`Text.LowerAppend`) |
| Text.LowerIdempotent | src/components/AIQueryInterface.tsx:68 | lower-casing an already lower-cased text changes nothing |
| Text.LowerAppend | src/pages/Index.tsx:44-49 | the lower-case form of a concatenation is the concatenation of the lower-case forms |
| Text.ContainsIffOccurs | src/pages/Index.tsx:46-49 | the substring test holds exactly when the needle occurs at some position |
| Text.TrimEmptyIffBlank | src/components/AIQueryInterface.tsx:37 | a trimmed string is empty exactly when every character is whitespace |
| Evaluator.FilteredCards | src/pages/Index.tsx:34-93 | the shown list is no longer than the catalog and holds only catalog cards |
| Evaluator.FilteredCardsIsPipeline | src/pages/Index.tsx:34-93 | the evaluator is the nine-step cascade |
| Evaluator.PassesAllStepsIffAdmits | src/pages/Index.tsx:34-93 | a card survives the nine steps exactly when it meets the nine reference conditions |
| Evaluator.FilteredCardsIsAdmitted | src/pages/Index.tsx:34-93 | the evaluator equals one filter of the catalog by the reference conditions |
| Evaluator.FilteredCardsSpec | src/pages/Index.tsx:34-93 | the shown list is an order-preserving sublist of the catalog, and a card is shown exactly when it is in the catalog and meets all nine conditions |
| Evaluator.AiRestrictionNarrows | src/pages/Index.tsx:38-40 | an empty AI id list imposes nothing; a non-empty one keeps exactly the unrestricted result's cards whose id it lists |
| Evaluator.SearchIgnoresCase | src/pages/Index.tsx:43-51 | a search text and its lower-case form show the same cards |
| Evaluator.ClearedFiltersShowEverything | src/pages/Index.tsx:34-93 | with the panel cleared and no AI ids, the whole catalog is shown in order |
| Evaluator.ClearedFiltersKeepInRange | src/pages/Index.tsx:64-73 | the cleared filters show every card of any catalog whose fee and salary lie in the default ranges |
| Evaluator.ClearedTextAndListsAdmits | src/pages/Index.tsx:34-93 | with text, lists and salary range cleared, only the fee range and the two flags decide what is shown |
| Evaluator.FreeCardsOnly | src/pages/Index.tsx:63-67 | the fee range [0, 0] shows only ICICI Amazon Pay |
| Evaluator.LoungeCheckboxShowsLoungeCards | src/pages/Index.tsx:75-78 | ticking the lounge box shows the five cards with lounge access, in catalog order |
| Evaluator.FuelWaiverCheckboxShowsSurchargedCard | src/pages/Index.tsx:80-83 | ticking the fuel-waiver box (flag `false`) shows only the card whose surcharge is charged |
| Evaluator.FuelFlagTrueShowsWaivingCards | src/pages/Index.tsx:80-83 | a fuel flag of `true` shows the five cards that waive the surcharge |
| Session.DefaultFilters | src/pages/Index.tsx:15-24 | the page's initial filter state is the state the clear-all button installs |
| Session.HandleCompare | src/pages/Index.tsx:95-115 | a listed card is removed, and every other id keeps its order and its number of occurrences; an unlisted card is appended when fewer than 3 are listed; otherwise the page is unchanged and the limit notice is raised; filters and AI ids never change |
| Session.HandleCompareKeepsValid | src/pages/Index.tsx:95-115 | a comparison list without duplicates and of length at most 3 stays so |
| Session.HandleCompareTwiceListed | src/pages/Index.tsx:95-115 | clicking a listed card twice moves it to the end of the list |
| Session.HandleCompareTwiceUnlisted | src/pages/Index.tsx:95-115 | clicking an unlisted card twice restores the list, whether it was added or refused |
| Session.HandleCompareTwice | src/pages/Index.tsx:95-115 | clicking a card twice restores the list exactly when the card was unlisted or was the last one listed |
| Session.Visible | src/pages/Index.tsx:34-93 | the grid's `filteredCards` for the page's filters and restriction; its meaning is stated by `Session.VisibleIsAdmittedCatalog` |
| Session.VisibleIsAdmittedCatalog | src/pages/Index.tsx:34-93 | the grid shows, in catalog order, exactly the catalog cards that meet the page's filters and its assistant restriction |
| Session.RemoveFromCompare | src/pages/Index.tsx:234 | the removed id is gone, other ids keep their order and number of occurrences, and nothing else changes |
| Session.RemoveIsCompareOfListedCard | src/pages/Index.tsx:234 | the panel's remove button acts like a click on a listed card's compare button |
| Session.RemoveFromCompareKeepsValid | src/pages/Index.tsx:234 | removal keeps the list duplicate-free and within the limit |
| Session.ClearCompare | src/pages/Index.tsx:235 | clear-all empties the comparison list and changes nothing else |
| Session.ClearCompareThenCompare | src/pages/Index.tsx:235 | after clear-all the grid is unchanged, and comparing any card then starts a list holding just that card |
| Session.HandleAIQueryResults | src/pages/Index.tsx:117-130 | the returned ids become the restriction, the filters become exactly the default state, and the comparison list is kept |
| Session.ClearAIFilter | src/pages/Index.tsx:132-134 | the restriction is emptied; filters and comparison list are kept |
| Session.AIQueryResultsShowReturnedCards | src/pages/Index.tsx:117-130 | after an assistant answer the grid shows exactly the catalog cards it named, in catalog order, whatever filters were set before |
| Session.ClearAIFilterAfterQueryShowsEverything | src/pages/Index.tsx:132-134 | clearing the restriction right after an answer shows the whole catalog |
| Session.Find | src/pages/Index.tsx:137 | the lookup finds a card exactly when some card has the id, and then it is the first such card |
| Session.FindCatalogCard | src/pages/Index.tsx:137 | in a catalog with distinct ids, looking up a card's id yields that card |
| Session.CompareCards | src/pages/Index.tsx:136-138 | the panel's cards are the listed ids that name a card, in list order, and only catalog cards |
| Session.CompareCardsOfCatalogIds | src/pages/Index.tsx:136-138 | when every listed id names a card, the panel has one card per id, in list order |
| Session.CompareCardsExample | src/pages/Index.tsx:136-138 | listing axis-magnus then hdfc-regalia shows those two cards in that order |
| Matcher.CatalogIdsAreCatalog | src/data/creditCards.ts:29-269 | the six ids the matcher may name are exactly the catalog's ids |
| Matcher.Answer | src/components/AIQueryInterface.tsx:72-118 | the if-chain over the lower-cased query; `Matcher.AnswerIsFirstMatch` proves it equal to the first rule of the table that fires, or the fallback |
| Matcher.ResponseIdsInjective | src/components/AIQueryInterface.tsx:72-118 | the eight answers' id lists are pairwise different |
| Matcher.ResponsesWellFormed | src/components/AIQueryInterface.tsx:72-118 | every answer names at least one card, no card twice, and only catalog ids |
| Matcher.ProcessAIQuery | src/components/AIQueryInterface.tsx:64-126 | the query is echoed unchanged, and the ids are non-empty, have no duplicates and are catalog ids |
| Matcher.ProcessAIQueryNamesCatalogCards | src/components/AIQueryInterface.tsx:72-118 | every recommended id belongs to a card of the catalog |
| Matcher.ProcessAIQueryIgnoresCase | src/components/AIQueryInterface.tsx:68 | queries with the same lower-case form get the same ids and summary |
| Matcher.FirstMatch | src/components/AIQueryInterface.tsx:72-118 | the answer is that of the first rule that fires, or the general answer when none fires |
| Matcher.RuleTriggers | src/components/AIQueryInterface.tsx:72-112 | each of the seven rules fires on the keywords its test names, with "or" and "and" as written |
| Matcher.AnswerIsFirstMatch | src/components/AIQueryInterface.tsx:72-118 | the chain of tests gives the same answer as the first-match reading of the rule table |
| Matcher.ProcessAIQueryIsFirstMatch | src/components/AIQueryInterface.tsx:64-126 | the result carries the query, and the ids and summary of the first rule that fires on the lower-cased query |
| Matcher.FirstFiringRuleAnswers | src/components/AIQueryInterface.tsx:72-118 | when rule k is the first rule to fire on the lower-cased query, the ids and summary are rule k's |
| Matcher.LoungeRuleWins | src/components/AIQueryInterface.tsx:73-75 | a query containing "lounge" gets the lounge ids and summary, whatever other keywords it holds |
| Matcher.FallbackWhenNoRuleFires | src/components/AIQueryInterface.tsx:115-118 | when no rule fires, the result is hdfc-regalia, axis-magnus, icici-amazon-pay with the general summary |
| Matcher.LoungeIdsAreLoungeCards | src/components/AIQueryInterface.tsx:74 | the lounge answer lists exactly the catalog cards with lounge access, in catalog order |
| Matcher.NoFeeIdsAreFreeCards | src/components/AIQueryInterface.tsx:80 | the no-fee answer lists exactly the catalog cards without an annual fee |
| Matcher.BudgetPremiumIdsArePremiumCards | src/components/AIQueryInterface.tsx:110 | the budget-premium answer lists exactly the premium-tier cards with a fee of at most 10000 |
| Matcher.FuelIdsAreWaivingCardsButAmex | src/components/AIQueryInterface.tsx:96-99 | the fuel answer lists, in catalog order, the catalog cards that waive the fuel surcharge, less amex-platinum-travel, which also waives it |
| Matcher.AnswerComparisonIff | src/components/AIQueryInterface.tsx:91-94 | the comparison answer is given exactly when both card names occur and none of the three earlier rules fires |
| Matcher.ComparisonNeedsBothNames | src/components/AIQueryInterface.tsx:91-94 | the matcher recommends the two compared cards exactly when the lower-cased query asks for the comparison |
| Samples.Sample1Answer | src/components/AIQueryInterface.tsx:29 | the first sample gets the five lounge cards, although it also mentions fuel |
| Samples.NoFeeWhenAsked | src/components/AIQueryInterface.tsx:79-81 | a query containing "no annual fee" and not "lounge" gets the no-fee answer |
| Samples.Sample2Answer | src/components/AIQueryInterface.tsx:30 | the second sample gets only icici-amazon-pay, because the no-fee rule precedes the first-time rule |
| Samples.ComparisonWhenAsked | src/components/AIQueryInterface.tsx:91-94 | a query naming both cards, on which none of the three earlier rules fires, gets the comparison answer |
| Samples.ComparisonMissesSilenceEarlierRules | src/components/AIQueryInterface.tsx:73-88 | a text without "lounge", "no", "free", "first-time" and "beginner" fires none of the first three rules |
| Samples.Sample3Answer | src/components/AIQueryInterface.tsx:31 | the third sample gets axis-magnus and hdfc-regalia |
| Samples.OnlineWhenAsked | src/components/AIQueryInterface.tsx:103-106 | a query containing "online", on which none of the five earlier rules fires, gets the online answer |
| Samples.OnlineMissesSilenceEarlierRules | src/components/AIQueryInterface.tsx:73-100 | a text without "lounge", "no", "free", "first-time", "beginner", "axis" and "fuel" fires none of the first five rules |
| Samples.Sample4Answer | src/components/AIQueryInterface.tsx:32 | the fourth sample gets the online-shopping cards |
| Samples.FallbackMissesSilenceRules | src/components/AIQueryInterface.tsx:72-112 | a text without "lounge", "no", "free", "first-time", "beginner", "axis", "fuel", "online", "shopping" and "10000" fires no rule |
| Samples.Sample5Answer | src/components/AIQueryInterface.tsx:33 | the fifth sample, which writes "₹10,000" and not "10000", gets the fallback answer |
| Assistant.IsBlank | src/components/AIQueryInterface.tsx:37 | `!query.trim()`; `Text.TrimEmptyIffBlank` proves it holds exactly when every character is whitespace, and `Assistant.HandleQueryNoOpIffBlank` that a blank submission changes nothing |
| Assistant.HandleQuery | src/components/AIQueryInterface.tsx:36-62 | a blank input or a rejected call changes nothing and hands nothing on; otherwise the answer is put at the head of the history, its non-empty ids are handed on, and the input is cleared |
| Assistant.HandleQueryNoOpIffBlank | src/components/AIQueryInterface.tsx:37 | a settled submission leaves the panel unchanged exactly when the input is all whitespace |
| Assistant.HandleQueryRecordsAnswer | src/components/AIQueryInterface.tsx:43-46 | the recorded and handed-on answer is the matcher's answer to the text in the box |
| Assistant.HandleSampleQuery | src/components/AIQueryInterface.tsx:128-130 | picking a sample puts it in the input and submits nothing |
| Assistant.SamplesShownAfterSubmit | src/components/AIQueryInterface.tsx:160 | the samples stay on offer exactly when they were on offer and the submission recorded nothing |
| Assistant.Log | src/components/AIQueryInterface.tsx:37-47 | a run of submissions records at most one answer per text, exactly one per text when none is blank, and each record is the matcher's answer to a non-blank text of the run |
| Assistant.SubmitAllHistory | src/components/AIQueryInterface.tsx:45 | after a run of submissions the history is the non-blank ones' answers, newest first, on top of the old history |
| Assistant.SamplesAreNotBlank | src/components/AIQueryInterface.tsx:28-34 | no sample query is blank, so each one submitted is answered |
| Assistant.Submit | src/components/AIQueryInterface.tsx:46 | the page changes only when the panel hands ids on |
| Assistant.SubmitShowsMatchedCards | src/components/AIQueryInterface.tsx:43-47 | a settled non-blank submission makes the grid show exactly the catalog cards the matcher named |
| Assistant.FailedSubmitKeepsGrid | src/components/AIQueryInterface.tsx:53-58 | a blank or rejected submission leaves the grid and the panel unchanged |

## Left out

- The simulated latency of `processAIQuery` (`setTimeout`), the `isLoading` flag, and overlapping submissions. These are timing and concurrency. The matcher is a pure function, and a failed call is the `Rejects` outcome, given as a parameter.
- Assistant.HandleQuery: models a rejection of the matcher call only. A throw from `onQueryResults` happens after the history update was queued, so it would keep the new history entry and the input text; this case is not modelled.
- Toasts, React hooks, `useMemo` and re-rendering. Page and panel state are explicit records changed by pure transitions. `Session.CompareNotice` names the toast `handleCompare` raises.
- The `timestamp` of a query result (`new Date()`) and `Intl.NumberFormat` currency formatting. These are calls into the platform.
- The Enter key handler and the send button's `disabled` rule. The Enter key only calls `handleQuery`. The `disabled` rule calls nothing: it blocks the click while the input is blank or `isLoading` is set. The blank case is covered by `handleQuery`'s own test. The loading case is part of the concurrency left out above.
- `src/components/ComparisonPanel.tsx` and `src/components/CreditCardGrid.tsx`. They only present data: colours, truncation, labels and glyphs.
- The `bankLogos` and `categoryIcons` tables, and the `imageUrl` and `color` fields. They are display data. The star `rating` is kept as integer tenths, since no logic reads it.
- `availableBanks` and `availableCategories`, the option lists the panel draws. They do not affect what any filter does.
- Slider step and maximum constraints. These are widget behaviour. A range is any pair of integers.
- Text.Lower: folds only ASCII A-Z, not full Unicode case. This covers every keyword and every sample query.
- Filters.UpdateFilter: takes a typed key/value pair. The source's `value: any` could write a value of the wrong type, and the model cannot.
- The card field `type` is named `kind`, because `type` is a Dafny keyword. Its values are the four tiers; `Catalog.TypeName` gives each tier's source string.
- Samples.Sample1Answer: states the ids only. The summary follows from `Matcher.ProcessAIQueryIsFirstMatch`.
- Samples.Sample2Answer: states the ids only. The summary follows from `Matcher.ProcessAIQueryIsFirstMatch`.
- Samples.Sample3Answer: states the ids only. The summary follows from `Matcher.ProcessAIQueryIsFirstMatch`.
- Samples.Sample4Answer: states the ids only. The summary follows from `Matcher.ProcessAIQueryIsFirstMatch`.
- Samples.Sample5Answer: states the ids only. The summary follows from `Matcher.ProcessAIQueryIsFirstMatch`.
