/**
 The filter evaluator of the home page: the list of cards shown for a filter
 state and an optional restriction to the ids an assistant query returned.
 It runs nine filter steps in a fixed order; every step keeps the order of
 the cards it is given.
 */
module Evaluator {
  import opened Options
  import opened Seqs
  import opened Text
  import opened Catalog
  import opened Filters

  /**
   The free-text search, for a needle already lower-cased: the needle occurs
   in the lower-cased name, bank, description or one of the benefits.
   */
  predicate MatchesSearch(c: Card, needle: string) {
    || Contains(Lower(c.name), needle)
    || Contains(Lower(c.bank), needle)
    || Contains(Lower(c.description), needle)
    || exists b :: b in c.benefits && Contains(Lower(b), needle)
  }

  // The predicate of each filter step, as the application writes it.

  function AiKeep(ai: seq<string>): Card -> bool {
    (c: Card) => c.id in ai
  }

  function SearchKeep(f: FilterState): Card -> bool {
    (c: Card) => MatchesSearch(c, Lower(f.search))
  }

  function BankKeep(f: FilterState): Card -> bool {
    (c: Card) => c.bank in f.banks
  }

  function TypeKeep(f: FilterState): Card -> bool {
    (c: Card) => TypeName(c.kind) in f.cardTypes
  }

  function FeeKeep(f: FilterState): Card -> bool {
    (c: Card) => c.annualFee >= f.annualFeeRange.lo && c.annualFee <= f.annualFeeRange.hi
  }

  function SalaryKeep(f: FilterState): Card -> bool {
    (c: Card) => c.minSalary >= f.minSalaryRange.lo && c.minSalary <= f.minSalaryRange.hi
  }

  function LoungeKeep(f: FilterState): Card -> bool {
    (c: Card) => Some(c.loungeAccess) == f.loungeAccess
  }

  /** The fuel step negates the card's field before comparing it with the flag. */
  function FuelKeep(f: FilterState): Card -> bool {
    (c: Card) => Some(!c.fuelSurcharge) == f.fuelSurcharge
  }

  function CategoryKeep(f: FilterState): Card -> bool {
    (c: Card) => exists cat :: cat in f.categories && cat in c.categories
  }

  /**
   The `filteredCards` memo: the catalog narrowed by the assistant's ids (when
   there are any), the search text (when not empty), the bank, type and
   category facets (when not empty), the two ranges (always) and the two
   feature flags (when set).
   */
  function FilteredCards(catalog: seq<Card>, f: FilterState, ai: seq<string>): (r: seq<Card>)
    ensures |r| <= |catalog|
    ensures forall c :: c in r ==> c in catalog
  {
    var s1 := FilterIf(catalog, |ai| > 0, AiKeep(ai));
    var s2 := FilterIf(s1, |f.search| > 0, SearchKeep(f));
    var s3 := FilterIf(s2, |f.banks| > 0, BankKeep(f));
    var s4 := FilterIf(s3, |f.cardTypes| > 0, TypeKeep(f));
    var s5 := Filter(s4, FeeKeep(f));
    var s6 := Filter(s5, SalaryKeep(f));
    var s7 := FilterIf(s6, f.loungeAccess.Some?, LoungeKeep(f));
    var s8 := FilterIf(s7, f.fuelSurcharge.Some?, FuelKeep(f));
    FilterIf(s8, |f.categories| > 0, CategoryKeep(f))
  }

  /**
   The reference definition: the nine conditions a shown card meets, each
   stated on its own. An empty list, an empty search and an unset flag
   constrain nothing; both ranges are closed intervals.
   */
  predicate Admits(f: FilterState, ai: seq<string>, c: Card) {
    && (|ai| == 0 || c.id in ai)
    && (|f.search| == 0 || MatchesSearch(c, Lower(f.search)))
    && (|f.banks| == 0 || c.bank in f.banks)
    && (|f.cardTypes| == 0 || TypeName(c.kind) in f.cardTypes)
    && f.annualFeeRange.lo <= c.annualFee <= f.annualFeeRange.hi
    && f.minSalaryRange.lo <= c.minSalary <= f.minSalaryRange.hi
    && (f.loungeAccess == None || c.loungeAccess == f.loungeAccess.value)
    && (f.fuelSurcharge == None || c.fuelSurcharge != f.fuelSurcharge.value)
    && (|f.categories| == 0 || exists cat :: cat in f.categories && cat in c.categories)
  }

  function AdmitsFn(f: FilterState, ai: seq<string>): Card -> bool {
    (c: Card) => Admits(f, ai, c)
  }

  /** Whether step `i` (1 to 9, in source order) runs at all. */
  function StepActive(f: FilterState, ai: seq<string>, i: nat): bool {
    match i
    case 1 => |ai| > 0
    case 2 => |f.search| > 0
    case 3 => |f.banks| > 0
    case 4 => |f.cardTypes| > 0
    case 7 => f.loungeAccess.Some?
    case 8 => f.fuelSurcharge.Some?
    case 9 => |f.categories| > 0
    case _ => true
  }

  /** The predicate step `i` filters by. */
  function StepKeep(f: FilterState, ai: seq<string>, i: nat): Card -> bool {
    match i
    case 1 => AiKeep(ai)
    case 2 => SearchKeep(f)
    case 3 => BankKeep(f)
    case 4 => TypeKeep(f)
    case 5 => FeeKeep(f)
    case 6 => SalaryKeep(f)
    case 7 => LoungeKeep(f)
    case 8 => FuelKeep(f)
    case _ => CategoryKeep(f)
  }

  function ActiveFn(f: FilterState, ai: seq<string>): nat -> bool {
    (i: nat) => StepActive(f, ai, i)
  }

  function KeepFn(f: FilterState, ai: seq<string>): nat -> Card -> bool {
    (i: nat) => StepKeep(f, ai, i)
  }

  /** The catalog after the first `n` steps. */
  function Pipeline(catalog: seq<Card>, f: FilterState, ai: seq<string>, n: nat): seq<Card> {
    Cascade(catalog, ActiveFn(f, ai), KeepFn(f, ai), n)
  }

  /** A card survives the first `n` steps. */
  predicate PassesSteps(f: FilterState, ai: seq<string>, n: nat, c: Card) {
    Survives(ActiveFn(f, ai), KeepFn(f, ai), n, c)
  }

  /** The switch and the predicate of each step, in source order. */
  lemma StepsInOrder(f: FilterState, ai: seq<string>)
    ensures ActiveFn(f, ai)(1) == (|ai| > 0) && KeepFn(f, ai)(1) == AiKeep(ai)
    ensures ActiveFn(f, ai)(2) == (|f.search| > 0) && KeepFn(f, ai)(2) == SearchKeep(f)
    ensures ActiveFn(f, ai)(3) == (|f.banks| > 0) && KeepFn(f, ai)(3) == BankKeep(f)
    ensures ActiveFn(f, ai)(4) == (|f.cardTypes| > 0) && KeepFn(f, ai)(4) == TypeKeep(f)
    ensures ActiveFn(f, ai)(5) && KeepFn(f, ai)(5) == FeeKeep(f)
    ensures ActiveFn(f, ai)(6) && KeepFn(f, ai)(6) == SalaryKeep(f)
    ensures ActiveFn(f, ai)(7) == f.loungeAccess.Some? && KeepFn(f, ai)(7) == LoungeKeep(f)
    ensures ActiveFn(f, ai)(8) == f.fuelSurcharge.Some? && KeepFn(f, ai)(8) == FuelKeep(f)
    ensures ActiveFn(f, ai)(9) == (|f.categories| > 0) && KeepFn(f, ai)(9) == CategoryKeep(f)
  {
  }

  lemma FilteredCardsIsPipeline(catalog: seq<Card>, f: FilterState, ai: seq<string>)
    ensures FilteredCards(catalog, f, ai) == Pipeline(catalog, f, ai, 9)
  {
    var a, k := ActiveFn(f, ai), KeepFn(f, ai);
    StepsInOrder(f, ai);
    var s1 := FilterIf(catalog, |ai| > 0, AiKeep(ai));
    CascadeNext(catalog, a, k, 1, catalog, |ai| > 0, AiKeep(ai));
    var s2 := FilterIf(s1, |f.search| > 0, SearchKeep(f));
    CascadeNext(catalog, a, k, 2, s1, |f.search| > 0, SearchKeep(f));
    var s3 := FilterIf(s2, |f.banks| > 0, BankKeep(f));
    CascadeNext(catalog, a, k, 3, s2, |f.banks| > 0, BankKeep(f));
    var s4 := FilterIf(s3, |f.cardTypes| > 0, TypeKeep(f));
    CascadeNext(catalog, a, k, 4, s3, |f.cardTypes| > 0, TypeKeep(f));
    var s5 := FilterIf(s4, true, FeeKeep(f));
    CascadeNext(catalog, a, k, 5, s4, true, FeeKeep(f));
    var s6 := FilterIf(s5, true, SalaryKeep(f));
    CascadeNext(catalog, a, k, 6, s5, true, SalaryKeep(f));
    var s7 := FilterIf(s6, f.loungeAccess.Some?, LoungeKeep(f));
    CascadeNext(catalog, a, k, 7, s6, f.loungeAccess.Some?, LoungeKeep(f));
    var s8 := FilterIf(s7, f.fuelSurcharge.Some?, FuelKeep(f));
    CascadeNext(catalog, a, k, 8, s7, f.fuelSurcharge.Some?, FuelKeep(f));
    CascadeNext(catalog, a, k, 9, s8, |f.categories| > 0, CategoryKeep(f));
  }

  lemma StepUnfold(f: FilterState, ai: seq<string>, n: nat, c: Card)
    requires 1 <= n
    ensures PassesSteps(f, ai, n, c) == (PassesSteps(f, ai, n - 1, c) && (!StepActive(f, ai, n) || StepKeep(f, ai, n)(c)))
  {
  }

  /** Surviving all nine steps is meeting all nine reference conditions. */
  lemma PassesAllStepsIffAdmits(f: FilterState, ai: seq<string>, c: Card)
    ensures PassesSteps(f, ai, 9, c) == Admits(f, ai, c)
  {
    StepUnfold(f, ai, 9, c);
    StepUnfold(f, ai, 8, c);
    StepUnfold(f, ai, 7, c);
    StepUnfold(f, ai, 6, c);
    StepUnfold(f, ai, 5, c);
    StepUnfold(f, ai, 4, c);
    StepUnfold(f, ai, 3, c);
    StepUnfold(f, ai, 2, c);
    StepUnfold(f, ai, 1, c);
  }

  /**
   The step-by-step evaluator is one filter by the reference conditions: the
   result is the catalog's admitted cards, in catalog order, each as often as
   in the catalog.
   */
  lemma FilteredCardsIsAdmitted(catalog: seq<Card>, f: FilterState, ai: seq<string>)
    ensures FilteredCards(catalog, f, ai) == Filter(catalog, AdmitsFn(f, ai))
  {
    var a, k := ActiveFn(f, ai), KeepFn(f, ai);
    FilteredCardsIsPipeline(catalog, f, ai);
    CascadeIsFilter(catalog, a, k, 9);
    forall c ensures SurvivesFn(a, k, 9)(c) == AdmitsFn(f, ai)(c) {
      PassesAllStepsIffAdmits(f, ai, c);
    }
    FilterCongruent(catalog, SurvivesFn(a, k, 9), AdmitsFn(f, ai));
  }

  /**
   A card is shown exactly when it is in the catalog and meets all nine
   conditions; the shown list is an order-preserving sublist of the catalog.
   */
  lemma FilteredCardsSpec(catalog: seq<Card>, f: FilterState, ai: seq<string>)
    ensures IsSubseq(FilteredCards(catalog, f, ai), catalog)
    ensures forall c :: c in FilteredCards(catalog, f, ai) <==> c in catalog && Admits(f, ai, c)
  {
    FilteredCardsIsAdmitted(catalog, f, ai);
  }

  /**
   The assistant's restriction applies only when it names at least one id,
   and then it narrows the unrestricted result without reordering it.
   */
  lemma AiRestrictionNarrows(catalog: seq<Card>, f: FilterState, ai: seq<string>)
    ensures |ai| == 0 ==> FilteredCards(catalog, f, ai) == FilteredCards(catalog, f, [])
    ensures |ai| > 0 ==>
      FilteredCards(catalog, f, ai) == Filter(FilteredCards(catalog, f, []), AiKeep(ai))
  {
    FilteredCardsIsAdmitted(catalog, f, ai);
    FilteredCardsIsAdmitted(catalog, f, []);
    if |ai| == 0 {
      FilterCongruent(catalog, AdmitsFn(f, ai), AdmitsFn(f, []));
    } else {
      FilterTwice(catalog, AdmitsFn(f, []), AiKeep(ai), AdmitsFn(f, ai));
    }
  }

  /**
   The search ignores ASCII case: a search text and its lower-case form show
   the same cards.
   */
  lemma SearchIgnoresCase(catalog: seq<Card>, f: FilterState, ai: seq<string>)
    ensures FilteredCards(catalog, f, ai) == FilteredCards(catalog, f.(search := Lower(f.search)), ai)
  {
    var g := f.(search := Lower(f.search));
    LowerIdempotent(f.search);
    FilteredCardsIsAdmitted(catalog, f, ai);
    FilteredCardsIsAdmitted(catalog, g, ai);
    FilterCongruent(catalog, AdmitsFn(f, ai), AdmitsFn(g, ai));
  }

  /**
   With the panel cleared and no assistant restriction, every catalog card
   is shown, in catalog order.
   */
  lemma ClearedFiltersShowEverything()
    ensures FilteredCards(Cards, ClearAllFilters(), []) == Cards
  {
    CatalogWithinDefaultRanges();
    ClearedFiltersKeepInRange(Cards);
  }

  /** With the filters cleared, every card whose fee and salary lie in the default ranges is shown. */
  lemma ClearedFiltersKeepInRange(catalog: seq<Card>)
    requires forall c :: c in catalog ==> 0 <= c.annualFee <= MaxAnnualFee
    requires forall c :: c in catalog ==> 0 <= c.minSalary <= MaxMinSalary
    ensures FilteredCards(catalog, ClearAllFilters(), []) == catalog
  {
    FilteredCardsIsAdmitted(catalog, ClearAllFilters(), []);
    FilterKeepsAll(catalog, AdmitsFn(ClearAllFilters(), []));
  }

  /** The conditions left when only the fee range and the two flags differ from the cleared panel. */
  function FeeAndFlagsFn(f: FilterState): Card -> bool {
    (c: Card) =>
      && f.annualFeeRange.lo <= c.annualFee <= f.annualFeeRange.hi
      && (f.loungeAccess == None || c.loungeAccess == f.loungeAccess.value)
      && (f.fuelSurcharge == None || c.fuelSurcharge != f.fuelSurcharge.value)
  }

  /**
   On a panel whose text, lists and salary range are cleared, the shown cards
   are decided by the fee range and the two flags alone.
   */
  lemma ClearedTextAndListsAdmits(catalog: seq<Card>, f: FilterState)
    requires f.search == [] && f.banks == [] && f.cardTypes == [] && f.categories == []
    requires f.minSalaryRange == Range(0, MaxMinSalary)
    requires forall c :: c in catalog ==> 0 <= c.minSalary <= MaxMinSalary
    ensures FilteredCards(catalog, f, []) == Filter(catalog, FeeAndFlagsFn(f))
  {
    FilteredCardsIsAdmitted(catalog, f, []);
    FilterCongruent(catalog, AdmitsFn(f, []), FeeAndFlagsFn(f));
  }

  /** Only the lifetime-free card costs nothing a year. */
  lemma FreeCardsOnly()
    ensures FilteredCards(Cards, ClearAllFilters().(annualFeeRange := Range(0, 0)), []) == [IciciAmazonPay]
  {
    var f := ClearAllFilters().(annualFeeRange := Range(0, 0));
    CatalogWithinDefaultRanges();
    ClearedTextAndListsAdmits(Cards, f);
    FilterOnlyThird(HdfcRegalia, AxisMagnus, IciciAmazonPay, SbiElite, AmexPlatinumTravel, KotakWhiteReserve,
                    FeeAndFlagsFn(f));
  }

  /** Ticking "Airport Lounge Access" shows the five cards with lounge access. */
  lemma LoungeCheckboxShowsLoungeCards()
    ensures FilteredCards(Cards, UpdateFilter(ClearAllFilters(), SetLoungeAccess(LoungeCheckbox(true))), [])
         == [HdfcRegalia, AxisMagnus, SbiElite, AmexPlatinumTravel, KotakWhiteReserve]
  {
    var f := UpdateFilter(ClearAllFilters(), SetLoungeAccess(LoungeCheckbox(true)));
    CatalogWithinDefaultRanges();
    ClearedTextAndListsAdmits(Cards, f);
    FilterAllButThird(HdfcRegalia, AxisMagnus, IciciAmazonPay, SbiElite, AmexPlatinumTravel, KotakWhiteReserve,
                      FeeAndFlagsFn(f));
  }

  /**
   Ticking "Fuel Surcharge Waiver" writes `false`, and the fuel step keeps the
   cards whose negated field equals it: the one card that does charge the
   surcharge is the only one shown.
   */
  lemma FuelWaiverCheckboxShowsSurchargedCard()
    ensures FilteredCards(Cards, UpdateFilter(ClearAllFilters(), SetFuelSurcharge(FuelWaiverCheckbox(true))), [])
         == [IciciAmazonPay]
  {
    var f := UpdateFilter(ClearAllFilters(), SetFuelSurcharge(FuelWaiverCheckbox(true)));
    CatalogWithinDefaultRanges();
    ClearedTextAndListsAdmits(Cards, f);
    FilterOnlyThird(HdfcRegalia, AxisMagnus, IciciAmazonPay, SbiElite, AmexPlatinumTravel, KotakWhiteReserve,
                    FeeAndFlagsFn(f));
  }

  /** A fuel flag of `true` shows every card that waives the surcharge. */
  lemma FuelFlagTrueShowsWaivingCards()
    ensures FilteredCards(Cards, ClearAllFilters().(fuelSurcharge := Some(true)), [])
         == [HdfcRegalia, AxisMagnus, SbiElite, AmexPlatinumTravel, KotakWhiteReserve]
  {
    var f := ClearAllFilters().(fuelSurcharge := Some(true));
    CatalogWithinDefaultRanges();
    ClearedTextAndListsAdmits(Cards, f);
    FilterAllButThird(HdfcRegalia, AxisMagnus, IciciAmazonPay, SbiElite, AmexPlatinumTravel, KotakWhiteReserve,
                      FeeAndFlagsFn(f));
  }

}
