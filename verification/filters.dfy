/**
 The filter panel: the `FilterState` record and the editing helpers the
 panel applies to it (`updateFilter`, `toggleArrayFilter`, `clearAllFilters`,
 `getActiveFilterCount` and the two feature checkboxes).
 */
module Filters {
  import opened Options
  import opened Seqs
  import Catalog

  /** A closed interval `[lo, hi]`, the model of a `[number, number]` slider value. */
  datatype Range = Range(lo: int, hi: int)

  /**
   The filter configuration. An empty list facet means "no constraint"; a
   `None` flag means "either value".
   */
  datatype FilterState = FilterState(
    search: string,
    banks: seq<string>,
    cardTypes: seq<string>,
    annualFeeRange: Range,
    minSalaryRange: Range,
    loungeAccess: Option<bool>,
    fuelSurcharge: Option<bool>,
    categories: seq<string>)

  /** The eight keys of `FilterState`. */
  datatype FilterKey =
    | SearchKey | BanksKey | CardTypesKey | AnnualFeeRangeKey
    | MinSalaryRangeKey | LoungeAccessKey | FuelSurchargeKey | CategoriesKey

  /**
   A key together with a value of that key's type: the argument pair of
   `updateFilter(key, value)`.
   */
  datatype FilterUpdate =
    | SetSearch(text: string)
    | SetBanks(banks: seq<string>)
    | SetCardTypes(cardTypes: seq<string>)
    | SetAnnualFeeRange(feeRange: Range)
    | SetMinSalaryRange(salaryRange: Range)
    | SetLoungeAccess(lounge: Option<bool>)
    | SetFuelSurcharge(fuel: Option<bool>)
    | SetCategories(categories: seq<string>)

  /** The three list-valued keys `toggleArrayFilter` accepts. */
  datatype ListKey = BankList | CardTypeList | CategoryList

  function KeyOf(u: FilterUpdate): FilterKey {
    match u
    case SetSearch(_) => SearchKey
    case SetBanks(_) => BanksKey
    case SetCardTypes(_) => CardTypesKey
    case SetAnnualFeeRange(_) => AnnualFeeRangeKey
    case SetMinSalaryRange(_) => MinSalaryRangeKey
    case SetLoungeAccess(_) => LoungeAccessKey
    case SetFuelSurcharge(_) => FuelSurchargeKey
    case SetCategories(_) => CategoriesKey
  }

  /** Field `k` of `f`, packaged as the update that would write its current value. */
  function Get(f: FilterState, k: FilterKey): (u: FilterUpdate)
    ensures KeyOf(u) == k
  {
    match k
    case SearchKey => SetSearch(f.search)
    case BanksKey => SetBanks(f.banks)
    case CardTypesKey => SetCardTypes(f.cardTypes)
    case AnnualFeeRangeKey => SetAnnualFeeRange(f.annualFeeRange)
    case MinSalaryRangeKey => SetMinSalaryRange(f.minSalaryRange)
    case LoungeAccessKey => SetLoungeAccess(f.loungeAccess)
    case FuelSurchargeKey => SetFuelSurcharge(f.fuelSurcharge)
    case CategoriesKey => SetCategories(f.categories)
  }

  /** Two states with the same eight fields are the same state. */
  lemma FieldsDetermineState(f: FilterState, g: FilterState)
    requires forall k :: Get(f, k) == Get(g, k)
    ensures f == g
  {
    assert Get(f, SearchKey) == Get(g, SearchKey);
    assert Get(f, BanksKey) == Get(g, BanksKey);
    assert Get(f, CardTypesKey) == Get(g, CardTypesKey);
    assert Get(f, AnnualFeeRangeKey) == Get(g, AnnualFeeRangeKey);
    assert Get(f, MinSalaryRangeKey) == Get(g, MinSalaryRangeKey);
    assert Get(f, LoungeAccessKey) == Get(g, LoungeAccessKey);
    assert Get(f, FuelSurchargeKey) == Get(g, FuelSurchargeKey);
    assert Get(f, CategoriesKey) == Get(g, CategoriesKey);
  }

  /** `{ ...filters, [key]: value }`: field `key` gets the value, every other field is kept. */
  function UpdateFilter(f: FilterState, u: FilterUpdate): (r: FilterState)
    ensures Get(r, KeyOf(u)) == u
    ensures forall k :: k != KeyOf(u) ==> Get(r, k) == Get(f, k)
  {
    match u
    case SetSearch(s) => f.(search := s)
    case SetBanks(xs) => f.(banks := xs)
    case SetCardTypes(xs) => f.(cardTypes := xs)
    case SetAnnualFeeRange(r) => f.(annualFeeRange := r)
    case SetMinSalaryRange(r) => f.(minSalaryRange := r)
    case SetLoungeAccess(v) => f.(loungeAccess := v)
    case SetFuelSurcharge(v) => f.(fuelSurcharge := v)
    case SetCategories(xs) => f.(categories := xs)
  }

  /** Writing a field's own value back changes nothing. */
  lemma UpdateWithCurrentValue(f: FilterState, k: FilterKey)
    ensures UpdateFilter(f, Get(f, k)) == f
  {
    FieldsDetermineState(UpdateFilter(f, Get(f, k)), f);
  }

  /** Of two writes to the same field the second wins; writes to different fields commute. */
  lemma UpdatesCompose(f: FilterState, u: FilterUpdate, v: FilterUpdate)
    ensures KeyOf(u) == KeyOf(v) ==> UpdateFilter(UpdateFilter(f, u), v) == UpdateFilter(f, v)
    ensures KeyOf(u) != KeyOf(v) ==>
      UpdateFilter(UpdateFilter(f, u), v) == UpdateFilter(UpdateFilter(f, v), u)
  {
    if KeyOf(u) == KeyOf(v) {
      FieldsDetermineState(UpdateFilter(UpdateFilter(f, u), v), UpdateFilter(f, v));
    } else {
      FieldsDetermineState(UpdateFilter(UpdateFilter(f, u), v), UpdateFilter(UpdateFilter(f, v), u));
    }
  }

  function ListKeyOf(l: ListKey): FilterKey {
    match l
    case BankList => BanksKey
    case CardTypeList => CardTypesKey
    case CategoryList => CategoriesKey
  }

  /** `filters[key]` for a list-valued key. */
  function ListOf(f: FilterState, l: ListKey): seq<string> {
    match l
    case BankList => f.banks
    case CardTypeList => f.cardTypes
    case CategoryList => f.categories
  }

  function SetList(l: ListKey, xs: seq<string>): (u: FilterUpdate)
    ensures KeyOf(u) == ListKeyOf(l)
  {
    match l
    case BankList => SetBanks(xs)
    case CardTypeList => SetCardTypes(xs)
    case CategoryList => SetCategories(xs)
  }

  /**
   One checkbox click on a list facet: a selected value is removed wherever it
   occurs, an unselected one is appended at the end.
   */
  function Toggle(xs: seq<string>, v: string): (r: seq<string>)
    ensures v in r <==> v !in xs
    ensures forall w :: w != v ==> (w in r <==> w in xs)
    ensures v in xs ==> IsSubseq(r, xs) && multiset(r) == multiset(xs)[v := 0]
    ensures v !in xs ==> r == xs + [v]
  {
    if v in xs then
      WithoutCounts(xs, v);
      Without(xs, v)
    else xs + [v]
  }

  /** Clicking an unselected value twice restores the list exactly. */
  lemma ToggleTwiceRestores(xs: seq<string>, v: string)
    requires v !in xs
    ensures Toggle(Toggle(xs, v), v) == xs
  {
    WithoutAppend(xs, [v], v);
    WithoutAbsent(xs, v);
    assert Without([v], v) == [];
  }

  /** Clicking a selected value twice moves it to the end, once, keeping the rest in order. */
  lemma ToggleTwiceMovesToEnd(xs: seq<string>, v: string)
    requires v in xs
    ensures Toggle(Toggle(xs, v), v) == Without(xs, v) + [v]
  {
  }

  /** `toggleArrayFilter(key, value)`. */
  function ToggleArrayFilter(f: FilterState, l: ListKey, v: string): (r: FilterState)
    ensures v in ListOf(r, l) <==> v !in ListOf(f, l)
    ensures forall w :: w != v ==> (w in ListOf(r, l) <==> w in ListOf(f, l))
    ensures forall k :: k != ListKeyOf(l) ==> Get(r, k) == Get(f, k)
  {
    UpdateFilter(f, SetList(l, Toggle(ListOf(f, l), v)))
  }

  /** The state `clearAllFilters` installs. */
  function ClearAllFilters(): (r: FilterState)
    ensures ActiveFilterCount(r) == 0
  {
    FilterState("", [], [], Range(0, Catalog.MaxAnnualFee), Range(0, Catalog.MaxMinSalary), None, None, [])
  }

  /** The cleared ranges admit every card of the catalog. */
  lemma ClearedRangesAdmitCatalog()
    ensures var r := ClearAllFilters();
      forall c :: c in Catalog.Cards ==>
        r.annualFeeRange.lo <= c.annualFee <= r.annualFeeRange.hi
        && r.minSalaryRange.lo <= c.minSalary <= r.minSalaryRange.hi
  {
    Catalog.CatalogWithinDefaultRanges();
  }

  /** Whether facet `k` narrows the result, as the panel's badge counts it. */
  predicate IsActive(f: FilterState, k: FilterKey) {
    match k
    case SearchKey => |f.search| > 0
    case BanksKey => |f.banks| > 0
    case CardTypesKey => |f.cardTypes| > 0
    case LoungeAccessKey => f.loungeAccess.Some?
    case FuelSurchargeKey => f.fuelSurcharge.Some?
    case CategoriesKey => |f.categories| > 0
    case AnnualFeeRangeKey => f.annualFeeRange.lo > 0 || f.annualFeeRange.hi < Catalog.MaxAnnualFee
    case MinSalaryRangeKey => f.minSalaryRange.lo > 0 || f.minSalaryRange.hi < Catalog.MaxMinSalary
  }

  function Bit(b: bool): nat {
    if b then 1 else 0
  }

  /** `getActiveFilterCount()`: one point per narrowing facet. */
  function ActiveFilterCount(f: FilterState): (n: nat)
    ensures n <= 8
  {
    Bit(|f.search| > 0)
    + Bit(|f.banks| > 0)
    + Bit(|f.cardTypes| > 0)
    + Bit(f.loungeAccess.Some?)
    + Bit(f.fuelSurcharge.Some?)
    + Bit(|f.categories| > 0)
    + Bit(f.annualFeeRange.lo > 0 || f.annualFeeRange.hi < Catalog.MaxAnnualFee)
    + Bit(f.minSalaryRange.lo > 0 || f.minSalaryRange.hi < Catalog.MaxMinSalary)
  }

  /** The eight keys, in the order the badge count visits them. */
  const KeyOrder: seq<FilterKey> := [
    SearchKey, BanksKey, CardTypesKey, LoungeAccessKey,
    FuelSurchargeKey, CategoriesKey, AnnualFeeRangeKey, MinSalaryRangeKey]

  /** The number of keys in `keys` whose facet is active. */
  function CountActive(f: FilterState, keys: seq<FilterKey>): (n: nat)
    ensures n <= |keys|
    ensures n == 0 <==> forall i :: 0 <= i < |keys| ==> !IsActive(f, keys[i])
  {
    if |keys| == 0 then 0 else Bit(IsActive(f, keys[0])) + CountActive(f, keys[1..])
  }

  /** `KeyOrder` lists each of the eight keys exactly once. */
  lemma KeyOrderExact()
    ensures |KeyOrder| == 8 && Distinct(KeyOrder)
    ensures forall k :: k in KeyOrder
  {
    forall k ensures k in KeyOrder {
      match k
      case SearchKey => assert KeyOrder[0] == k;
      case BanksKey => assert KeyOrder[1] == k;
      case CardTypesKey => assert KeyOrder[2] == k;
      case LoungeAccessKey => assert KeyOrder[3] == k;
      case FuelSurchargeKey => assert KeyOrder[4] == k;
      case CategoriesKey => assert KeyOrder[5] == k;
      case AnnualFeeRangeKey => assert KeyOrder[6] == k;
      case MinSalaryRangeKey => assert KeyOrder[7] == k;
    }
  }

  /** The badge count is the number of active facets among the eight keys. */
  lemma ActiveFilterCountIsActiveFacets(f: FilterState)
    ensures ActiveFilterCount(f) == CountActive(f, KeyOrder)
  {
    var ks: seq<FilterKey> := [];
    CountActiveCons(f, MinSalaryRangeKey, ks); ks := [MinSalaryRangeKey] + ks;
    CountActiveCons(f, AnnualFeeRangeKey, ks); ks := [AnnualFeeRangeKey] + ks;
    CountActiveCons(f, CategoriesKey, ks); ks := [CategoriesKey] + ks;
    CountActiveCons(f, FuelSurchargeKey, ks); ks := [FuelSurchargeKey] + ks;
    CountActiveCons(f, LoungeAccessKey, ks); ks := [LoungeAccessKey] + ks;
    CountActiveCons(f, CardTypesKey, ks); ks := [CardTypesKey] + ks;
    CountActiveCons(f, BanksKey, ks); ks := [BanksKey] + ks;
    CountActiveCons(f, SearchKey, ks); ks := [SearchKey] + ks;
    assert ks == KeyOrder;
  }

  lemma CountActiveCons(f: FilterState, k: FilterKey, rest: seq<FilterKey>)
    ensures CountActive(f, [k] + rest) == Bit(IsActive(f, k)) + CountActive(f, rest)
  {
    assert ([k] + rest)[1..] == rest;
  }

  /** The badge shows zero exactly when no facet narrows the result. */
  lemma ActiveFilterCountZeroIff(f: FilterState)
    ensures ActiveFilterCount(f) == 0 <==> forall k :: !IsActive(f, k)
  {
    ActiveFilterCountIsActiveFacets(f);
    KeyOrderExact();
    if ActiveFilterCount(f) == 0 {
      forall k ensures !IsActive(f, k) {
        assert k in KeyOrder;
        var i :| 0 <= i < |KeyOrder| && KeyOrder[i] == k;
      }
    }
  }

  /** However many values a list facet holds, it adds at most one to the count. */
  lemma ListFacetCountsOnce(f: FilterState, l: ListKey, xs: seq<string>, ys: seq<string>)
    requires |xs| > 0 && |ys| > 0
    ensures ActiveFilterCount(UpdateFilter(f, SetList(l, xs)))
         == ActiveFilterCount(UpdateFilter(f, SetList(l, ys)))
         == ActiveFilterCount(UpdateFilter(f, SetList(l, []))) + 1
  {
  }

  /** The fee range adds one exactly when it is narrower than [0, 100000]. */
  lemma FeeRangeCount(f: FilterState, r: Range)
    ensures ActiveFilterCount(UpdateFilter(f, SetAnnualFeeRange(r)))
         == ActiveFilterCount(UpdateFilter(f, SetAnnualFeeRange(Range(0, Catalog.MaxAnnualFee))))
            + Bit(r.lo > 0 || r.hi < Catalog.MaxAnnualFee)
  {
  }

  /** The value the lounge checkbox writes when clicked into state `checked`. */
  function LoungeCheckbox(checked: bool): (v: Option<bool>)
    ensures v == None || v == Some(true)
  {
    if checked then Some(true) else None
  }

  /** The value the fuel-waiver checkbox writes when clicked into state `checked`. */
  function FuelWaiverCheckbox(checked: bool): (v: Option<bool>)
    ensures v == None || v == Some(false)
  {
    if checked then Some(false) else None
  }

  /** Whether the lounge checkbox is drawn ticked. */
  predicate LoungeChecked(f: FilterState) {
    f.loungeAccess == Some(true)
  }

  /** Whether the fuel-waiver checkbox is drawn ticked. */
  predicate FuelWaiverChecked(f: FilterState) {
    f.fuelSurcharge == Some(false)
  }

  /** A click on the lounge box leaves it drawn in the clicked state, and only that flag changes. */
  lemma LoungeCheckboxRoundTrip(f: FilterState, checked: bool)
    ensures LoungeChecked(UpdateFilter(f, SetLoungeAccess(LoungeCheckbox(checked)))) == checked
    ensures UpdateFilter(f, SetLoungeAccess(LoungeCheckbox(checked))).loungeAccess.Some? == checked
  {
  }

  /** A click on the fuel-waiver box leaves it drawn in the clicked state. */
  lemma FuelWaiverCheckboxRoundTrip(f: FilterState, checked: bool)
    ensures FuelWaiverChecked(UpdateFilter(f, SetFuelSurcharge(FuelWaiverCheckbox(checked)))) == checked
    ensures UpdateFilter(f, SetFuelSurcharge(FuelWaiverCheckbox(checked))).fuelSurcharge.Some? == checked
  {
  }

}
