/**
 The home page's state and the handlers that change it: the filter state,
 the comparison list (at most three card ids) and the ids the assistant
 returned. The visible card list is the evaluator applied to this state.
 */
module Session {
  import opened Options
  import opened Seqs
  import opened Catalog
  import opened Filters
  import opened Evaluator

  /** The comparison panel holds at most three cards. */
  const CompareLimit := 3

  /** The notice a click on "compare" raises. */
  datatype CompareNotice = RemovedFromComparison | AddedToComparison | LimitReached

  datatype Page = Page(filters: FilterState, compareList: seq<string>, aiFilteredCards: seq<string>)

  /** The filter state the page starts with and restores after an assistant query. */
  function DefaultFilters(): (f: FilterState)
    ensures f == ClearAllFilters()
  {
    FilterState("", [], [], Range(0, 100000), Range(0, 3000000), None, None, [])
  }

  function InitialPage(): Page {
    Page(DefaultFilters(), [], [])
  }

  /** The cards the grid shows. */
  function Visible(p: Page): seq<Card> {
    FilteredCards(Cards, p.filters, p.aiFilteredCards)
  }

  /**
   The grid shows, in catalog order, exactly the catalog cards that meet the
   page's filters and its assistant restriction.
   */
  lemma VisibleIsAdmittedCatalog(p: Page)
    ensures Visible(p) == Filter(Cards, AdmitsFn(p.filters, p.aiFilteredCards))
    ensures forall c :: c in Visible(p) <==> c in Cards && Admits(p.filters, p.aiFilteredCards, c)
  {
    FilteredCardsSpec(Cards, p.filters, p.aiFilteredCards);
    FilteredCardsIsAdmitted(Cards, p.filters, p.aiFilteredCards);
  }

  /** The comparison list a reachable page can hold: no id twice, at most three ids. */
  predicate ValidCompareList(xs: seq<string>) {
    Distinct(xs) && |xs| <= CompareLimit
  }

  /**
   `handleCompare(card)`: a listed card is removed, an unlisted one is
   appended while there is room, and otherwise nothing changes. Only the
   comparison list changes.
   */
  function HandleCompare(p: Page, card: Card): (r: (Page, CompareNotice))
    ensures r.0.filters == p.filters && r.0.aiFilteredCards == p.aiFilteredCards
    ensures card.id in p.compareList ==>
      && r.1 == RemovedFromComparison
      && card.id !in r.0.compareList
      && (forall id :: id != card.id ==> (id in r.0.compareList <==> id in p.compareList))
      && IsSubseq(r.0.compareList, p.compareList)
      && multiset(r.0.compareList) == multiset(p.compareList)[card.id := 0]
    ensures card.id !in p.compareList && |p.compareList| < CompareLimit ==>
      r.1 == AddedToComparison && r.0.compareList == p.compareList + [card.id]
    ensures card.id !in p.compareList && |p.compareList| >= CompareLimit ==>
      r.1 == LimitReached && r.0 == p
  {
    if card.id in p.compareList then
      WithoutCounts(p.compareList, card.id);
      (p.(compareList := Without(p.compareList, card.id)), RemovedFromComparison)
    else if |p.compareList| < CompareLimit then
      (p.(compareList := p.compareList + [card.id]), AddedToComparison)
    else
      (p, LimitReached)
  }

  /** A removal from a duplicate-free list drops exactly one element. */
  lemma {:induction false} WithoutDistinctLength(xs: seq<string>, v: string)
    requires Distinct(xs) && v in xs
    ensures |Without(xs, v)| == |xs| - 1
  {
    var i :| 0 <= i < |xs| && xs[i] == v;
    assert multiset(xs)[v] == 1 by {
      assert xs == xs[..i] + [v] + xs[i + 1..];
      assert v !in xs[..i] && v !in xs[i + 1..] by {
        forall j | 0 <= j < |xs| && j != i ensures xs[j] != v {
        }
      }
      assert multiset(xs) == multiset(xs[..i]) + multiset{v} + multiset(xs[i + 1..]);
    }
    WithoutCounts(xs, v);
    assert |multiset(Without(xs, v))| == |multiset(xs)| - 1;
  }

  /** Every handler keeps the comparison list duplicate-free and within the limit. */
  lemma HandleCompareKeepsValid(p: Page, card: Card)
    requires ValidCompareList(p.compareList)
    ensures ValidCompareList(HandleCompare(p, card).0.compareList)
  {
    var xs := p.compareList;
    if card.id in xs {
      SubseqDistinct(Without(xs, card.id), xs);
      WithoutDistinctLength(xs, card.id);
    } else if |xs| < CompareLimit {
      var ys := xs + [card.id];
      forall i, j | 0 <= i < j < |ys| ensures ys[i] != ys[j] {
        if j == |xs| {
          assert ys[i] == xs[i];
        }
      }
    }
  }

  /** A second click on a listed card re-appends it at the end. */
  lemma HandleCompareTwiceListed(p: Page, card: Card)
    requires ValidCompareList(p.compareList) && card.id in p.compareList
    ensures HandleCompare(HandleCompare(p, card).0, card).0.compareList
        == Without(p.compareList, card.id) + [card.id]
  {
    WithoutDistinctLength(p.compareList, card.id);
  }

  /** A second click on an unlisted card undoes the first. */
  lemma HandleCompareTwiceUnlisted(p: Page, card: Card)
    requires card.id !in p.compareList
    ensures HandleCompare(HandleCompare(p, card).0, card).0.compareList == p.compareList
  {
    var xs := p.compareList;
    var v := card.id;
    if |xs| < CompareLimit {
      WithoutAppend(xs, [v], v);
      WithoutAbsent(xs, v);
      assert Without([v], v) == [];
    }
  }

  /**
   Clicking the same card twice restores the comparison list exactly when
   the card was not listed, or was the last one listed; a listed card that
   was not last moves to the end.
   */
  lemma HandleCompareTwice(p: Page, card: Card)
    requires ValidCompareList(p.compareList)
    ensures HandleCompare(HandleCompare(p, card).0, card).0.compareList == p.compareList
        <==> card.id !in p.compareList || p.compareList[|p.compareList| - 1] == card.id
  {
    var xs := p.compareList;
    var v := card.id;
    if v in xs {
      HandleCompareTwiceListed(p, card);
      if xs[|xs| - 1] == v {
        WithoutLastThenAppend(xs, v);
      } else {
        var r := Without(xs, v) + [v];
        assert r[|r| - 1] != xs[|xs| - 1];
      }
    } else {
      HandleCompareTwiceUnlisted(p, card);
    }
  }

  /** `onRemoveCard(id)`: the id is dropped from the comparison list, the rest kept in order. */
  function RemoveFromCompare(p: Page, id: string): (r: Page)
    ensures id !in r.compareList
    ensures forall x :: x != id ==> (x in r.compareList <==> x in p.compareList)
    ensures IsSubseq(r.compareList, p.compareList)
    ensures multiset(r.compareList) == multiset(p.compareList)[id := 0]
    ensures r.filters == p.filters && r.aiFilteredCards == p.aiFilteredCards
  {
    WithoutCounts(p.compareList, id);
    p.(compareList := Without(p.compareList, id))
  }

  /** The panel's remove button does what a second click on the card's compare button does. */
  lemma RemoveIsCompareOfListedCard(p: Page, card: Card)
    requires card.id in p.compareList
    ensures HandleCompare(p, card).0 == RemoveFromCompare(p, card.id)
  {
  }

  /** Removing keeps the comparison list valid. */
  lemma RemoveFromCompareKeepsValid(p: Page, id: string)
    requires ValidCompareList(p.compareList)
    ensures ValidCompareList(RemoveFromCompare(p, id).compareList)
  {
    var xs := p.compareList;
    SubseqDistinct(Without(xs, id), xs);
    if id in xs {
      WithoutDistinctLength(xs, id);
    } else {
      WithoutAbsent(xs, id);
    }
  }

  /** `onClearAll()`: the comparison list is emptied and nothing else changes. */
  function ClearCompare(p: Page): (r: Page)
    ensures |r.compareList| == 0
    ensures r.filters == p.filters && r.aiFilteredCards == p.aiFilteredCards
  {
    p.(compareList := [])
  }

  /**
   After clear-all the grid is as it was, and comparing any card starts a new
   list holding just that card.
   */
  lemma ClearCompareThenCompare(p: Page, card: Card)
    ensures Visible(ClearCompare(p)) == Visible(p)
    ensures HandleCompare(ClearCompare(p), card) == (p.(compareList := [card.id]), AddedToComparison)
  {
    var cleared := ClearCompare(p);
    assert cleared.compareList + [card.id] == [card.id];
  }

  /**
   `handleAIQueryResults(ids)`: the assistant's ids become the restriction
   and the filter panel is reset; the comparison list is kept.
   */
  function HandleAIQueryResults(p: Page, ids: seq<string>): (r: Page)
    ensures r.aiFilteredCards == ids
    ensures r.filters == ClearAllFilters()
    ensures r.compareList == p.compareList
  {
    p.(aiFilteredCards := ids, filters := DefaultFilters())
  }

  /** `clearAIFilter()`: the restriction is dropped; filters and comparison list stay. */
  function ClearAIFilter(p: Page): (r: Page)
    ensures |r.aiFilteredCards| == 0
    ensures r.filters == p.filters && r.compareList == p.compareList
  {
    p.(aiFilteredCards := [])
  }

  /**
   After an assistant query the grid shows exactly the catalog cards whose
   ids it returned, in catalog order, whatever filters were set before; an
   empty answer shows the whole catalog.
   */
  lemma AIQueryResultsShowReturnedCards(p: Page, ids: seq<string>)
    ensures |ids| > 0 ==> Visible(HandleAIQueryResults(p, ids)) == Filter(Cards, AiKeep(ids))
    ensures |ids| == 0 ==> Visible(HandleAIQueryResults(p, ids)) == Cards
  {
    ClearedFiltersShowEverything();
    AiRestrictionNarrows(Cards, ClearAllFilters(), ids);
  }

  /** Dropping the assistant's restriction right after a query shows the whole catalog again. */
  lemma ClearAIFilterAfterQueryShowsEverything(p: Page, ids: seq<string>)
    ensures Visible(ClearAIFilter(HandleAIQueryResults(p, ids))) == Cards
  {
    ClearedFiltersShowEverything();
  }

  /** `creditCardsData.find(card => card.id === id)`: the first card with that id. */
  function Find(catalog: seq<Card>, id: string): (r: Option<Card>)
    ensures r.Some? <==> id in Ids(catalog)
    ensures r.Some? ==> r.value in catalog && r.value.id == id
    ensures r.Some? ==>
      exists i :: 0 <= i < |catalog| && catalog[i] == r.value && forall j :: 0 <= j < i ==> catalog[j].id != id
  {
    if |catalog| == 0 then None
    else if catalog[0].id == id then Some(catalog[0])
    else
      var r := Find(catalog[1..], id);
      IdsCons(catalog);
      if r.Some? then
        var i :| 0 <= i < |catalog[1..]| && catalog[1..][i] == r.value
          && forall j :: 0 <= j < i ==> catalog[1..][j].id != id;
        assert catalog[i + 1] == r.value;
        r
      else r
  }

  /** In a catalog with distinct ids, looking up a card's id finds that card. */
  lemma FindCatalogCard(catalog: seq<Card>, c: Card)
    requires Distinct(Ids(catalog)) && c in catalog
    ensures Find(catalog, c.id) == Some(c)
  {
    var k :| 0 <= k < |catalog| && catalog[k] == c;
    assert Ids(catalog)[k] == c.id;
    var r := Find(catalog, c.id);
    var i :| 0 <= i < |catalog| && catalog[i] == r.value && forall j :: 0 <= j < i ==> catalog[j].id != c.id;
    assert Ids(catalog)[i] == c.id;
  }

  function InCatalogFn(catalog: seq<Card>): string -> bool {
    (id: string) => id in Ids(catalog)
  }

  /**
   `compareList.map(find).filter(Boolean)`: the cards of the listed ids, in
   list order; an id with no card is skipped.
   */
  function CompareCards(catalog: seq<Card>, ids: seq<string>): (r: seq<Card>)
    ensures Ids(r) == Filter(ids, InCatalogFn(catalog))
    ensures forall c :: c in r ==> c in catalog
  {
    if |ids| == 0 then []
    else
      var rest := CompareCards(catalog, ids[1..]);
      match Find(catalog, ids[0])
      case Some(c) =>
        assert Ids([c] + rest) == [c.id] + Ids(rest) by {
          IdsCons([c] + rest);
          assert ([c] + rest)[1..] == rest;
        }
        [c] + rest
      case None => rest
  }

  /** Every listed id that names a catalog card yields one card. */
  lemma CompareCardsOfCatalogIds(catalog: seq<Card>, ids: seq<string>)
    requires forall id :: id in ids ==> id in Ids(catalog)
    ensures |CompareCards(catalog, ids)| == |ids|
    ensures Ids(CompareCards(catalog, ids)) == ids
  {
    FilterKeepsAll(ids, InCatalogFn(catalog));
  }

  /** The panel shows the two cards of a comparison in the order they were added. */
  lemma CompareCardsExample()
    ensures CompareCards(Cards, ["axis-magnus", "hdfc-regalia"]) == [AxisMagnus, HdfcRegalia]
  {
    CatalogIdsDistinct();
    FindCatalogCard(Cards, AxisMagnus);
    FindCatalogCard(Cards, HdfcRegalia);
    var ids := ["axis-magnus", "hdfc-regalia"];
    assert ids[1..] == ["hdfc-regalia"];
    assert ids[1..][1..] == [];
  }

}
