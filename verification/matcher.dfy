/**
 The assistant panel's query matcher: a fixed list of keyword rules over
 the lower-cased query, the first rule that fires deciding the card ids and
 the summary, with a fallback answer when none fires.
 */
module Matcher {
  import opened Seqs
  import opened Text
  import opened Catalog

  /** One answered query, as the panel's history keeps it (the timestamp is not modelled). */
  datatype QueryResult = QueryResult(query: string, results: seq<string>, summary: string)

  const LoungeIds: seq<string> :=
    ["hdfc-regalia", "axis-magnus", "sbi-elite", "amex-platinum-travel", "kotak-white-reserve"]
  const NoFeeIds: seq<string> := ["icici-amazon-pay"]
  const FirstTimeIds: seq<string> := ["icici-amazon-pay", "sbi-elite"]
  const ComparisonIds: seq<string> := ["axis-magnus", "hdfc-regalia"]
  const FuelIds: seq<string> := ["hdfc-regalia", "axis-magnus", "sbi-elite", "kotak-white-reserve"]
  const OnlineIds: seq<string> := ["icici-amazon-pay", "axis-magnus", "kotak-white-reserve"]
  const BudgetPremiumIds: seq<string> := ["hdfc-regalia", "sbi-elite"]
  const FallbackIds: seq<string> := ["hdfc-regalia", "axis-magnus", "icici-amazon-pay"]

  /** The six catalog ids, spelled out. */
  const CatalogIds: seq<string> :=
    ["hdfc-regalia", "axis-magnus", "icici-amazon-pay", "sbi-elite", "amex-platinum-travel", "kotak-white-reserve"]

  lemma CatalogIdsAreCatalog()
    ensures forall id :: id in CatalogIds <==> IsCatalogId(id)
  {
    CatalogIdsDistinct();
  }

  /** The eight canned answers: one per rule, and the fallback. */
  datatype Response = Lounge | NoFee | FirstTime | Comparison | Fuel | Online | BudgetPremium | General

  /** The card ids each answer recommends, in the order it lists them. */
  function ResponseIds(a: Response): seq<string> {
    match a
    case Lounge => LoungeIds
    case NoFee => NoFeeIds
    case FirstTime => FirstTimeIds
    case Comparison => ComparisonIds
    case Fuel => FuelIds
    case Online => OnlineIds
    case BudgetPremium => BudgetPremiumIds
    case General => FallbackIds
  }

  /** The summary text of each answer. */
  function ResponseSummary(a: Response): string {
    match a
    case Lounge =>
      "Found premium cards with airport lounge access benefits. All cards offer domestic lounge access with varying international access."
    case NoFee =>
      "Found lifetime free credit cards with excellent cashback benefits. Perfect for first-time users."
    case FirstTime =>
      "Entry-level cards with lower income requirements and good benefits for building credit history."
    case Comparison =>
      "Axis Magnus offers higher reward rates and unlimited domestic lounge access but has a higher annual fee. HDFC Regalia provides excellent value with good rewards and travel benefits at a lower fee."
    case Fuel =>
      "Cards offering fuel surcharge waiver and additional rewards on fuel transactions."
    case Online =>
      "Best cards for online shopping with high cashback rates and reward points on e-commerce platforms."
    case BudgetPremium =>
      "Premium cards under ₹10,000 annual fee offering excellent travel benefits and reward rates."
    case General =>
      "Here are some popular credit cards that might match your requirements. Consider your spending patterns and income for the best choice."
  }

  /** Different answers recommend different lists, so the list identifies the answer. */
  lemma ResponseIdsInjective(a: Response, b: Response)
    ensures ResponseIds(a) == ResponseIds(b) <==> a == b
  {
  }

  /** A list some answer recommends is the comparison list exactly when that answer is the comparison. */
  lemma ListNamesComparison(ids: seq<string>, a: Response)
    requires ids == ResponseIds(a)
    ensures ids == ComparisonIds <==> a == Comparison
  {
    ResponseIdsInjective(a, Comparison);
  }

  /** The matching cascade over an already lower-cased query, as the application's chain of tests. */
  function Answer(q: string): Response {
    if Contains(q, "lounge") then Lounge
    else if Contains(q, "no annual fee") || Contains(q, "free") then NoFee
    else if Contains(q, "first-time") || Contains(q, "beginner") then FirstTime
    else if Contains(q, "axis magnus") && Contains(q, "hdfc regalia") then Comparison
    else if Contains(q, "fuel") then Fuel
    else if Contains(q, "online") || Contains(q, "shopping") then Online
    else if Contains(q, "premium") && Contains(q, "10000") then BudgetPremium
    else General
  }

  /** Every answer names at least one card, names no card twice, and names only catalog cards. */
  lemma ResponsesWellFormed()
    ensures forall a :: |ResponseIds(a)| > 0 && Distinct(ResponseIds(a))
    ensures forall a, id :: id in ResponseIds(a) ==> id in CatalogIds
  {
  }

  /**
   `processAIQuery(userQuery)`: the query is echoed unchanged, and the ids
   come from the first rule that fires on its lower-case form. The answer is
   never empty, repeats no id and names only catalog cards.
   */
  function ProcessAIQuery(userQuery: string): (r: QueryResult)
    ensures r.query == userQuery
    ensures |r.results| > 0 && Distinct(r.results)
    ensures forall id :: id in r.results ==> id in CatalogIds
  {
    ResponsesWellFormed();
    var a := Answer(Lower(userQuery));
    QueryResult(userQuery, ResponseIds(a), ResponseSummary(a))
  }

  /** Every id the matcher recommends belongs to a card of the catalog. */
  lemma ProcessAIQueryNamesCatalogCards(userQuery: string)
    ensures forall id :: id in ProcessAIQuery(userQuery).results ==> IsCatalogId(id)
  {
    CatalogIdsAreCatalog();
  }

  /** The answer depends on the query only through its lower-case form. */
  lemma ProcessAIQueryIgnoresCase(userQuery: string)
    ensures ProcessAIQuery(userQuery).results == ProcessAIQuery(Lower(userQuery)).results
    ensures ProcessAIQuery(userQuery).summary == ProcessAIQuery(Lower(userQuery)).summary
  {
    LowerIdempotent(userQuery);
  }

  /** The phrases that make a rule fire: any one of them, or all of them. */
  datatype Trigger = AnyOf(phrases: seq<string>) | AllOf(phrases: seq<string>)

  predicate Fires(t: Trigger, q: string) {
    match t
    case AnyOf(ps) => exists i :: 0 <= i < |ps| && Contains(q, ps[i])
    case AllOf(ps) => forall i :: 0 <= i < |ps| ==> Contains(q, ps[i])
  }

  /** A keyword rule: the trigger and the answer it gives. */
  datatype Rule = Rule(trigger: Trigger, response: Response)

  /** The seven rules, in the order the matcher tries them. */
  const Rules: seq<Rule> := [
    Rule(AnyOf(["lounge"]), Lounge),
    Rule(AnyOf(["no annual fee", "free"]), NoFee),
    Rule(AnyOf(["first-time", "beginner"]), FirstTime),
    Rule(AllOf(["axis magnus", "hdfc regalia"]), Comparison),
    Rule(AnyOf(["fuel"]), Fuel),
    Rule(AnyOf(["online", "shopping"]), Online),
    Rule(AllOf(["premium", "10000"]), BudgetPremium)]

  /** No rule before index `k` fires on `q`. */
  predicate NoneFiresBefore(rules: seq<Rule>, q: string, k: int)
    requires k <= |rules|
  {
    forall i :: 0 <= i < k ==> !Fires(rules[i].trigger, q)
  }

  /** The answer of the first rule of `rules` that fires on `q`, or the general answer when none does. */
  function FirstMatch(rules: seq<Rule>, q: string): (r: Response)
    ensures NoneFiresBefore(rules, q, |rules|) ==> r == General
    ensures forall k :: 0 <= k < |rules| && Fires(rules[k].trigger, q) && NoneFiresBefore(rules, q, k) ==>
      r == rules[k].response
  {
    if |rules| == 0 then General
    else if Fires(rules[0].trigger, q) then rules[0].response
    else
      var r := FirstMatch(rules[1..], q);
      assert forall i :: 1 <= i < |rules| ==> rules[i] == rules[1..][i - 1];
      r
  }

  lemma AnyOfOne(p: string, q: string)
    ensures Fires(AnyOf([p]), q) == Contains(q, p)
  {
    if Contains(q, p) {
      assert [p][0] == p;
    }
  }

  lemma AnyOfTwo(p: string, p': string, q: string)
    ensures Fires(AnyOf([p, p']), q) == (Contains(q, p) || Contains(q, p'))
  {
    if Contains(q, p) {
      assert [p, p'][0] == p;
    } else if Contains(q, p') {
      assert [p, p'][1] == p';
    }
  }

  lemma AllOfTwo(p: string, p': string, q: string)
    ensures Fires(AllOf([p, p']), q) == (Contains(q, p) && Contains(q, p'))
  {
    assert [p, p'][0] == p && [p, p'][1] == p';
  }

  /** What makes each rule of the table fire, spelled out. */
  lemma RuleTriggers(q: string)
    ensures Fires(Rules[0].trigger, q) == Contains(q, "lounge")
    ensures Fires(Rules[1].trigger, q) == (Contains(q, "no annual fee") || Contains(q, "free"))
    ensures Fires(Rules[2].trigger, q) == (Contains(q, "first-time") || Contains(q, "beginner"))
    ensures Fires(Rules[3].trigger, q) == (Contains(q, "axis magnus") && Contains(q, "hdfc regalia"))
    ensures Fires(Rules[4].trigger, q) == Contains(q, "fuel")
    ensures Fires(Rules[5].trigger, q) == (Contains(q, "online") || Contains(q, "shopping"))
    ensures Fires(Rules[6].trigger, q) == (Contains(q, "premium") && Contains(q, "10000"))
  {
    AnyOfOne("lounge", q);
    AnyOfTwo("no annual fee", "free", q);
    AnyOfTwo("first-time", "beginner", q);
    AllOfTwo("axis magnus", "hdfc regalia", q);
    AnyOfOne("fuel", q);
    AnyOfTwo("online", "shopping", q);
    AllOfTwo("premium", "10000", q);
  }

  /** The chain of tests is the first-match reading of the rule table. */
  lemma AnswerIsFirstMatch(q: string)
    ensures Answer(q) == FirstMatch(Rules, q)
  {
    RuleTriggers(q);
    if Fires(Rules[0].trigger, q) {
    } else if Fires(Rules[1].trigger, q) {
      assert NoneFiresBefore(Rules, q, 1);
    } else if Fires(Rules[2].trigger, q) {
      assert NoneFiresBefore(Rules, q, 2);
    } else if Fires(Rules[3].trigger, q) {
      assert NoneFiresBefore(Rules, q, 3);
    } else if Fires(Rules[4].trigger, q) {
      assert NoneFiresBefore(Rules, q, 4);
    } else if Fires(Rules[5].trigger, q) {
      assert NoneFiresBefore(Rules, q, 5);
    } else if Fires(Rules[6].trigger, q) {
      assert NoneFiresBefore(Rules, q, 6);
    } else {
      assert NoneFiresBefore(Rules, q, 7);
    }
  }

  /** The matcher answers with the first rule of the table that fires on the lower-cased query. */
  lemma ProcessAIQueryIsFirstMatch(userQuery: string)
    ensures var a := FirstMatch(Rules, Lower(userQuery));
      ProcessAIQuery(userQuery) == QueryResult(userQuery, ResponseIds(a), ResponseSummary(a))
  {
    AnswerIsFirstMatch(Lower(userQuery));
  }

  /** When rule `k` is the first to fire on the lower-cased query, the result is that rule's answer. */
  lemma FirstFiringRuleAnswers(userQuery: string, k: int)
    requires 0 <= k < |Rules|
    requires NoneFiresBefore(Rules, Lower(userQuery), k) && Fires(Rules[k].trigger, Lower(userQuery))
    ensures ProcessAIQuery(userQuery).results == ResponseIds(Rules[k].response)
    ensures ProcessAIQuery(userQuery).summary == ResponseSummary(Rules[k].response)
  {
    ProcessAIQueryIsFirstMatch(userQuery);
  }

  /** The matcher's result carries the ids and the summary of the answer its cascade picks. */
  lemma ProcessAIQueryAnswers(userQuery: string, a: Response)
    requires Answer(Lower(userQuery)) == a
    ensures ProcessAIQuery(userQuery).results == ResponseIds(a)
    ensures ProcessAIQuery(userQuery).summary == ResponseSummary(a)
  {
  }

  /** A query mentioning "lounge" gets the lounge answer, whatever else it asks for. */
  lemma LoungeRuleWins(userQuery: string)
    requires Contains(Lower(userQuery), "lounge")
    ensures ProcessAIQuery(userQuery).results == LoungeIds
    ensures ProcessAIQuery(userQuery).summary == ResponseSummary(Lounge)
  {
    assert Answer(Lower(userQuery)) == Lounge;
    ProcessAIQueryAnswers(userQuery, Lounge);
  }

  /** When no rule fires on the lower-cased query, the general answer is given. */
  lemma FallbackWhenNoRuleFires(userQuery: string)
    requires NoneFiresBefore(Rules, Lower(userQuery), |Rules|)
    ensures ProcessAIQuery(userQuery).results == FallbackIds
    ensures ProcessAIQuery(userQuery).summary == ResponseSummary(General)
  {
    AnswerIsFirstMatch(Lower(userQuery));
    ProcessAIQueryAnswers(userQuery, General);
  }

  function HasLoungeFn(): Card -> bool {
    (c: Card) => c.loungeAccess
  }

  function NoFeeFn(): Card -> bool {
    (c: Card) => c.annualFee == 0
  }

  function BudgetPremiumFn(): Card -> bool {
    (c: Card) => c.kind == Premium && c.annualFee <= 10000
  }

  /** The lounge answer lists exactly the catalog cards with lounge access, in catalog order. */
  lemma LoungeIdsAreLoungeCards()
    ensures LoungeIds == Ids(Filter(Cards, HasLoungeFn()))
  {
    FilterAllButThird(HdfcRegalia, AxisMagnus, IciciAmazonPay, SbiElite, AmexPlatinumTravel, KotakWhiteReserve,
                      HasLoungeFn());
    IdsOfFive(HdfcRegalia, AxisMagnus, SbiElite, AmexPlatinumTravel, KotakWhiteReserve);
  }

  /** The no-fee answer lists exactly the catalog cards without an annual fee. */
  lemma NoFeeIdsAreFreeCards()
    ensures NoFeeIds == Ids(Filter(Cards, NoFeeFn()))
  {
    FilterOnlyThird(HdfcRegalia, AxisMagnus, IciciAmazonPay, SbiElite, AmexPlatinumTravel, KotakWhiteReserve,
                    NoFeeFn());
    IdsOfOne(IciciAmazonPay);
  }

  /** The "premium under 10000" answer lists exactly the premium-tier cards with a fee of at most 10000. */
  lemma BudgetPremiumIdsArePremiumCards()
    ensures BudgetPremiumIds == Ids(Filter(Cards, BudgetPremiumFn()))
  {
    FilterFirstAndFourth(HdfcRegalia, AxisMagnus, IciciAmazonPay, SbiElite, AmexPlatinumTravel, KotakWhiteReserve,
                         BudgetPremiumFn());
    IdsOfTwo(HdfcRegalia, SbiElite);
  }

  function WaivesFuelFn(): Card -> bool {
    (c: Card) => !c.fuelSurcharge
  }

  /**
   The fuel answer lists the catalog cards that waive the fuel surcharge, in
   catalog order, except the American Express card, which waives it as well.
   */
  lemma FuelIdsAreWaivingCardsButAmex()
    ensures "amex-platinum-travel" in Ids(Filter(Cards, WaivesFuelFn()))
    ensures FuelIds == Without(Ids(Filter(Cards, WaivesFuelFn())), "amex-platinum-travel")
  {
    FilterAllButThird(HdfcRegalia, AxisMagnus, IciciAmazonPay, SbiElite, AmexPlatinumTravel, KotakWhiteReserve,
                      WaivesFuelFn());
    IdsOfFive(HdfcRegalia, AxisMagnus, SbiElite, AmexPlatinumTravel, KotakWhiteReserve);
    WithoutFourth("hdfc-regalia", "axis-magnus", "sbi-elite", "amex-platinum-travel", "kotak-white-reserve");
  }

  /** The query names both compared cards and no earlier rule fires. */
  predicate AsksComparison(q: string) {
    && !Contains(q, "lounge")
    && !(Contains(q, "no annual fee") || Contains(q, "free"))
    && !(Contains(q, "first-time") || Contains(q, "beginner"))
    && Contains(q, "axis magnus") && Contains(q, "hdfc regalia")
  }

  /** The comparison answer is given exactly when both card names occur and no earlier rule fires. */
  lemma AnswerComparisonIff(q: string)
    ensures Answer(q) == Comparison <==> AsksComparison(q)
  {
  }

  /** A result carrying the answer to `q` names the compared cards exactly when `q` asks for the comparison. */
  lemma ComparisonResultIff(r: QueryResult, q: string)
    requires r.results == ResponseIds(Answer(q))
    ensures r.results == ComparisonIds <==> AsksComparison(q)
  {
    AnswerComparisonIff(q);
    ListNamesComparison(r.results, Answer(q));
  }

  /** The matcher recommends the two compared cards exactly when the query asks for the comparison. */
  lemma ComparisonNeedsBothNames(userQuery: string)
    ensures ProcessAIQuery(userQuery).results == ComparisonIds <==> AsksComparison(Lower(userQuery))
  {
    ComparisonResultIff(ProcessAIQuery(userQuery), Lower(userQuery));
  }

}
