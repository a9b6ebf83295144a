/**
 The card catalog: the `CreditCard` record and the fixed, read-only list of
 six cards every other component works from.
 */
module Catalog {
  import opened Options
  import opened Seqs

  /** The four card tiers. */
  datatype CardType = EntryLevel | MidTier | Premium | SuperPremium

  /** The three kinds of historical offer. */
  datatype OfferKind = Welcome | Cashback | Waiver

  datatype Offer = Offer(date: string, offer: string, kind: OfferKind)

  /**
   One card record. The tier is called `kind` because `type` is a keyword;
   the star rating is kept in tenths of a star. Fees and salaries are whole
   rupees. `fuelSurcharge` is true when the surcharge is charged, that is,
   when there is no waiver.
   */
  datatype Card = Card(
    id: string,
    name: string,
    bank: string,
    kind: CardType,
    annualFee: int,
    joiningFee: int,
    rewardRate: string,
    welcomeBonus: string,
    loungeAccess: bool,
    fuelSurcharge: bool,
    minSalary: int,
    benefits: seq<string>,
    categories: seq<string>,
    ratingTenths: int,
    description: string,
    keyHighlights: seq<string>,
    restrictions: seq<string>,
    offerHistory: Option<seq<Offer>>)

  /** The string the source stores in the `type` field. */
  function TypeName(t: CardType): string {
    match t
    case EntryLevel => "entry-level"
    case MidTier => "mid-tier"
    case Premium => "premium"
    case SuperPremium => "super-premium"
  }

  /** The string the source stores in an offer's `type` field. */
  function OfferKindName(k: OfferKind): string {
    match k
    case Welcome => "welcome"
    case Cashback => "cashback"
    case Waiver => "waiver"
  }

  /** The tier names offered by the card-type facet, in display order. */
  const CardTypeNames: seq<string> := ["entry-level", "mid-tier", "premium", "super-premium"]

  /** Exactly four tiers exist: the names are the facet's four, all different. */
  lemma CardTypeNamesExact()
    ensures forall t :: TypeName(t) in CardTypeNames
    ensures forall n :: n in CardTypeNames ==> exists t :: TypeName(t) == n
    ensures forall t, u :: TypeName(t) == TypeName(u) ==> t == u
    ensures |CardTypeNames| == 4 && Distinct(CardTypeNames)
  {
    assert TypeName(EntryLevel) == CardTypeNames[0];
    assert TypeName(MidTier) == CardTypeNames[1];
    assert TypeName(Premium) == CardTypeNames[2];
    assert TypeName(SuperPremium) == CardTypeNames[3];
  }

  /** Exactly three offer kinds exist, with different names. */
  lemma OfferKindNamesExact()
    ensures forall k :: OfferKindName(k) in ["welcome", "cashback", "waiver"]
    ensures forall k, l :: OfferKindName(k) == OfferKindName(l) ==> k == l
  {
  }

  const HdfcRegalia := Card(
    "hdfc-regalia", "HDFC Regalia", "HDFC Bank", Premium, 2500, 2500,
    "4 reward points per ₹150", "10,000 reward points", true, false, 300000,
    ["Complimentary airport lounge access", "Golf privileges at premium courses",
     "1% fuel surcharge waiver", "Concierge services", "Travel insurance up to ₹1 crore"],
    ["travel", "dining", "shopping", "fuel"],
    43,
    "A premium lifestyle credit card with excellent travel benefits and reward points.",
    ["High reward rate on all spends", "Comprehensive travel insurance", "Premium airport lounge access"],
    ["High income requirement", "Annual fee waiver conditions apply"],
    Some([Offer("2024-12", "Annual fee waiver for first year", Waiver),
          Offer("2024-11", "15,000 bonus points on ₹1L spend", Welcome),
          Offer("2024-10", "5% cashback on dining", Cashback)]))

  const AxisMagnus := Card(
    "axis-magnus", "Axis Magnus", "Axis Bank", SuperPremium, 12500, 12500,
    "12 EDGE points per ₹200", "25,000 EDGE points", true, false, 1500000,
    ["Unlimited domestic lounge access", "12 international lounge visits",
     "Golf privileges at 500+ courses", "Concierge services", "Travel insurance up to ₹5 crores",
     "Priority Pass membership"],
    ["travel", "dining", "shopping", "international"],
    46,
    "Ultra-premium credit card with exceptional travel benefits and highest reward rates.",
    ["Best-in-class reward rate", "Unlimited domestic lounge access", "Premium travel insurance coverage"],
    ["Very high income requirement", "Expensive annual fee"],
    Some([Offer("2024-12", "50,000 bonus points on ₹2L spend", Welcome),
          Offer("2024-11", "Golf membership worth ₹25,000", Welcome),
          Offer("2024-10", "10% cashback on international spends", Cashback)]))

  const IciciAmazonPay := Card(
    "icici-amazon-pay", "ICICI Amazon Pay", "ICICI Bank", EntryLevel, 0, 0,
    "5% cashback on Amazon", "₹2000 Amazon voucher", false, true, 200000,
    ["5% cashback on Amazon purchases", "2% cashback on bill payments",
     "1% cashback on other purchases", "No annual fee", "Instant digital card"],
    ["online shopping", "bill payments", "everyday spend"],
    42,
    "Perfect entry-level card for Amazon shopping with excellent cashback rates.",
    ["No annual fee lifetime", "High cashback on Amazon", "Easy approval process"],
    ["Limited lounge access", "Cashback capped monthly"],
    Some([Offer("2024-12", "₹3000 Amazon voucher on approval", Welcome),
          Offer("2024-11", "7% cashback on Amazon for Prime members", Cashback),
          Offer("2024-10", "No processing fee", Waiver)]))

  const SbiElite := Card(
    "sbi-elite", "SBI Elite", "State Bank of India", Premium, 4999, 4999,
    "5 reward points per ₹100", "20,000 reward points", true, false, 500000,
    ["8 domestic lounge visits", "4 international lounge visits", "Golf privileges",
     "Travel insurance", "Concierge services", "Priority customer service"],
    ["travel", "dining", "entertainment", "shopping"],
    41,
    "Premium card from India's largest bank with comprehensive travel benefits.",
    ["Good reward rate", "Trusted bank network", "Comprehensive insurance"],
    ["Limited lounge visits", "Reward redemption conditions"],
    Some([Offer("2024-12", "First year fee waiver", Waiver),
          Offer("2024-11", "25,000 bonus points on ₹1.5L spend", Welcome),
          Offer("2024-10", "3% cashback on travel bookings", Cashback)]))

  const AmexPlatinumTravel := Card(
    "amex-platinum-travel", "American Express Platinum Travel", "American Express", SuperPremium, 60000, 60000,
    "5 MR points per ₹100", "80,000 MR points", true, false, 2500000,
    ["Unlimited airport lounge access worldwide", "Centurion Lounge access",
     "Fine Hotels & Resorts program", "Concierge services 24/7", "Travel insurance up to ₹10 crores",
     "Priority Pass Black membership"],
    ["luxury travel", "dining", "hotels", "international"],
    48,
    "Ultra-luxury credit card with unmatched travel privileges and concierge services.",
    ["Unlimited worldwide lounge access", "Premium hotel benefits", "Exceptional customer service"],
    ["Very high annual fee", "Limited merchant acceptance", "High income requirement"],
    Some([Offer("2024-12", "1,00,000 MR points on ₹4L spend", Welcome),
          Offer("2024-11", "Taj Hotel membership worth ₹50,000", Welcome),
          Offer("2024-10", "10% cashback on international travel", Cashback)]))

  const KotakWhiteReserve := Card(
    "kotak-white-reserve", "Kotak White Reserve", "Kotak Mahindra Bank", SuperPremium, 10000, 10000,
    "10 reward points per ₹100", "50,000 reward points", true, false, 1000000,
    ["Unlimited domestic lounge access", "6 international lounge visits", "Golf privileges",
     "Concierge services", "Travel insurance", "Movie ticket offers"],
    ["travel", "entertainment", "dining", "lifestyle"],
    44,
    "Premium lifestyle card with excellent entertainment and travel benefits.",
    ["High reward rate", "Unlimited domestic lounges", "Great entertainment offers"],
    ["Annual fee conditions", "Reward point expiry"],
    Some([Offer("2024-12", "Annual fee waiver on ₹5L spend", Waiver),
          Offer("2024-11", "60,000 bonus points on joining", Welcome),
          Offer("2024-10", "Free movie tickets for 6 months", Welcome)]))

  /** The catalog, in the order the application lists it. */
  const Cards: seq<Card> :=
    [HdfcRegalia, AxisMagnus, IciciAmazonPay, SbiElite, AmexPlatinumTravel, KotakWhiteReserve]

  /** The ids of a list of cards, in list order. */
  function Ids(cards: seq<Card>): (r: seq<string>)
    ensures |r| == |cards|
    ensures forall i :: 0 <= i < |cards| ==> r[i] == cards[i].id
  {
    seq(|cards|, i requires 0 <= i < |cards| => cards[i].id)
  }

  /** The ids of a non-empty list: the head's id, then the tail's ids. */
  lemma IdsCons(cards: seq<Card>)
    requires |cards| > 0
    ensures Ids(cards) == [cards[0].id] + Ids(cards[1..])
  {
  }

  // The ids of short literal lists.

  lemma IdsOfOne(a: Card)
    ensures Ids([a]) == [a.id]
  {
  }

  lemma IdsOfTwo(a: Card, b: Card)
    ensures Ids([a, b]) == [a.id, b.id]
  {
  }

  lemma IdsOfFive(a: Card, b: Card, c: Card, d: Card, e: Card)
    ensures Ids([a, b, c, d, e]) == [a.id, b.id, c.id, d.id, e.id]
  {
  }

  /** A card id belongs to the catalog. */
  predicate IsCatalogId(id: string) {
    id in Ids(Cards)
  }

  /** The default fee slider spans [0, 100000]; the default salary slider [0, 3000000]. */
  const MaxAnnualFee := 100000
  const MaxMinSalary := 3000000

  /** The six ids are pairwise different, so an id identifies one card. */
  lemma CatalogIdsDistinct()
    ensures |Cards| == 6
    ensures Ids(Cards) == ["hdfc-regalia", "axis-magnus", "icici-amazon-pay",
                          "sbi-elite", "amex-platinum-travel", "kotak-white-reserve"]
    ensures Distinct(Ids(Cards))
  {
  }

  /** Every fee and every salary lies inside the default slider ranges. */
  lemma CatalogWithinDefaultRanges()
    ensures forall c :: c in Cards ==> 0 <= c.annualFee <= MaxAnnualFee
    ensures forall c :: c in Cards ==> 0 <= c.minSalary <= MaxMinSalary
  {
  }

  /** The only lifetime-free card is ICICI Amazon Pay. */
  lemma OnlyFreeCardIsIcici()
    ensures forall c :: c in Cards ==> (c.annualFee == 0 <==> c.id == "icici-amazon-pay")
    ensures IciciAmazonPay in Cards && IciciAmazonPay.annualFee == 0
  {
  }

  /** The only card that charges the fuel surcharge and has no lounge access is ICICI Amazon Pay. */
  lemma OnlySurchargedCardIsIcici()
    ensures forall c :: c in Cards ==> (c.fuelSurcharge <==> c.id == "icici-amazon-pay")
    ensures forall c :: c in Cards ==> (!c.loungeAccess <==> c.id == "icici-amazon-pay")
  {
  }

  /** Every card charges the same joining fee as annual fee. */
  lemma JoiningFeeIsAnnualFee()
    ensures forall c :: c in Cards ==> c.annualFee == c.joiningFee
  {
  }

}
