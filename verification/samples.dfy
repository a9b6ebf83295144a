/**
 The five sample queries the assistant panel offers, and the answers the
 matcher gives them. Each sample is written as its words joined by single
 spaces, which is the same string as the panel's literal; the proofs go word
 by word, since a keyword without a space cannot straddle one.
 */
module Samples {
  import opened Text
  import opened Matcher

  const Sample1 := "Show" + " " + "me" + " " + "cards" + " " + "that" + " " + "offer" + " " + "lounge"
    + " " + "access" + " " + "and" + " " + "high" + " " + "cashback" + " " + "on" + " " + "fuel"
  const Sample2 := "Best" + " " + "credit" + " " + "cards" + " " + "for" + " " + "first-time" + " " + "users"
    + " " + "with" + " " + "no" + " " + "annual" + " " + "fee"
  const Sample3 := "Compare" + " " + "Axis" + " " + "Magnus" + " " + "vs" + " " + "HDFC" + " " + "Regalia"
    + " " + "with" + " " + "benefits" + " " + "summary"
  const Sample4 := "Cards" + " " + "with" + " " + "highest" + " " + "reward" + " " + "points" + " " + "for"
    + " " + "online" + " " + "shopping"
  const Sample5 := "Premium" + " " + "cards" + " " + "under" + " " + "₹10,000" + " " + "annual" + " " + "fee"
    + " " + "with" + " " + "travel" + " " + "benefits"

  /** `sampleQueries`, in display order. */
  const SampleQueries: seq<string> := [Sample1, Sample2, Sample3, Sample4, Sample5]

  /** A keyword occurs in a lower-cased word. */
  predicate Has(w: string, t: string) {
    Contains(Lower(w), t)
  }

  /** A space-free keyword occurs in two words joined by a space exactly when it occurs in one of them. */
  lemma HasAcross(a: string, b: string, t: string)
    requires ' ' !in t
    ensures Has(a + " " + b, t) <==> Has(a, t) || Has(b, t)
  {
    ContainsAcrossSpace(a, b, t);
  }

  // ----- Sample 1: the lounge rule -----

  lemma Sample1HasLounge()
    ensures Has(Sample1, "lounge")
  {
    assert Lower("lounge") == "lounge";
    assert Has("lounge", "lounge");
    var p := "Show" + " " + "me" + " " + "cards" + " " + "that" + " " + "offer";
    HasAcross(p, "lounge", "lounge"); p := p + " " + "lounge";
    HasAcross(p, "access", "lounge"); p := p + " " + "access";
    HasAcross(p, "and", "lounge"); p := p + " " + "and";
    HasAcross(p, "high", "lounge"); p := p + " " + "high";
    HasAcross(p, "cashback", "lounge"); p := p + " " + "cashback";
    HasAcross(p, "on", "lounge"); p := p + " " + "on";
    HasAcross(p, "fuel", "lounge"); p := p + " " + "fuel";
  }

  /** The first sample asks about lounge access and gets the five lounge cards. */
  lemma Sample1Answer()
    ensures ProcessAIQuery(Sample1).results == LoungeIds
  {
    Sample1HasLounge();
  }

  /** None of the keywords `ts` occurs in `s`. */
  predicate Avoids(s: string, ts: seq<string>) {
    forall i :: 0 <= i < |ts| ==> !Contains(s, ts[i])
  }

  /** Each keyword `ts[i]` has a character `cs[i]` that `s` lacks, so `s` avoids all of them. */
  lemma AvoidsByChars(s: string, ts: seq<string>, cs: string)
    requires |cs| == |ts|
    requires forall i :: 0 <= i < |ts| ==> cs[i] in ts[i] && cs[i] !in s
    ensures Avoids(s, ts)
  {
    forall i | 0 <= i < |ts| ensures !Contains(s, ts[i]) {
      MissingCharExcludes(s, ts[i], cs[i]);
    }
  }

  /** Space-free keywords missing from two pieces are missing from the pieces joined by a space. */
  lemma AvoidsAcross(a: string, b: string, ts: seq<string>)
    requires forall i :: 0 <= i < |ts| ==> ' ' !in ts[i]
    requires Avoids(a, ts) && Avoids(b, ts)
    ensures Avoids(a + " " + b, ts)
  {
    forall i | 0 <= i < |ts| ensures !Contains(a + " " + b, ts[i]) {
      ContainsAroundSeparator(a, ' ', b, ts[i]);
    }
  }

  /** Lower-casing two pieces joined by a space lower-cases each piece. */
  lemma LowerJoin(a: string, b: string)
    ensures Lower(a + " " + b) == Lower(a) + " " + Lower(b)
  {
    LowerAppend(a + " ", b);
    LowerAppend(a, " ");
  }

  /** Text without capital letters is its own lower-case form. */
  lemma LowerOfLowercase(s: string)
    requires forall i :: 0 <= i < |s| ==> !('A' <= s[i] <= 'Z')
    ensures Lower(s) == s
  {
  }

  // ----- The words of the samples, lower-cased -----

  lemma LowerPremiumCardsUnder()
    ensures Lower("Premium") == "premium" && Lower("cards") == "cards" && Lower("under") == "under"
  {
    LowerOfLowercase("cards"); LowerOfLowercase("under");
  }

  lemma LowerRupeesAnnualFee()
    ensures Lower("₹10,000") == "₹10,000" && Lower("annual") == "annual" && Lower("fee") == "fee"
  {
    LowerOfLowercase("₹10,000"); LowerOfLowercase("annual"); LowerOfLowercase("fee");
  }

  lemma LowerWithTravelBenefits()
    ensures Lower("with") == "with" && Lower("travel") == "travel" && Lower("benefits") == "benefits"
  {
    LowerOfLowercase("with"); LowerOfLowercase("travel"); LowerOfLowercase("benefits");
  }

  lemma LowerBestCreditFor()
    ensures Lower("Best") == "best" && Lower("credit") == "credit" && Lower("for") == "for"
  {
    LowerOfLowercase("credit"); LowerOfLowercase("for");
  }

  lemma LowerFirstTimeUsersNo()
    ensures Lower("first-time") == "first-time" && Lower("users") == "users" && Lower("no") == "no"
  {
    LowerOfLowercase("first-time"); LowerOfLowercase("users"); LowerOfLowercase("no");
  }

  lemma LowerCompareAxisMagnus()
    ensures Lower("Compare") == "compare" && Lower("Axis") == "axis" && Lower("Magnus") == "magnus"
  {
  }

  lemma LowerVsHdfcRegalia()
    ensures Lower("vs") == "vs" && Lower("HDFC") == "hdfc" && Lower("Regalia") == "regalia"
  {
    LowerOfLowercase("vs");
  }

  lemma LowerSummary()
    ensures Lower("summary") == "summary"
  {
    LowerOfLowercase("summary");
  }

  lemma LowerCardsHighestReward()
    ensures Lower("Cards") == "cards" && Lower("highest") == "highest" && Lower("reward") == "reward"
  {
    LowerOfLowercase("highest"); LowerOfLowercase("reward");
  }

  lemma LowerPointsOnlineShopping()
    ensures Lower("points") == "points" && Lower("online") == "online" && Lower("shopping") == "shopping"
  {
    LowerOfLowercase("points"); LowerOfLowercase("online"); LowerOfLowercase("shopping");
  }

  // ----- Sample 5: no rule fires -----

  /** Keywords whose absence keeps every rule from firing. */
  const FallbackMisses: seq<string> :=
    ["lounge", "no", "free", "first-time", "beginner", "axis", "fuel", "online", "shopping", "10000"]

  lemma FallbackMissesSpaceFree()
    ensures forall i :: 0 <= i < |FallbackMisses| ==> ' ' !in FallbackMisses[i]
  {
  }

  const Lowered5 := "premium" + " " + "cards" + " " + "under" + " " + "₹10,000" + " " + "annual" + " " + "fee"
    + " " + "with" + " " + "travel" + " " + "benefits"

  lemma Sample5Lowered()
    ensures Lower(Sample5) == Lowered5
  {
    LowerPremiumCardsUnder(); LowerRupeesAnnualFee(); LowerWithTravelBenefits();
    var p := "Premium";
    LowerJoin(p, "cards"); p := p + " " + "cards";
    LowerJoin(p, "under"); p := p + " " + "under";
    LowerJoin(p, "₹10,000"); p := p + " " + "₹10,000";
    LowerJoin(p, "annual"); p := p + " " + "annual";
    LowerJoin(p, "fee"); p := p + " " + "fee";
    LowerJoin(p, "with"); p := p + " " + "with";
    LowerJoin(p, "travel"); p := p + " " + "travel";
    LowerJoin(p, "benefits"); p := p + " " + "benefits";
  }

  lemma PremiumAvoids() ensures Avoids("premium", FallbackMisses) {
    AvoidsByChars("premium", FallbackMisses, "loffbafos1");
  }
  lemma CardsAvoids() ensures Avoids("cards", FallbackMisses) {
    AvoidsByChars("cards", FallbackMisses, "lnffbxfoh1");
  }
  lemma UnderAvoids() ensures Avoids("under", FallbackMisses) {
    AvoidsByChars("under", FallbackMisses, "loffbafos1");
  }
  lemma RupeesAvoids() ensures Avoids("₹10,000", FallbackMisses) {}
  lemma AnnualAvoids() ensures Avoids("annual", FallbackMisses) {
    AvoidsByChars("annual", FallbackMisses, "ooffbxfos1");
  }
  lemma FeeAvoids() ensures Avoids("fee", FallbackMisses) {
    AvoidsByChars("fee", FallbackMisses, "lnribauos1");
  }
  lemma WithAvoids() ensures Avoids("with", FallbackMisses) {
    AvoidsByChars("with", FallbackMisses, "lnffbafos1");
  }
  lemma TravelAvoids() ensures Avoids("travel", FallbackMisses) {
    AvoidsByChars("travel", FallbackMisses, "onffbxfos1");
  }
  lemma BenefitsAvoids() ensures Avoids("benefits", FallbackMisses) {
    AvoidsByChars("benefits", FallbackMisses, "lorrgauoh1");
  }

  lemma Sample5Avoids()
    ensures Avoids(Lowered5, FallbackMisses)
  {
    FallbackMissesSpaceFree();
    var ts := FallbackMisses;
    PremiumAvoids(); CardsAvoids(); UnderAvoids(); RupeesAvoids(); AnnualAvoids();
    FeeAvoids(); WithAvoids(); TravelAvoids(); BenefitsAvoids();
    var p := "premium";
    AvoidsAcross(p, "cards", ts); p := p + " " + "cards";
    AvoidsAcross(p, "under", ts); p := p + " " + "under";
    AvoidsAcross(p, "₹10,000", ts); p := p + " " + "₹10,000";
    AvoidsAcross(p, "annual", ts); p := p + " " + "annual";
    AvoidsAcross(p, "fee", ts); p := p + " " + "fee";
    AvoidsAcross(p, "with", ts); p := p + " " + "with";
    AvoidsAcross(p, "travel", ts); p := p + " " + "travel";
    AvoidsAcross(p, "benefits", ts); p := p + " " + "benefits";
  }

  /**
   A text containing none of the words of `FallbackMisses` fires no rule: each
   rule needs one of them, "no" standing for "no annual fee" and "axis" for
   "axis magnus".
   */
  lemma FallbackMissesSilenceRules(q: string)
    requires Avoids(q, FallbackMisses)
    ensures NoneFiresBefore(Rules, q, |Rules|)
  {
    var ts := FallbackMisses;
    assert ts[0] == "lounge" && ts[1] == "no" && ts[2] == "free" && ts[3] == "first-time" && ts[4] == "beginner";
    assert ts[5] == "axis" && ts[6] == "fuel" && ts[7] == "online" && ts[8] == "shopping" && ts[9] == "10000";
    assert !Contains(q, ts[1]) && !Contains(q, ts[5]);
    if Contains(q, "no annual fee") {
      assert "no annual fee" == "no" + " annual fee";
      ContainsFront(q, "no", " annual fee");
    }
    if Contains(q, "axis magnus") {
      assert "axis magnus" == "axis" + " magnus";
      ContainsFront(q, "axis", " magnus");
    }
    RuleTriggers(q);
  }

  /**
   The fifth sample asks for premium cards under a fee written "₹10,000",
   which the rule spelled "10000" does not match, so it gets the fallback.
   */
  lemma Sample5Answer()
    ensures ProcessAIQuery(Sample5).results == FallbackIds
  {
    Sample5Lowered();
    Sample5Avoids();
    FallbackMissesSilenceRules(Lower(Sample5));
    FallbackWhenNoRuleFires(Sample5);
  }

  // ----- Sample 2: the no-fee rule -----

  const LoungeOnly: seq<string> := ["lounge"]

  /** A query without "lounge" that asks for no annual fee gets the lifetime-free card. */
  lemma NoFeeWhenAsked(userQuery: string)
    requires Avoids(Lower(userQuery), LoungeOnly)
    requires Contains(Lower(userQuery), "no annual fee")
    ensures ProcessAIQuery(userQuery).results == NoFeeIds
  {
    assert LoungeOnly[0] == "lounge";
  }

  const Lowered2 := "best" + " " + "credit" + " " + "cards" + " " + "for" + " " + "first-time" + " " + "users"
    + " " + "with" + " " + "no" + " " + "annual" + " " + "fee"

  lemma Sample2Lowered()
    ensures Lower(Sample2) == Lowered2
  {
    LowerBestCreditFor(); LowerFirstTimeUsersNo(); LowerPremiumCardsUnder(); LowerRupeesAnnualFee(); LowerWithTravelBenefits();
    var p := "Best";
    LowerJoin(p, "credit"); p := p + " " + "credit";
    LowerJoin(p, "cards"); p := p + " " + "cards";
    LowerJoin(p, "for"); p := p + " " + "for";
    LowerJoin(p, "first-time"); p := p + " " + "first-time";
    LowerJoin(p, "users"); p := p + " " + "users";
    LowerJoin(p, "with"); p := p + " " + "with";
    LowerJoin(p, "no"); p := p + " " + "no";
    LowerJoin(p, "annual"); p := p + " " + "annual";
    LowerJoin(p, "fee"); p := p + " " + "fee";
  }

  lemma Sample2AvoidsA()
    ensures Avoids("best", LoungeOnly) && Avoids("credit", LoungeOnly) && Avoids("cards", LoungeOnly)
      && Avoids("for", LoungeOnly)
  {
    assert Avoids("best", LoungeOnly) by { AvoidsByChars("best", LoungeOnly, "l"); }
    assert Avoids("credit", LoungeOnly) by { AvoidsByChars("credit", LoungeOnly, "l"); }
    assert Avoids("cards", LoungeOnly) by { AvoidsByChars("cards", LoungeOnly, "l"); }
    assert Avoids("for", LoungeOnly) by { AvoidsByChars("for", LoungeOnly, "l"); }
  }

  lemma Sample2AvoidsB()
    ensures Avoids("first-time", LoungeOnly) && Avoids("users", LoungeOnly) && Avoids("with", LoungeOnly)
  {
    assert Avoids("first-time", LoungeOnly) by { AvoidsByChars("first-time", LoungeOnly, "l"); }
    assert Avoids("users", LoungeOnly) by { AvoidsByChars("users", LoungeOnly, "l"); }
    assert Avoids("with", LoungeOnly) by { AvoidsByChars("with", LoungeOnly, "l"); }
  }

  lemma Sample2AvoidsC()
    ensures Avoids("no", LoungeOnly) && Avoids("annual", LoungeOnly) && Avoids("fee", LoungeOnly)
  {
    assert Avoids("no", LoungeOnly) by { AvoidsByChars("no", LoungeOnly, "l"); }
    assert Avoids("annual", LoungeOnly) by { AvoidsByChars("annual", LoungeOnly, "o"); }
    assert Avoids("fee", LoungeOnly) by { AvoidsByChars("fee", LoungeOnly, "l"); }
  }

  lemma Sample2NoLounge()
    ensures Avoids(Lowered2, LoungeOnly)
  {
    Sample2AvoidsA(); Sample2AvoidsB(); Sample2AvoidsC();
    assert LoungeOnly[0] == "lounge";
    var ts := LoungeOnly;
    var p := "best";
    AvoidsAcross(p, "credit", ts); p := p + " " + "credit";
    AvoidsAcross(p, "cards", ts); p := p + " " + "cards";
    AvoidsAcross(p, "for", ts); p := p + " " + "for";
    AvoidsAcross(p, "first-time", ts); p := p + " " + "first-time";
    AvoidsAcross(p, "users", ts); p := p + " " + "users";
    AvoidsAcross(p, "with", ts); p := p + " " + "with";
    AvoidsAcross(p, "no", ts); p := p + " " + "no";
    AvoidsAcross(p, "annual", ts); p := p + " " + "annual";
    AvoidsAcross(p, "fee", ts); p := p + " " + "fee";
  }

  lemma Sample2AsksNoFee()
    ensures Contains(Lowered2, "no annual fee")
  {
    var p := "best" + " " + "credit" + " " + "cards" + " " + "for" + " " + "first-time" + " " + "users"
      + " " + "with" + " ";
    ContainsPhrase5(p, "no", " ", "annual", " ", "fee");
    assert "no" + " " + "annual" + " " + "fee" == "no annual fee";
  }

  /**
   The second sample asks for first-time cards with no annual fee; the
   no-fee rule comes first, so it gets the lifetime-free card.
   */
  lemma Sample2Answer()
    ensures ProcessAIQuery(Sample2).results == NoFeeIds
  {
    Sample2Lowered();
    Sample2NoLounge();
    Sample2AsksNoFee();
    NoFeeWhenAsked(Sample2);
  }

  // ----- Sample 3: the comparison rule -----

  const ComparisonMisses: seq<string> := ["lounge", "no", "free", "first-time", "beginner"]

  lemma ComparisonMissesSpaceFree()
    ensures forall i :: 0 <= i < |ComparisonMisses| ==> ' ' !in ComparisonMisses[i]
  {
  }

  /**
   A text containing none of the words of `ComparisonMisses` fires none of the
   three rules before the comparison ("no" stands for "no annual fee").
   */
  lemma ComparisonMissesSilenceEarlierRules(q: string)
    requires Avoids(q, ComparisonMisses)
    ensures NoneFiresBefore(Rules, q, 3)
  {
    var ts := ComparisonMisses;
    assert ts[0] == "lounge" && ts[1] == "no" && ts[2] == "free" && ts[3] == "first-time" && ts[4] == "beginner";
    assert !Contains(q, ts[1]);
    if Contains(q, "no annual fee") {
      assert "no annual fee" == "no" + " annual fee";
      ContainsFront(q, "no", " annual fee");
    }
    RuleTriggers(q);
  }

  /** A query that names both cards, and fires none of the three earlier rules, gets the comparison. */
  lemma ComparisonWhenAsked(userQuery: string)
    requires NoneFiresBefore(Rules, Lower(userQuery), 3)
    requires Contains(Lower(userQuery), "axis magnus") && Contains(Lower(userQuery), "hdfc regalia")
    ensures ProcessAIQuery(userQuery).results == ComparisonIds
  {
    RuleTriggers(Lower(userQuery));
    FirstFiringRuleAnswers(userQuery, 3);
  }

  const Lowered3 := "compare" + " " + "axis" + " " + "magnus" + " " + "vs" + " " + "hdfc" + " " + "regalia"
    + " " + "with" + " " + "benefits" + " " + "summary"

  lemma Sample3Lowered()
    ensures Lower(Sample3) == Lowered3
  {
    LowerCompareAxisMagnus(); LowerVsHdfcRegalia(); LowerSummary(); LowerWithTravelBenefits();
    var p := "Compare";
    LowerJoin(p, "Axis"); p := p + " " + "Axis";
    LowerJoin(p, "Magnus"); p := p + " " + "Magnus";
    LowerJoin(p, "vs"); p := p + " " + "vs";
    LowerJoin(p, "HDFC"); p := p + " " + "HDFC";
    LowerJoin(p, "Regalia"); p := p + " " + "Regalia";
    LowerJoin(p, "with"); p := p + " " + "with";
    LowerJoin(p, "benefits"); p := p + " " + "benefits";
    LowerJoin(p, "summary"); p := p + " " + "summary";
  }

  lemma Sample3AvoidsA()
    ensures Avoids("compare", ComparisonMisses) && Avoids("axis", ComparisonMisses)
      && Avoids("magnus", ComparisonMisses)
  {
    assert Avoids("compare", ComparisonMisses) by { AvoidsByChars("compare", ComparisonMisses, "lnffb"); }
    assert Avoids("axis", ComparisonMisses) by { AvoidsByChars("axis", ComparisonMisses, "lnffb"); }
    assert Avoids("magnus", ComparisonMisses) by { AvoidsByChars("magnus", ComparisonMisses, "loffb"); }
  }

  lemma Sample3AvoidsB()
    ensures Avoids("vs", ComparisonMisses) && Avoids("hdfc", ComparisonMisses)
      && Avoids("regalia", ComparisonMisses)
  {
    assert Avoids("vs", ComparisonMisses) by { AvoidsByChars("vs", ComparisonMisses, "lnffb"); }
    assert Avoids("hdfc", ComparisonMisses) by { AvoidsByChars("hdfc", ComparisonMisses, "lnrib"); }
    assert Avoids("regalia", ComparisonMisses) by { AvoidsByChars("regalia", ComparisonMisses, "onffb"); }
  }

  lemma Sample3AvoidsC()
    ensures Avoids("with", ComparisonMisses) && Avoids("benefits", ComparisonMisses)
      && Avoids("summary", ComparisonMisses)
  {
    assert Avoids("with", ComparisonMisses) by { AvoidsByChars("with", ComparisonMisses, "lnffb"); }
    assert Avoids("benefits", ComparisonMisses) by { AvoidsByChars("benefits", ComparisonMisses, "lorrg"); }
    assert Avoids("summary", ComparisonMisses) by { AvoidsByChars("summary", ComparisonMisses, "lnffb"); }
  }

  lemma Sample3Avoids()
    ensures Avoids(Lowered3, ComparisonMisses)
  {
    Sample3AvoidsA(); Sample3AvoidsB(); Sample3AvoidsC(); ComparisonMissesSpaceFree();
    var ts := ComparisonMisses;
    var p := "compare";
    AvoidsAcross(p, "axis", ts); p := p + " " + "axis";
    AvoidsAcross(p, "magnus", ts); p := p + " " + "magnus";
    AvoidsAcross(p, "vs", ts); p := p + " " + "vs";
    AvoidsAcross(p, "hdfc", ts); p := p + " " + "hdfc";
    AvoidsAcross(p, "regalia", ts); p := p + " " + "regalia";
    AvoidsAcross(p, "with", ts); p := p + " " + "with";
    AvoidsAcross(p, "benefits", ts); p := p + " " + "benefits";
    AvoidsAcross(p, "summary", ts); p := p + " " + "summary";
  }

  lemma Sample3NamesAxisMagnus()
    ensures Contains(Lowered3, "axis magnus")
  {
    var t := "axis magnus";
    var p := "compare" + " ";
    ContainsPhrase3(p, "axis", " ", "magnus");
    assert "axis" + " " + "magnus" == t;
    p := p + "axis" + " " + "magnus";
    ContainsExtend(p, " ", t); p := p + " ";
    ContainsExtend(p, "vs", t); p := p + "vs";
    ContainsExtend(p, " ", t); p := p + " ";
    ContainsExtend(p, "hdfc", t); p := p + "hdfc";
    ContainsExtend(p, " ", t); p := p + " ";
    ContainsExtend(p, "regalia", t); p := p + "regalia";
    ContainsExtend(p, " ", t); p := p + " ";
    ContainsExtend(p, "with", t); p := p + "with";
    ContainsExtend(p, " ", t); p := p + " ";
    ContainsExtend(p, "benefits", t); p := p + "benefits";
    ContainsExtend(p, " ", t); p := p + " ";
    ContainsExtend(p, "summary", t); p := p + "summary";
  }

  lemma Sample3NamesHdfcRegalia()
    ensures Contains(Lowered3, "hdfc regalia")
  {
    var t := "hdfc regalia";
    var p := "compare" + " " + "axis" + " " + "magnus" + " " + "vs" + " ";
    ContainsPhrase3(p, "hdfc", " ", "regalia");
    assert "hdfc" + " " + "regalia" == t;
    p := p + "hdfc" + " " + "regalia";
    ContainsExtend(p, " ", t); p := p + " ";
    ContainsExtend(p, "with", t); p := p + "with";
    ContainsExtend(p, " ", t); p := p + " ";
    ContainsExtend(p, "benefits", t); p := p + "benefits";
    ContainsExtend(p, " ", t); p := p + " ";
    ContainsExtend(p, "summary", t); p := p + "summary";
  }

  /** The third sample names both cards and gets the comparison answer. */
  lemma Sample3Answer()
    ensures ProcessAIQuery(Sample3).results == ComparisonIds
  {
    Sample3Lowered();
    Sample3Avoids();
    ComparisonMissesSilenceEarlierRules(Lower(Sample3));
    Sample3NamesAxisMagnus();
    Sample3NamesHdfcRegalia();
    ComparisonWhenAsked(Sample3);
  }

  // ----- Sample 4: the online-shopping rule -----

  const OnlineMisses: seq<string> := ["lounge", "no", "free", "first-time", "beginner", "axis", "fuel"]

  lemma OnlineMissesSpaceFree()
    ensures forall i :: 0 <= i < |OnlineMisses| ==> ' ' !in OnlineMisses[i]
  {
  }

  /**
   A text containing none of the words of `OnlineMisses` fires none of the five
   rules before the online rule ("no" stands for "no annual fee" and "axis"
   for "axis magnus").
   */
  lemma OnlineMissesSilenceEarlierRules(q: string)
    requires Avoids(q, OnlineMisses)
    ensures NoneFiresBefore(Rules, q, 5)
  {
    var ts := OnlineMisses;
    assert ts[0] == "lounge" && ts[1] == "no" && ts[2] == "free" && ts[3] == "first-time" && ts[4] == "beginner";
    assert ts[5] == "axis" && ts[6] == "fuel";
    assert !Contains(q, ts[1]) && !Contains(q, ts[5]);
    if Contains(q, "no annual fee") {
      assert "no annual fee" == "no" + " annual fee";
      ContainsFront(q, "no", " annual fee");
    }
    if Contains(q, "axis magnus") {
      assert "axis magnus" == "axis" + " magnus";
      ContainsFront(q, "axis", " magnus");
    }
    RuleTriggers(q);
  }

  /** A query with "online", on which none of the five earlier rules fires, gets the online-shopping cards. */
  lemma OnlineWhenAsked(userQuery: string)
    requires NoneFiresBefore(Rules, Lower(userQuery), 5)
    requires Contains(Lower(userQuery), "online")
    ensures ProcessAIQuery(userQuery).results == OnlineIds
  {
    RuleTriggers(Lower(userQuery));
    FirstFiringRuleAnswers(userQuery, 5);
  }

  const Lowered4 := "cards" + " " + "with" + " " + "highest" + " " + "reward" + " " + "points" + " " + "for"
    + " " + "online" + " " + "shopping"

  lemma Sample4Lowered()
    ensures Lower(Sample4) == Lowered4
  {
    LowerCardsHighestReward(); LowerPointsOnlineShopping(); LowerBestCreditFor(); LowerWithTravelBenefits();
    var p := "Cards";
    LowerJoin(p, "with"); p := p + " " + "with";
    LowerJoin(p, "highest"); p := p + " " + "highest";
    LowerJoin(p, "reward"); p := p + " " + "reward";
    LowerJoin(p, "points"); p := p + " " + "points";
    LowerJoin(p, "for"); p := p + " " + "for";
    LowerJoin(p, "online"); p := p + " " + "online";
    LowerJoin(p, "shopping"); p := p + " " + "shopping";
  }

  lemma PointsAvoids() ensures Avoids("points", OnlineMisses) {}
  lemma OnlineAvoids() ensures Avoids("online", OnlineMisses) {}
  lemma ShoppingAvoids() ensures Avoids("shopping", OnlineMisses) {}

  lemma Sample4AvoidsA()
    ensures Avoids("cards", OnlineMisses) && Avoids("with", OnlineMisses) && Avoids("for", OnlineMisses)
  {
    assert Avoids("cards", OnlineMisses) by { AvoidsByChars("cards", OnlineMisses, "lnffbxf"); }
    assert Avoids("with", OnlineMisses) by { AvoidsByChars("with", OnlineMisses, "lnffbaf"); }
    assert Avoids("for", OnlineMisses) by { AvoidsByChars("for", OnlineMisses, "lneibau"); }
  }

  lemma Sample4AvoidsB()
    ensures Avoids("highest", OnlineMisses) && Avoids("reward", OnlineMisses)
  {
    assert Avoids("highest", OnlineMisses) by { AvoidsByChars("highest", OnlineMisses, "lnffbaf"); }
    assert Avoids("reward", OnlineMisses) by { AvoidsByChars("reward", OnlineMisses, "lnffbxf"); }
  }

  lemma Sample4Avoids()
    ensures Avoids(Lowered4, OnlineMisses)
  {
    Sample4AvoidsA(); Sample4AvoidsB(); PointsAvoids(); OnlineAvoids(); ShoppingAvoids(); OnlineMissesSpaceFree();
    var ts := OnlineMisses;
    var p := "cards";
    AvoidsAcross(p, "with", ts); p := p + " " + "with";
    AvoidsAcross(p, "highest", ts); p := p + " " + "highest";
    AvoidsAcross(p, "reward", ts); p := p + " " + "reward";
    AvoidsAcross(p, "points", ts); p := p + " " + "points";
    AvoidsAcross(p, "for", ts); p := p + " " + "for";
    AvoidsAcross(p, "online", ts); p := p + " " + "online";
    AvoidsAcross(p, "shopping", ts); p := p + " " + "shopping";
  }

  lemma Sample4AsksOnline()
    ensures Contains(Lowered4, "online")
  {
    var p := "cards" + " " + "with" + " " + "highest" + " " + "reward" + " " + "points" + " " + "for" + " ";
    ContainsEnd(p, "online");
    p := p + "online";
    ContainsExtend(p, " ", "online"); p := p + " ";
    ContainsExtend(p, "shopping", "online");
  }

  /** The fourth sample asks about online shopping and gets the online-shopping cards. */
  lemma Sample4Answer()
    ensures ProcessAIQuery(Sample4).results == OnlineIds
  {
    Sample4Lowered();
    Sample4Avoids();
    OnlineMissesSilenceEarlierRules(Lower(Sample4));
    Sample4AsksOnline();
    OnlineWhenAsked(Sample4);
  }

}
