/**
 * The strategic recommendations of a report: monitoring advice chosen by the
 * risk tier, product and relationship rules over the profile, and a generic
 * review appended whenever the rules produced fewer than two entries.
 */
module Recommendations {
  import opened Records
  import opened RiskScoring

  datatype Recommendation =
    | EnhancedMonitoring          // quarterly risk reviews
    | ExtraDocumentation          // for high-value transactions
    | SemiAnnualMonitoring
    | AnnualMonitoring
    | InvestmentServices
    | HighYieldSavings
    | RewardsCreditCard
    | MortgagePrequalification
    | PremiumUpgrade
    | CrossSellProgram
    | CreditBuilding
    | FinancialHealthReview       // the generic fallback

  /** The least number of recommendations a report carries. */
  const MinRecommendations: nat := 2

  predicate HighRiskTier(t: RiskTier) {
    t == High || t == Critical
  }

  predicate InvestmentRule(p: CustomerProfile) {
    "investment" !in p.bankingProducts && p.income >= Dollars(50000)
  }

  predicate SavingsRule(p: CustomerProfile) {
    "savings" !in p.bankingProducts
  }

  predicate CreditCardRule(p: CustomerProfile) {
    "credit_card" !in p.bankingProducts && p.creditScore >= 650
  }

  predicate MortgageRule(p: CustomerProfile) {
    "mortgage" !in p.bankingProducts && p.income >= Dollars(75000) && p.creditScore >= 700
  }

  predicate UpgradeRule(p: CustomerProfile) {
    p.accountType == "basic" && p.income >= Dollars(50000)
  }

  predicate CrossSellRule(p: CustomerProfile) {
    |p.bankingProducts| <= 1
  }

  predicate CreditBuildingRule(p: CustomerProfile) {
    0 < p.creditScore < 700
  }

  /** Which of the seven product and relationship rules a profile satisfies. */
  datatype RuleOutcome = RuleOutcome(
    investment: bool, savings: bool, creditCard: bool, mortgage: bool,
    upgrade: bool, crossSell: bool, creditBuilding: bool)

  function RulesFor(p: CustomerProfile): RuleOutcome {
    RuleOutcome(InvestmentRule(p), SavingsRule(p), CreditCardRule(p), MortgageRule(p),
                UpgradeRule(p), CrossSellRule(p), CreditBuildingRule(p))
  }

  function Indicator(b: bool): nat {
    if b then 1 else 0
  }

  /** How many entries the tier and the seven rules produce, counted rule by rule. */
  function RuleCount(o: RuleOutcome, tier: RiskTier): nat {
    (if HighRiskTier(tier) then 2 else 1)
    + Indicator(o.investment) + Indicator(o.savings) + Indicator(o.creditCard) + Indicator(o.mortgage)
    + Indicator(o.upgrade) + Indicator(o.crossSell) + Indicator(o.creditBuilding)
  }

  predicate IsMonitoring(r: Recommendation) {
    r.EnhancedMonitoring? || r.ExtraDocumentation? || r.SemiAnnualMonitoring? || r.AnnualMonitoring?
  }

  /** Monitoring advice by tier: two entries for high and critical, one otherwise. */
  function MonitoringAdvice(t: RiskTier): (rs: seq<Recommendation>)
    ensures |rs| == (if HighRiskTier(t) then 2 else 1)
    ensures forall r | r in rs :: IsMonitoring(r)
  {
    if HighRiskTier(t) then [EnhancedMonitoring, ExtraDocumentation]
    else if t == Medium then [SemiAnnualMonitoring]
    else [AnnualMonitoring]
  }

  function When(b: bool, r: Recommendation): (rs: seq<Recommendation>)
    ensures |rs| == Indicator(b)
    ensures forall x :: x in rs <==> b && x == r
  {
    if b then [r] else []
  }

  /** Each rule's recommendation is in rs exactly when the rule holds. */
  predicate Offers(rs: seq<Recommendation>, o: RuleOutcome) {
    && (InvestmentServices in rs <==> o.investment)
    && (HighYieldSavings in rs <==> o.savings)
    && (RewardsCreditCard in rs <==> o.creditCard)
    && (MortgagePrequalification in rs <==> o.mortgage)
    && (PremiumUpgrade in rs <==> o.upgrade)
    && (CrossSellProgram in rs <==> o.crossSell)
    && (CreditBuilding in rs <==> o.creditBuilding)
  }

  /** The product rules, in order: investment, savings, credit card, mortgage. */
  function ProductAdvice(o: RuleOutcome): (rs: seq<Recommendation>)
    ensures |rs| == Indicator(o.investment) + Indicator(o.savings) + Indicator(o.creditCard) + Indicator(o.mortgage)
    ensures forall r :: r in rs <==>
      || (r == InvestmentServices && o.investment) || (r == HighYieldSavings && o.savings)
      || (r == RewardsCreditCard && o.creditCard) || (r == MortgagePrequalification && o.mortgage)
  {
    When(o.investment, InvestmentServices)
    + When(o.savings, HighYieldSavings)
    + When(o.creditCard, RewardsCreditCard)
    + When(o.mortgage, MortgagePrequalification)
  }

  /** The relationship and credit rules, in order: premium upgrade, cross-sell, credit building. */
  function RelationshipAdvice(o: RuleOutcome): (rs: seq<Recommendation>)
    ensures |rs| == Indicator(o.upgrade) + Indicator(o.crossSell) + Indicator(o.creditBuilding)
    ensures forall r :: r in rs <==>
      || (r == PremiumUpgrade && o.upgrade) || (r == CrossSellProgram && o.crossSell)
      || (r == CreditBuilding && o.creditBuilding)
  {
    When(o.upgrade, PremiumUpgrade)
    + When(o.crossSell, CrossSellProgram)
    + When(o.creditBuilding, CreditBuilding)
  }

  /** The recommendations the tier and the profile rules produce, in rule order. */
  function RuleRecommendations(o: RuleOutcome, tier: RiskTier): (rs: seq<Recommendation>)
    ensures |rs| == RuleCount(o, tier)
    ensures MonitoringAdvice(tier) <= rs
    ensures FinancialHealthReview !in rs
    ensures Offers(rs, o)
  {
    var monitoring, products, relationship := MonitoringAdvice(tier), ProductAdvice(o), RelationshipAdvice(o);
    PartsMakeOffers(monitoring, products, relationship, o);
    monitoring + products + relationship
  }

  /** Monitoring entries name no offer, so the offers made are those of the two rule groups. */
  lemma PartsMakeOffers(monitoring: seq<Recommendation>, products: seq<Recommendation>,
                        relationship: seq<Recommendation>, o: RuleOutcome)
    requires forall r | r in monitoring :: IsMonitoring(r)
    requires forall r :: r in products <==>
      || (r == InvestmentServices && o.investment) || (r == HighYieldSavings && o.savings)
      || (r == RewardsCreditCard && o.creditCard) || (r == MortgagePrequalification && o.mortgage)
    requires forall r :: r in relationship <==>
      || (r == PremiumUpgrade && o.upgrade) || (r == CrossSellProgram && o.crossSell)
      || (r == CreditBuilding && o.creditBuilding)
    ensures Offers(monitoring + products + relationship, o)
    ensures FinancialHealthReview !in monitoring + products + relationship
  {
    var rs := monitoring + products + relationship;
    assert InvestmentServices in rs <==> InvestmentServices in products;
    assert HighYieldSavings in rs <==> HighYieldSavings in products;
    assert RewardsCreditCard in rs <==> RewardsCreditCard in products;
    assert MortgagePrequalification in rs <==> MortgagePrequalification in products;
    assert PremiumUpgrade in rs <==> PremiumUpgrade in relationship;
    assert CrossSellProgram in rs <==> CrossSellProgram in relationship;
    assert CreditBuilding in rs <==> CreditBuilding in relationship;
  }

  /** Appending the generic review leaves every rule recommendation as it was. */
  lemma FallbackKeepsOffers(rules: seq<Recommendation>, o: RuleOutcome)
    requires Offers(rules, o)
    ensures Offers(rules + [FinancialHealthReview], o)
  {
    assert forall r :: r in rules + [FinancialHealthReview] <==> r in rules || r == FinancialHealthReview;
  }

  /** The report's recommendations for a profile and its risk score. */
  function GenerateRecommendations(p: CustomerProfile, score: real): (rs: seq<Recommendation>)
    ensures |rs| >= MinRecommendations
    ensures |rs| == if RuleCount(RulesFor(p), Tier(score)) < MinRecommendations then MinRecommendations else RuleCount(RulesFor(p), Tier(score))
    ensures FinancialHealthReview in rs <==> RuleCount(RulesFor(p), Tier(score)) < MinRecommendations
    ensures HighRiskTier(Tier(score)) ==> rs[0] == EnhancedMonitoring && rs[1] == ExtraDocumentation
    ensures Tier(score) == Medium ==> rs[0] == SemiAnnualMonitoring
    ensures Tier(score) == Low || Tier(score) == MediumLow ==> rs[0] == AnnualMonitoring
    ensures Offers(rs, RulesFor(p))
    ensures MortgagePrequalification in rs <==>
              "mortgage" !in p.bankingProducts && p.income >= Dollars(75000) && p.creditScore >= 700
  {
    var tier := Tier(score);
    var rules := RuleRecommendations(RulesFor(p), tier);
    assert rules[0] == MonitoringAdvice(tier)[0];
    assert HighRiskTier(tier) ==> rules[1] == MonitoringAdvice(tier)[1];
    if |rules| < MinRecommendations then
      FallbackKeepsOffers(rules, RulesFor(p));
      rules + [FinancialHealthReview]
    else rules
  }

  /** A high or critical tier always yields two rule entries, so the fallback never appears. */
  lemma HighRiskNeedsNoFallback(p: CustomerProfile, score: real)
    requires score >= 0.65
    ensures FinancialHealthReview !in GenerateRecommendations(p, score)
  {
  }
}
