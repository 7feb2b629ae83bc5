/**
 * The key findings of a report: a rule table over the profile fields and the
 * search results. Each finding keeps the facts its sentence reports; the
 * wording and money formatting are not modelled.
 */
module Findings {
  import opened Wrappers
  import opened Records

  /** The lending-product tier an income qualifies for. */
  datatype LendingTier = TierAPlusOrA | TierB | TierC | LimitedEligibility

  /** The rate band a known credit score falls in. */
  datatype CreditRating = Excellent | Good | Fair | CaseByCase

  datatype Finding =
    | AnalysisCompleted(customerId: string, contributions: nat)
    | LendingEligibility(tier: LendingTier, income: Cents)
    | CreditStanding(rating: CreditRating, creditScore: int, aprBasisPoints: Option<nat>)
    | ProductEngagement(strong: bool, products: nat)
    | TransactionActivity(count: nat, lowest: Cents, highest: Cents)
    | PolicyAreas(collections: set<string>)

  /** The APR quoted with each rating, in basis points; case-by-case quotes none. */
  function QuotedApr(r: CreditRating): Option<nat> {
    match r
    case Excellent => Some(350)
    case Good => Some(450)
    case Fair => Some(600)
    case CaseByCase => None
  }

  function LendingTierFor(income: Cents): (t: LendingTier)
    ensures t == TierAPlusOrA <==> income >= Dollars(75000)
    ensures t == TierB <==> Dollars(50000) <= income < Dollars(75000)
    ensures t == TierC <==> Dollars(30000) <= income < Dollars(50000)
    ensures t == LimitedEligibility <==> income < Dollars(30000)
  {
    if income >= Dollars(75000) then TierAPlusOrA
    else if income >= Dollars(50000) then TierB
    else if income >= Dollars(30000) then TierC
    else LimitedEligibility
  }

  function CreditRatingFor(creditScore: int): (r: CreditRating)
    requires creditScore > 0
    ensures r == Excellent <==> creditScore >= 750
    ensures r == Good <==> 700 <= creditScore < 750
    ensures r == Fair <==> 650 <= creditScore < 700
    ensures r == CaseByCase <==> creditScore < 650
  {
    if creditScore >= 750 then Excellent
    else if creditScore >= 700 then Good
    else if creditScore >= 650 then Fair
    else CaseByCase
  }

  /** How many search results the policy-area finding looks at. */
  const PolicyAreaWindow: nat := 5

  /** The distinct collection tags of a run of results, a missing tag read as "". */
  function CollectionsOf(results: seq<SearchResult>): set<string> {
    set i | 0 <= i < |results| :: results[i].collection.GetOr("")
  }

  predicate HasCreditFinding(fs: seq<Finding>) {
    exists f :: f in fs && f.CreditStanding?
  }

  predicate HasTransactionFinding(fs: seq<Finding>) {
    exists f :: f in fs && f.TransactionActivity?
  }

  predicate HasProductFinding(fs: seq<Finding>) {
    exists f :: f in fs && f.ProductEngagement?
  }

  predicate HasPolicyFinding(fs: seq<Finding>) {
    exists f :: f in fs && f.PolicyAreas?
  }

  /** A transaction finding reports the count and the true lowest and highest amounts. */
  predicate ReportsRange(f: Finding, txs: seq<Transaction>)
    requires f.TransactionActivity?
  {
    && f.count == |txs|
    && (forall j | 0 <= j < |txs| :: f.lowest <= Amount(txs[j]) <= f.highest)
    && (exists j | 0 <= j < |txs| :: Amount(txs[j]) == f.lowest)
    && (exists j | 0 <= j < |txs| :: Amount(txs[j]) == f.highest)
  }

  /** A policy-area finding names exactly the collections of the first five results. */
  ghost predicate ReportsAreas(f: Finding, results: seq<SearchResult>)
    requires f.PolicyAreas?
  {
    forall c :: c in f.collections <==>
      exists k | 0 <= k < |results| && k < PolicyAreaWindow :: results[k].collection.GetOr("") == c
  }

  /** A credit finding reports the score, its rating band and the rate quoted for that band. */
  predicate ReportsCredit(f: Finding, creditScore: int)
    requires f.CreditStanding?
  {
    && creditScore > 0
    && f.creditScore == creditScore
    && f.rating == CreditRatingFor(creditScore)
    && f.aprBasisPoints == QuotedApr(f.rating)
  }

  function CreditFindings(creditScore: int): (fs: seq<Finding>)
    ensures HasCreditFinding(fs) <==> creditScore > 0
    ensures forall f | f in fs :: f.CreditStanding? && ReportsCredit(f, creditScore)
    ensures forall f | f in fs :: f.aprBasisPoints.Some? <==> creditScore >= 650
  {
    if creditScore > 0 then
      var rating := CreditRatingFor(creditScore);
      var f := CreditStanding(rating, creditScore, QuotedApr(rating));
      assert f in [f];
      [f]
    else []
  }

  function ProductFindings(products: nat): (fs: seq<Finding>)
    ensures forall f | f in fs :: f == ProductEngagement(products >= 4, products)
    ensures HasProductFinding(fs) <==> products >= 4 || products <= 1
  {
    if products >= 4 || products <= 1 then
      var f := ProductEngagement(products >= 4, products);
      assert f in [f];
      [f]
    else []
  }

  function TransactionFindings(txs: seq<Transaction>): (fs: seq<Finding>)
    ensures HasTransactionFinding(fs) <==> |txs| > 0
    ensures forall f | f in fs :: f.TransactionActivity? && ReportsRange(f, txs)
  {
    if |txs| > 0 then
      var f := TransactionActivity(|txs|, SmallestAmount(txs), LargestAmount(txs));
      assert f in [f];
      [f]
    else []
  }

  function PolicyFindings(results: seq<SearchResult>): (fs: seq<Finding>)
    ensures HasPolicyFinding(fs) <==> |results| > 0
    ensures forall f | f in fs :: f.PolicyAreas? && ReportsAreas(f, results)
  {
    if |results| > 0 then
      var window := Take(results, PolicyAreaWindow);
      assert forall k | 0 <= k < |window| :: window[k] == results[k];
      var f := PolicyAreas(CollectionsOf(window));
      assert f in [f];
      [f]
    else []
  }

  /**
   * The findings, in order: completion, lending eligibility, then the credit,
   * product, transaction and policy findings whose conditions hold.
   */
  function GenerateFindings(p: CustomerProfile, results: seq<SearchResult>, contributions: nat)
    : (fs: seq<Finding>)
    ensures |fs| >= 2
    ensures fs[0] == AnalysisCompleted(p.customerId, contributions)
    ensures fs[1] == LendingEligibility(LendingTierFor(p.income), p.income)
    ensures HasCreditFinding(fs) <==> p.creditScore > 0
    ensures forall f | f in fs && f.CreditStanding? :: ReportsCredit(f, p.creditScore)
    ensures HasProductFinding(fs) <==> |p.bankingProducts| >= 4 || |p.bankingProducts| <= 1
    ensures forall f | f in fs && f.ProductEngagement? ::
              f == ProductEngagement(|p.bankingProducts| >= 4, |p.bankingProducts|)
    ensures HasTransactionFinding(fs) <==> |p.recentTransactions| > 0
    ensures HasPolicyFinding(fs) <==> |results| > 0
    ensures forall f | f in fs && f.TransactionActivity? :: ReportsRange(f, p.recentTransactions)
    ensures forall f | f in fs && f.PolicyAreas? :: ReportsAreas(f, results)
  {
    var head := [AnalysisCompleted(p.customerId, contributions), LendingEligibility(LendingTierFor(p.income), p.income)];
    var credit := CreditFindings(p.creditScore);
    var products := ProductFindings(|p.bankingProducts|);
    var txs := TransactionFindings(p.recentTransactions);
    var policy := PolicyFindings(results);
    CreditAndProductPartsKeepTheirKinds(head, credit, products, txs, policy);
    ActivityAndPolicyPartsKeepTheirKinds(head, credit, products, txs, policy);
    head + credit + products + txs + policy
  }

  /** Every element of a five-part concatenation comes from one of the parts. */
  lemma MembersOfParts<T>(a: seq<T>, b: seq<T>, c: seq<T>, d: seq<T>, e: seq<T>)
    ensures forall x | x in a + b + c + d + e :: x in a || x in b || x in c || x in d || x in e
  {
  }

  /**
   * Credit and product findings each come from one part alone, so the whole
   * list has a finding of either kind exactly when its part does.
   */
  lemma CreditAndProductPartsKeepTheirKinds(head: seq<Finding>, credit: seq<Finding>, products: seq<Finding>,
                                            txs: seq<Finding>, policy: seq<Finding>)
    requires forall f | f in head :: f.AnalysisCompleted? || f.LendingEligibility?
    requires forall f | f in credit :: f.CreditStanding?
    requires forall f | f in products :: f.ProductEngagement?
    requires forall f | f in txs :: f.TransactionActivity?
    requires forall f | f in policy :: f.PolicyAreas?
    ensures var fs := head + credit + products + txs + policy;
      && (HasCreditFinding(fs) <==> HasCreditFinding(credit))
      && (HasProductFinding(fs) <==> HasProductFinding(products))
      && (forall f | f in fs && f.CreditStanding? :: f in credit)
      && (forall f | f in fs && f.ProductEngagement? :: f in products)
  {
    var fs := head + credit + products + txs + policy;
    MembersOfParts(head, credit, products, txs, policy);
    if HasCreditFinding(fs) {
      var f :| f in fs && f.CreditStanding?;
      assert f in credit;
    }
    if HasProductFinding(fs) {
      var f :| f in fs && f.ProductEngagement?;
      assert f in products;
    }
  }

  /**
   * Transaction and policy findings each come from one part alone, so the
   * whole list has a finding of either kind exactly when its part does.
   */
  lemma ActivityAndPolicyPartsKeepTheirKinds(head: seq<Finding>, credit: seq<Finding>, products: seq<Finding>,
                                             txs: seq<Finding>, policy: seq<Finding>)
    requires forall f | f in head :: f.AnalysisCompleted? || f.LendingEligibility?
    requires forall f | f in credit :: f.CreditStanding?
    requires forall f | f in products :: f.ProductEngagement?
    requires forall f | f in txs :: f.TransactionActivity?
    requires forall f | f in policy :: f.PolicyAreas?
    ensures var fs := head + credit + products + txs + policy;
      && (HasTransactionFinding(fs) <==> HasTransactionFinding(txs))
      && (HasPolicyFinding(fs) <==> HasPolicyFinding(policy))
      && (forall f | f in fs && f.TransactionActivity? :: f in txs)
      && (forall f | f in fs && f.PolicyAreas? :: f in policy)
  {
    var fs := head + credit + products + txs + policy;
    MembersOfParts(head, credit, products, txs, policy);
    if HasTransactionFinding(fs) {
      var f :| f in fs && f.TransactionActivity?;
      assert f in txs;
    }
    if HasPolicyFinding(fs) {
      var f :| f in fs && f.PolicyAreas?;
      assert f in policy;
    }
  }
}
