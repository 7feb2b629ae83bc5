/**
 * The deterministic risk score of a customer profile and its risk tier.
 *
 * Scores are held in thousandths (500 is 0.5). Every adjustment is a whole
 * number of hundredths, so rounding the sum to three decimals changes nothing
 * and the thousandths are exact. The clock is a parameter: `today` is the
 * proleptic Gregorian ordinal of the reference day.
 */
module RiskScoring {
  import opened Wrappers
  import opened Records
  import Dates

  /** A risk score in thousandths. */
  type Milli = int

  const BaseScore: Milli := 500

  /** The value of a score in thousandths as a number in [0, 1]. */
  function ScoreValue(m: Milli): real {
    m as real / 1000.0
  }

  // ---------------------------------------------------------------------------
  // The five factors
  // ---------------------------------------------------------------------------

  /** Higher income, lower risk. */
  function IncomeAdjustment(income: Cents): (a: int)
    ensures -150 <= a <= 100
    ensures a < 0 <==> income >= Dollars(50000)
    ensures a > 0 <==> income < Dollars(30000)
  {
    if income >= Dollars(100000) then -150
    else if income >= Dollars(75000) then -100
    else if income >= Dollars(50000) then -50
    else if income < Dollars(30000) then 100
    else 0
  }

  /** Higher credit score, lower risk; a score of 0 (unknown) is neutral. */
  function CreditAdjustment(creditScore: int): (a: int)
    ensures -150 <= a <= 150
    ensures a == 0 <==> creditScore <= 0
    ensures a < 0 <==> creditScore >= 700
  {
    if creditScore >= 750 then -150
    else if creditScore >= 700 then -80
    else if creditScore >= 650 then 50
    else if creditScore > 0 then 150
    else 0
  }

  /** `days / 365.25 >= years`, in integers (4 * 365.25 = 1461). */
  function YearsAtLeast(days: int, years: nat): (b: bool)
    ensures b <==> days as real / 365.25 >= years as real
  {
    4 * days >= 1461 * years
  }

  /**
   * Whole days from the recorded start date to the reference day, as
   * `(now - since).days`; None when the date is missing or does not parse.
   */
  function TenureDays(customerSince: string, today: int): (d: Option<int>)
    ensures customerSince == "" ==> d.None?
    ensures d.Some? <==> Dates.ParseIsoDate(customerSince).Some?
    ensures d.Some? ==> d.value == today - Dates.Ordinal(Dates.ParseIsoDate(customerSince).value)
  {
    if customerSince == "" then None
    else
      match Dates.ParseIsoDate(customerSince)
      case None => None
      case Some(since) => Some(today - Dates.Ordinal(since))
  }

  /** The adjustment for a tenure of the given number of days. */
  function TenureStep(days: int): (a: int)
    ensures -100 <= a <= 80
    ensures a < 0 <==> YearsAtLeast(days, 3)
    ensures a > 0 <==> !YearsAtLeast(days, 1)
  {
    if YearsAtLeast(days, 5) then -100
    else if YearsAtLeast(days, 3) then -50
    else if !YearsAtLeast(days, 1) then 80
    else 0
  }

  /** Longer tenure, lower risk; an unreadable date is neutral and raises nothing. */
  function TenureAdjustment(customerSince: string, today: int): (a: int)
    ensures -100 <= a <= 80
    ensures TenureDays(customerSince, today).None? ==> a == 0
  {
    match TenureDays(customerSince, today)
    case None => 0
    case Some(days) => TenureStep(days)
  }

  /** More products, lower risk. */
  function ProductAdjustment(products: nat): (a: int)
    ensures -80 <= a <= 50
    ensures a > 0 <==> products <= 1
  {
    if products >= 4 then -80
    else if products >= 2 then -30
    else if products <= 1 then 50
    else 0
  }

  /** A large recent transaction raises the risk. */
  function TransactionAdjustment(txs: seq<Transaction>): (a: int)
    ensures 0 <= a <= 100
    ensures a > 0 <==> exists i :: 0 <= i < |txs| && Amount(txs[i]) > Dollars(5000)
  {
    if |txs| == 0 then 0
    else
      var largest := LargestAmount(txs);
      if largest > Dollars(10000) then 100
      else if largest > Dollars(5000) then 30
      else 0
  }

  /** Base score plus the five adjustments, before clamping. */
  function RawScore(p: CustomerProfile, today: int): Milli {
    BaseScore
    + IncomeAdjustment(p.income)
    + CreditAdjustment(p.creditScore)
    + TenureAdjustment(p.customerSince, today)
    + ProductAdjustment(|p.bankingProducts|)
    + TransactionAdjustment(p.recentTransactions)
  }

  function Clamp(lo: int, hi: int, x: int): int
    requires lo <= hi
  {
    if x < lo then lo else if x > hi then hi else x
  }

  /**
   * The risk score, clamped to [0, 1]. The extreme adjustments already keep
   * the raw sum within [0.02, 0.98], so the clamp never engages.
   */
  function RiskScore(p: CustomerProfile, today: int): (r: Milli)
    ensures 20 <= r <= 980
    ensures r == RawScore(p, today)
  {
    Clamp(0, 1000, RawScore(p, today))
  }

  // ---------------------------------------------------------------------------
  // Tiers
  // ---------------------------------------------------------------------------

  datatype RiskTier = Low | MediumLow | Medium | High | Critical

  function Label(t: RiskTier): string {
    match t
    case Low => "low"
    case MediumLow => "medium-low"
    case Medium => "medium"
    case High => "high"
    case Critical => "critical"
  }

  /** Position of a tier from least to most risky. */
  function Rank(t: RiskTier): nat {
    match t
    case Low => 0
    case MediumLow => 1
    case Medium => 2
    case High => 3
    case Critical => 4
  }

  /** The half-open score interval of each tier, lower bound included. */
  predicate InBand(t: RiskTier, score: real) {
    match t
    case Low => score < 0.25
    case MediumLow => 0.25 <= score < 0.50
    case Medium => 0.50 <= score < 0.65
    case High => 0.65 <= score < 0.80
    case Critical => 0.80 <= score
  }

  /** The tier of a score: total, one band per score. */
  function Tier(score: real): (t: RiskTier)
    ensures InBand(t, score)
  {
    if score < 0.25 then Low
    else if score < 0.50 then MediumLow
    else if score < 0.65 then Medium
    else if score < 0.80 then High
    else Critical
  }

  // ---------------------------------------------------------------------------
  // Properties
  // ---------------------------------------------------------------------------

  /** The bands do not overlap, so a score's tier is exactly the band holding it. */
  lemma TierIsItsBand(t: RiskTier, score: real)
    ensures Tier(score) == t <==> InBand(t, score)
  {
  }

  /** A higher score never gets a less risky tier. */
  lemma TierMonotone(a: real, b: real)
    requires a <= b
    ensures Rank(Tier(a)) <= Rank(Tier(b))
  {
  }

  /** The boundary cases of the tier table and the two checked in the component tests. */
  lemma TierExamples()
    ensures Label(Tier(0.1)) == "low" && Label(Tier(0.9)) == "critical"
    ensures Tier(0.24999) == Low && Tier(0.25) == MediumLow
    ensures Tier(0.4999) == MediumLow && Tier(0.5) == Medium
    ensures Tier(0.649) == Medium && Tier(0.65) == High
    ensures Tier(0.799) == High && Tier(0.80) == Critical
  {
  }

  /** Holding everything else fixed, more income never raises the score. */
  lemma IncomeMonotone(p: CustomerProfile, today: int, higher: Cents)
    requires p.income <= higher
    ensures RiskScore(p.(income := higher), today) <= RiskScore(p, today)
  {
  }

  /** Holding everything else fixed, a better known credit score never raises the score. */
  lemma CreditMonotone(p: CustomerProfile, today: int, higher: int)
    requires 0 < p.creditScore <= higher
    ensures RiskScore(p.(creditScore := higher), today) <= RiskScore(p, today)
  {
  }

  /** An unknown credit score leaves the score where the other four factors put it. */
  lemma UnknownCreditIsNeutral(p: CustomerProfile, today: int)
    requires p.creditScore == 0
    ensures RiskScore(p, today)
            == BaseScore + IncomeAdjustment(p.income) + TenureAdjustment(p.customerSince, today)
               + ProductAdjustment(|p.bankingProducts|) + TransactionAdjustment(p.recentTransactions)
  {
  }

  /** Holding everything else fixed, more products never raise the score. */
  lemma ProductsMonotone(p: CustomerProfile, today: int, more: seq<string>)
    requires |p.bankingProducts| <= |more|
    ensures RiskScore(p.(bankingProducts := more), today) <= RiskScore(p, today)
  {
  }

  /** Adding recent transactions never lowers the score. */
  lemma MoreTransactionsNeverLower(p: CustomerProfile, today: int, extra: seq<Transaction>)
    ensures RiskScore(p, today) <= RiskScore(p.(recentTransactions := p.recentTransactions + extra), today)
  {
    if |p.recentTransactions| > 0 {
      LargestAmountGrows(p.recentTransactions, extra);
    } else {
      assert p.recentTransactions + extra == extra;
    }
  }

  /** The tenure adjustment never grows as the tenure gets longer. */
  lemma TenureStepsDown(days1: int, days2: int)
    requires days1 <= days2
    ensures TenureStep(days2) <= TenureStep(days1)
  {
  }

  /** Holding everything else fixed, an earlier customer-since date never raises the score. */
  lemma EarlierStartNeverRaises(p: CustomerProfile, today: int, earlier: string)
    requires Dates.ParseIsoDate(p.customerSince).Some? && Dates.ParseIsoDate(earlier).Some?
    requires Dates.Before(Dates.ParseIsoDate(earlier).value, Dates.ParseIsoDate(p.customerSince).value)
    ensures RiskScore(p.(customerSince := earlier), today) <= RiskScore(p, today)
  {
    var d1 := Dates.ParseIsoDate(earlier).value;
    var d2 := Dates.ParseIsoDate(p.customerSince).value;
    Dates.OrdinalStrictlyIncreasing(d1, d2);
    assert |earlier| >= 8 && |p.customerSince| >= 8;
    TenureStepsDown(today - Dates.Ordinal(d2), today - Dates.Ordinal(d1));
  }
}
