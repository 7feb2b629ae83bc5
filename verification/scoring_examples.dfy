/**
 * The risk scores of the built-in sample customers, of two sample profiles
 * whose start date is missing, and of an unknown customer, for any reference day.
 */
module ScoringExamples {
  import opened Wrappers
  import opened Records
  import opened Profiles
  import opened RiskScoring
  import Dates

  /** Ordinal of 2024-05-15, five years (1827 days) after customer 12345 joined. */
  const FiveYearsAfter12345: int := 739021

  /** Customer 12345's start date reads as 15 May 2019. */
  lemma Sample12345StartParses()
    ensures Dates.ParseIsoDate(Sample12345.customerSince) == Some(Dates.Date(2019, 5, 15))
  {
    var joined := Dates.Date(2019, 5, 15);
    var s := Dates.IsoFormat(joined);
    assert s == [Dates.DigitChar(2), Dates.DigitChar(0), Dates.DigitChar(1), Dates.DigitChar(9), '-',
                 Dates.DigitChar(0), Dates.DigitChar(5), '-', Dates.DigitChar(1), Dates.DigitChar(5)];
    assert Dates.DigitChar(0) == '0' && Dates.DigitChar(1) == '1' && Dates.DigitChar(2) == '2';
    assert Dates.DigitChar(5) == '5' && Dates.DigitChar(9) == '9';
    assert Sample12345.customerSince == s;
    Dates.ParseIsoFormat(joined);
  }

  /** 15 May 2019 is day 737194: 2018 whole years, then 120 days of January to April. */
  lemma Sample12345StartOrdinal()
    ensures Dates.Ordinal(Dates.Date(2019, 5, 15)) == 737194
  {
    assert Dates.DaysBeforeYear(2019) == 737059;
    assert Dates.DaysBeforeMonth(2019, 5) == 120;
  }

  /**
   * Customer 12345 scores 0.07 on any day from 2024-05-15 on: income -0.10,
   * credit -0.15, tenure -0.10, five products -0.08, largest transaction 4500.
   */
  lemma Sample12345Score(today: int)
    requires today >= FiveYearsAfter12345
    ensures RiskScore(Sample12345, today) == 70
    ensures Tier(ScoreValue(RiskScore(Sample12345, today))) == Low
  {
    Sample12345StartParses();
    Sample12345StartOrdinal();
    assert TenureDays(Sample12345.customerSince, today) == Some(today - 737194);
    assert TenureAdjustment(Sample12345.customerSince, today) == -100;
    assert LargestAmount(Sample12345.recentTransactions) <= Dollars(4500);
    assert TransactionAdjustment(Sample12345.recentTransactions) == 0;
  }

  /** Customer 11111 scores at least 0.70 whatever the day: its other four factors sum to +0.30 and tenure takes at most 0.10. */
  lemma Sample11111ScoreAtLeast(today: int)
    ensures RiskScore(Sample11111, today) >= 700
  {
    assert LargestAmount(Sample11111.recentTransactions) <= Dollars(2300);
  }

  /**
   * The component test's claim, for every reference day: the low-risk sample
   * customer scores strictly below the high-risk one.
   */
  lemma LowRiskSampleScoresLower(today: int)
    ensures RiskScore(Sample12345, today) < RiskScore(Sample11111, today)
  {
    assert LargestAmount(Sample12345.recentTransactions) <= Dollars(4500);
    Sample11111ScoreAtLeast(today);
  }

  /** Customer 12345 without a start date: income 75000, credit 780, five products, largest amount 4500. */
  lemma PremiumProfileWithoutStartDate(today: int)
    ensures RiskScore(Sample12345.(customerSince := ""), today) == 170
    ensures Tier(ScoreValue(170)) == Low
  {
    assert LargestAmount(Sample12345.recentTransactions) <= Dollars(4500);
  }

  /** Customer 11111 without a start date: income 28000, credit 620, one product, largest amount 2300. */
  lemma BasicProfileWithoutStartDate(today: int)
    ensures RiskScore(Sample11111.(customerSince := ""), today) == 800
    ensures Tier(ScoreValue(800)) == Critical
  {
    assert LargestAmount(Sample11111.recentTransactions) <= Dollars(2300);
  }

  /**
   * A customer id nobody knows is analysed with the blank profile: no income
   * (+0.10), unknown credit (0), no start date (0), no products (+0.05) and no
   * transactions (0) give 0.65, the lowest score of the high tier.
   */
  lemma UnknownCustomerRatedHigh(customerId: string, today: int)
    ensures RiskScore(BlankProfile(customerId), today) == 650
    ensures Tier(ScoreValue(RiskScore(BlankProfile(customerId), today))) == High
  {
  }
}
