/**
 * Where a customer profile comes from: three built-in sample profiles,
 * optionally refreshed from the SQL source, and a zero-valued profile for any
 * customer id nobody knows.
 */
module Profiles {
  import opened Wrappers
  import opened Records

  /** A profile with every field at its declared default, for the given id. */
  function BlankProfile(customerId: string): (p: CustomerProfile)
    ensures p.customerId == customerId
    ensures p.income == 0 && p.creditScore == 0
    ensures p.customerSince == "" && p.lastReviewDate == ""
    ensures p.recentTransactions == [] && p.bankingProducts == []
    ensures p.accountType == "standard" && p.riskTier == "medium"
  {
    CustomerProfile(customerId, 0, 0, "standard", "", "medium", [], [], "")
  }

  /** Every profile is stored under its own customer id. */
  predicate KeyedById(profiles: map<string, CustomerProfile>) {
    forall cid | cid in profiles :: profiles[cid].customerId == cid
  }

  /** The ids of the built-in sample customers, in the order they are refreshed. */
  const SampleIds: seq<string> := ["12345", "67890", "11111"]

  function Tx(dollars: int, description: string, timestamp: string): Transaction {
    Transaction(Some(Dollars(dollars)), description, timestamp)
  }

  const Sample12345: CustomerProfile := CustomerProfile(
    "12345", Dollars(75000), 780, "premium_plus", "2019-05-15", "low",
    [Tx(4500, "Salary Deposit", "2024-03-20"), Tx(1500, "Mortgage Payment", "2024-03-15"),
     Tx(300, "Investment Contribution", "2024-03-10"), Tx(200, "Utility Bills", "2024-03-05")],
    ["checking", "savings", "mortgage", "investment", "credit_card"], "2024-01-10")

  const Sample67890: CustomerProfile := CustomerProfile(
    "67890", Dollars(45000), 680, "standard", "2021-08-20", "medium",
    [Tx(3200, "Salary Deposit", "2024-03-20"), Tx(1200, "Rent Payment", "2024-03-14"),
     Tx(400, "Car Payment", "2024-03-08"), Tx(150, "Student Loan", "2024-03-02")],
    ["checking", "savings", "credit_card"], "2024-02-15")

  const Sample11111: CustomerProfile := CustomerProfile(
    "11111", Dollars(28000), 620, "basic", "2023-01-10", "high",
    [Tx(2300, "Salary Deposit", "2024-03-20"), Tx(800, "Rent Payment", "2024-03-12"),
     Tx(300, "Credit Card Payment", "2024-03-07"), Tx(150, "Overdraft Fee", "2024-03-01")],
    ["checking"], "2024-03-01")

  function SampleProfiles(): (m: map<string, CustomerProfile>)
    ensures m.Keys == {"12345", "67890", "11111"}
    ensures KeyedById(m)
  {
    map["12345" := Sample12345, "67890" := Sample67890, "11111" := Sample11111]
  }

  /**
   * The profile analysed for a customer id: the known profile, or a blank one
   * carrying the requested id.
   */
  function ResolveProfile(profiles: map<string, CustomerProfile>, customerId: string): (p: CustomerProfile)
    ensures KeyedById(profiles) ==> p.customerId == customerId
    ensures customerId in profiles ==> p == profiles[customerId]
    ensures customerId !in profiles ==>
              && p.customerId == customerId
              && p.income == 0 && p.creditScore == 0 && p.customerSince == ""
              && p.recentTransactions == [] && p.bankingProducts == []
  {
    if customerId in profiles then profiles[customerId] else BlankProfile(customerId)
  }

  /** What the SQL source returned for one customer: its latest income, if any, and its transactions. */
  datatype SqlFetch = SqlFetch(income: Option<Cents>, transactions: seq<Transaction>)

  /**
   * One profile after its SQL data is applied. Nothing changes unless an
   * income came back; then the income is replaced, and the transactions are
   * replaced only by a non-empty list.
   */
  function RefreshProfile(base: CustomerProfile, fetched: SqlFetch): (p: CustomerProfile)
    ensures fetched.income.None? ==> p == base
    ensures fetched.income.Some? ==> p.income == fetched.income.value
    ensures p.recentTransactions
            == (if fetched.income.Some? && |fetched.transactions| > 0 then fetched.transactions
                else base.recentTransactions)
    ensures p.(income := base.income, recentTransactions := base.recentTransactions) == base
  {
    match fetched.income
    case None => base
    case Some(income) =>
      var withIncome := base.(income := income);
      if |fetched.transactions| > 0 then withIncome.(recentTransactions := fetched.transactions) else withIncome
  }

  /**
   * Apply one customer's SQL data to the profile table: when an income came
   * back, the customer's profile (a blank one if unknown) is refreshed and
   * stored; every other entry is left alone.
   */
  function MergeSqlData(profiles: map<string, CustomerProfile>, customerId: string, fetched: SqlFetch)
    : (r: map<string, CustomerProfile>)
    ensures fetched.income.None? ==> r == profiles
    ensures fetched.income.Some? ==>
              && r.Keys == profiles.Keys + {customerId}
              && r[customerId] == RefreshProfile(ResolveProfile(profiles, customerId), fetched)
    ensures forall cid | cid in profiles && cid != customerId :: cid in r && r[cid] == profiles[cid]
    ensures KeyedById(profiles) ==> KeyedById(r)
  {
    match fetched.income
    case None => profiles
    case Some(_) => profiles[customerId := RefreshProfile(ResolveProfile(profiles, customerId), fetched)]
  }

  /** Apply each listed customer's SQL data in turn, as the start-up loop does. */
  function RefreshEach(profiles: map<string, CustomerProfile>, ids: seq<string>, fetch: string -> SqlFetch)
    : (r: map<string, CustomerProfile>)
    ensures profiles.Keys <= r.Keys
    ensures forall cid | cid in r :: cid in profiles || cid in ids
    ensures forall cid | cid in profiles && cid !in ids :: r[cid] == profiles[cid]
    ensures KeyedById(profiles) ==> KeyedById(r)
    decreases |ids|
  {
    if |ids| == 0 then profiles
    else RefreshEach(MergeSqlData(profiles, ids[0], fetch(ids[0])), ids[1..], fetch)
  }

  /**
   * Refreshing distinct, already known ids keeps the table's keys and refreshes
   * each listed profile once from its own data, leaving the others alone.
   */
  lemma {:induction false} RefreshEachRefreshesListed(
    profiles: map<string, CustomerProfile>, ids: seq<string>, fetch: string -> SqlFetch)
    requires forall i, j | 0 <= i < j < |ids| :: ids[i] != ids[j]
    requires forall i | 0 <= i < |ids| :: ids[i] in profiles
    ensures RefreshEach(profiles, ids, fetch).Keys == profiles.Keys
    ensures KeyedById(profiles) ==> KeyedById(RefreshEach(profiles, ids, fetch))
    ensures forall cid | cid in profiles ::
              RefreshEach(profiles, ids, fetch)[cid]
              == if cid in ids then RefreshProfile(profiles[cid], fetch(cid)) else profiles[cid]
    decreases |ids|
  {
    if |ids| > 0 {
      var first, rest := ids[0], ids[1..];
      var merged := MergeSqlData(profiles, first, fetch(first));
      assert merged.Keys == profiles.Keys;
      assert merged[first] == RefreshProfile(profiles[first], fetch(first));
      assert forall i, j | 0 <= i < j < |rest| :: rest[i] != rest[j] by {
        forall i, j | 0 <= i < j < |rest| ensures rest[i] != rest[j] {
          assert rest[i] == ids[i + 1] && rest[j] == ids[j + 1];
        }
      }
      assert first !in rest by {
        forall i | 0 <= i < |rest| ensures rest[i] != first {
          assert rest[i] == ids[i + 1];
        }
      }
      assert forall cid :: cid in ids <==> cid == first || cid in rest;
      RefreshEachRefreshesListed(merged, rest, fetch);
    }
  }

  /**
   * The profile table at start-up: the samples, refreshed in turn for each
   * sample id from the SQL source when one is configured (`sql` is None when
   * there is no connection string).
   */
  function LoadCustomerProfiles(sql: Option<string -> SqlFetch>): (r: map<string, CustomerProfile>)
    ensures r.Keys == SampleProfiles().Keys
    ensures KeyedById(r)
    ensures sql.None? ==> r == SampleProfiles()
    ensures sql.Some? ==> forall cid | cid in r :: r[cid] == RefreshProfile(SampleProfiles()[cid], sql.value(cid))
  {
    match sql
    case None => SampleProfiles()
    case Some(fetch) =>
      var samples := SampleProfiles();
      assert forall cid | cid in samples :: cid in SampleIds;
      RefreshEachRefreshesListed(samples, SampleIds, fetch);
      RefreshEach(samples, SampleIds, fetch)
  }
}
