/**
 * The records the orchestration reads: customer profiles with their recent
 * transactions, and the ranked policy search results. Money is held in whole
 * cents, so every threshold of the scoring and reporting rules is exact.
 */
module Records {
  import opened Wrappers

  /** An amount of money in cents. */
  type Cents = int

  function Dollars(n: int): Cents {
    100 * n
  }

  /** One recent transaction; a record without an amount reads as 0. */
  datatype Transaction = Transaction(amount: Option<Cents>, description: string, timestamp: string)

  /** The amount of a transaction as the rules read it: `t.get("amount", 0)`. */
  function Amount(t: Transaction): Cents {
    t.amount.GetOr(0)
  }

  datatype CustomerProfile = CustomerProfile(
    customerId: string,
    income: Cents,
    creditScore: int,              // 0 stands for "unknown"
    accountType: string,
    customerSince: string,         // a `%Y-%m-%d` date, or "" when not recorded
    riskTier: string,
    recentTransactions: seq<Transaction>,
    bankingProducts: seq<string>,
    lastReviewDate: string)

  /** One ranked hit of the policy search; absent dictionary keys are None. */
  datatype SearchResult = SearchResult(
    filename: Option<string>,
    collection: Option<string>,
    document: Option<string>,
    relevance: real)

  /** The largest transaction amount (Python's `max(amounts)`). */
  function LargestAmount(txs: seq<Transaction>): (m: Cents)
    requires |txs| > 0
    ensures forall i :: 0 <= i < |txs| ==> Amount(txs[i]) <= m
    ensures exists i :: 0 <= i < |txs| && Amount(txs[i]) == m
  {
    if |txs| == 1 then Amount(txs[0])
    else
      var rest := LargestAmount(txs[1..]);
      if Amount(txs[0]) >= rest then Amount(txs[0]) else rest
  }

  /** The smallest transaction amount (Python's `min(amounts)`). */
  function SmallestAmount(txs: seq<Transaction>): (m: Cents)
    requires |txs| > 0
    ensures forall i :: 0 <= i < |txs| ==> m <= Amount(txs[i])
    ensures exists i :: 0 <= i < |txs| && Amount(txs[i]) == m
  {
    if |txs| == 1 then Amount(txs[0])
    else
      var rest := SmallestAmount(txs[1..]);
      if Amount(txs[0]) <= rest then Amount(txs[0]) else rest
  }

  /** Appending transactions never lowers the largest amount. */
  lemma LargestAmountGrows(txs: seq<Transaction>, extra: seq<Transaction>)
    requires |txs| > 0
    ensures LargestAmount(txs) <= LargestAmount(txs + extra)
  {
    var i :| 0 <= i < |txs| && Amount(txs[i]) == LargestAmount(txs);
    assert (txs + extra)[i] == txs[i];
  }

  function Min(a: nat, b: nat): nat {
    if a <= b then a else b
  }

  /** Python's `s[:n]`: the first n elements, or all of s when it is shorter. */
  function Take<T>(s: seq<T>, n: nat): (r: seq<T>)
    ensures |r| == Min(n, |s|)
    ensures r == s[..|r|]
  {
    if |s| <= n then s else s[..n]
  }
}
