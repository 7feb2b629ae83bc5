/**
 * The context bundle handed to every analysis stage: the query, the profile,
 * a bounded prefix of the recent transactions and a bounded prefix of the
 * ranked policy excerpts, each excerpt's text cut to a bounded length. The
 * prompt text the bundle is printed into is not modelled.
 */
module Context {
  import opened Wrappers
  import opened Records

  const MaxTransactions: nat := 10
  const MaxExcerpts: nat := 6
  const MaxExcerptChars: nat := 500

  /** One policy excerpt as shown to the stages. */
  datatype PolicyExcerpt = PolicyExcerpt(source: Option<string>, collection: Option<string>, relevance: real, text: string)

  datatype ContextBundle = ContextBundle(
    query: string,
    profile: CustomerProfile,
    transactions: seq<Transaction>,
    excerpts: seq<PolicyExcerpt>,
    policySummary: string)

  /** A search result as an excerpt: its document text (empty when missing) cut to the bound. */
  function ExcerptOf(r: SearchResult): (e: PolicyExcerpt)
    ensures e.source == r.filename && e.collection == r.collection && e.relevance == r.relevance
    ensures |e.text| == Min(MaxExcerptChars, |r.document.GetOr("")|)
    ensures e.text == r.document.GetOr("")[..|e.text|]
  {
    PolicyExcerpt(r.filename, r.collection, r.relevance, Take(r.document.GetOr(""), MaxExcerptChars))
  }

  /** Assemble the bundle for one run; the policy summary comes from the loaded policy set. */
  function AssembleContext(p: CustomerProfile, results: seq<SearchResult>, query: string, policySummary: string)
    : (c: ContextBundle)
    ensures c.query == query && c.profile == p && c.policySummary == policySummary
    ensures |c.transactions| == Min(MaxTransactions, |p.recentTransactions|)
    ensures c.transactions == p.recentTransactions[..|c.transactions|]
    ensures |c.excerpts| == Min(MaxExcerpts, |results|)
    ensures forall i | 0 <= i < |c.excerpts| ::
              && c.excerpts[i].source == results[i].filename
              && c.excerpts[i].collection == results[i].collection
              && |c.excerpts[i].text| == Min(MaxExcerptChars, |results[i].document.GetOr("")|)
              && c.excerpts[i].text == results[i].document.GetOr("")[..|c.excerpts[i].text|]
              && (|results[i].document.GetOr("")| <= MaxExcerptChars ==> c.excerpts[i].text == results[i].document.GetOr(""))
  {
    var top := Take(results, MaxExcerpts);
    ContextBundle(
      query,
      p,
      Take(p.recentTransactions, MaxTransactions),
      seq(|top|, i requires 0 <= i < |top| => ExcerptOf(top[i])),
      policySummary)
  }
}
