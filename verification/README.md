# Banking analysis orchestration: the deterministic core, in Dafny

This project models the decision logic of `EnhancedBankingSequentialOrchestration`.
The orchestration analyses one bank customer. It resolves the customer's profile,
gathers ranked policy excerpts, runs six language-model stages over a shared
context, and then builds a report. The report carries a deterministic risk score,
a risk tier, rule-based findings and rule-based recommendations. The model covers
the parts of a run that are computed rather than generated:

- **Risk scoring** (`RiskScoring`) starts from a base of 0.5 and adds five
  independent adjustments: income, credit score (0 means unknown), tenure,
  product count and the largest recent transaction. The score is then clamped
  to [0, 1].
- **Tiering** (`RiskScoring.Tier`) maps a score to one of five half-open bands:
  low, medium-low, medium, high and critical.
- **Findings and recommendations** (`Findings`, `Recommendations`) are rule
  tables over the profile fields. Recommendations get a generic fallback entry
  whenever the rules yield fewer than two.
- **Context assembly** (`Context`) keeps the first 10 transactions and the first
  6 search results, and cuts each excerpt's text to 500 characters.
- **Profile resolution** (`Profiles`) covers the three sample profiles, the SQL
  refresh rule, and a blank profile for unknown ids.
- **A whole run** (`Orchestration`) builds the contribution map from the stage
  callbacks, collects the policy references, counts requests, keeps the
  interaction log and builds the report.
- **Dates** (`Dates`) covers the `%Y-%m-%d` grammar accepted by
  `datetime.strptime` and the proleptic Gregorian day ordinal that tenure is
  measured in.

Representation choices:

- Money is an `int` number of cents.
- A risk score is an `int` number of thousandths, so 500 stands for 0.5. Every
  adjustment is a whole number of hundredths, so `round(score, 3)` is the
  identity and the floating-point noise of the Python code disappears.
- The clock is a parameter. `today` is the ordinal of the reference day, as
  `date.toordinal()`. The tenure in days, `(now - since).days`, is `today`
  minus the ordinal of the start date.
- The test `years >= n`, with `years = days / 365.25`, is written
  `4 * days >= 1461 * n`. No whole number of days lies close enough to 1, 3 or
  5 years for floating-point rounding to change that comparison.
- `Tier` takes a `real`, because `_determine_risk_tier` accepts any float and its tests
  call it with 0.1 and 0.9. Reports pass `ScoreValue(m) = m / 1000`.

The language-model stages, the SQL source, the search service and the clock
enter a run as the fields of `Orchestration.Collaborators`:

- `sql` is what the SQL source returns for each sample id, or None when no
  connection string is configured.
- `searchResults` is the ranked result list of the hybrid search.
- `policySummary` is the text summary of the loaded policy set.
- `orchestrate` maps the assembled context bundle to the stages' outcome.
- `reportId` is the freshly generated report id.
- `elapsedCentiseconds` is the measured processing time.
- `today` is the reference day.

Notes on the code's behaviour that the model keeps:

- The SQL refresh replaces the transactions only when an income also came back
  (main_starter.py:283-288). The transaction override sits inside the
  `income is not None` branch, so a missing income discards fetched transactions.
- The findings list always opens with the completion line and the income line
  (main_starter.py:665-677), so a report has at least two findings.
- The score is rounded before it is clamped (main_starter.py:648). The score
  never leaves [0.02, 0.98], so the clamp never engages.
- The stage list is fixed at six stages with distinct names
  (main_starter.py:433).

## Model

| member | source | states |
|---|---|---|
| Records.LargestAmount | main_starter.py:639-642 | the value is one of the transaction amounts (missing amount read as 0) and no amount exceeds it |
| Records.SmallestAmount | main_starter.py:697-699 | the value is one of the transaction amounts and no amount is below it |
| Records.LargestAmountGrows | main_starter.py:639-646 | appending transactions never lowers the largest amount |
| Records.Take | main_starter.py:768 | a slice `s[:n]` has min(n, len) elements and is a prefix of s |
| Dates.MatchMonth | main_starter.py:618 | a matched `%m` field is a month 1..12, and the separator after it lies inside the string |
| Dates.MatchDay | main_starter.py:618 | a matched `%d` field is a day 1..31, followed by a position inside the string |
| Dates.ParseIsoDate | main_starter.py:616-618 | `strptime(s, "%Y-%m-%d")` yields only real calendar dates (years 1..9999, the day within its month); strings shorter than 8 characters never parse |
| Dates.IsoFormat | main_starter.py:618 | the canonical text of a date is 10 characters with '-' at positions 4 and 7 |
| Dates.ParseIsoFormat | main_starter.py:616-618 | every valid date written as YYYY-MM-DD parses back to the same date (parser round trip) |
| Dates.Ordinal | main_starter.py:619 | a valid date's day ordinal lies strictly after all the days of earlier years and within its own year's 365 or 366 days |
| Dates.NextDay | main_starter.py:619 | the day after a date is strictly later, and is a valid date for every valid date except 9999-12-31 |
| Dates.OrdinalOfFirstDay | main_starter.py:619 | 0001-01-01 is day 1, as `date.toordinal()` numbers days |
| Dates.OrdinalCountsDays | main_starter.py:619 | the next day's ordinal is exactly one more, so an ordinal difference is the number of days between two dates, `(now - since).days` |
| Dates.DaysBeforeNextYear | main_starter.py:619 | each year contributes exactly 365 or 366 days (Gregorian leap rule) to the day ordinal |
| Dates.YearsInOrder | main_starter.py:619 | all of an earlier year's days precede the start of a later year |
| Dates.MonthsFillYear | main_starter.py:619 | the twelve month lengths add up to the year's length |
| Dates.MonthsInOrder | main_starter.py:619 | all of an earlier month's days precede the start of a later month |
| Dates.OrdinalStrictlyIncreasing | main_starter.py:619 | a strictly earlier valid date has a strictly smaller day ordinal, so tenure in days grows as the start date moves back |
| Profiles.BlankProfile | main_starter.py:141-151 | the profile built for a bare customer id has that id, zero income, credit score 0 (unknown), no start date, no transactions, no products, account type "standard" and stored tier "medium" |
| Profiles.SampleProfiles | main_starter.py:226-275 | the sample table holds exactly the ids 12345, 67890 and 11111, each profile stored under its own id |
| Profiles.ResolveProfile | main_starter.py:466-469 | a known id gets its stored profile; an unknown id gets a profile with that id, zero income, unknown credit score, no start date, no transactions and no products |
| Profiles.RefreshProfile | main_starter.py:283-288 | SQL data changes a profile only when an income came back: the income is replaced, the transactions only by a non-empty list, and every other field is untouched |
| Profiles.MergeSqlData | main_starter.py:283-288 | with an income present, the customer's entry (created blank if missing) is refreshed and all other entries are left alone; without one, the table is unchanged; ids stay matched to their profiles |
| Profiles.RefreshEach | main_starter.py:280-288 | applying the SQL data of a list of ids in turn never loses an id, adds only listed ids, leaves every unlisted profile as it was and keeps ids matched to their profiles |
| Profiles.RefreshEachRefreshesListed | main_starter.py:280-288 | refreshing distinct known ids in turn keeps the table's ids, refreshes each listed profile once from its own SQL data and leaves every other profile as it was |
| Profiles.LoadCustomerProfiles | main_starter.py:222-295 | the loaded table always has the three sample ids; without a SQL connection it is the samples; with one, each sample is refreshed by its own SQL data |
| RiskScoring.IncomeAdjustment | main_starter.py:595-603 | the income factor lies in [-0.15, +0.10]; it lowers the risk exactly when income >= 50000 and raises it exactly when income < 30000 |
| RiskScoring.CreditAdjustment | main_starter.py:605-613 | the credit factor lies in [-0.15, +0.15]; it is zero exactly when the score is 0 (unknown) or below, and negative exactly from 700 up |
| RiskScoring.YearsAtLeast | main_starter.py:619-625 | the integer test `4 * days >= 1461 * n` holds exactly when `days / 365.25 >= n` |
| RiskScoring.TenureDays | main_starter.py:616-619 | tenure is measured exactly when the start date is non-empty and parses, and is then the reference day's ordinal minus the start date's, a day count; a missing or malformed date gives no measurement and no error |
| RiskScoring.TenureStep | main_starter.py:620-625 | the tenure factor lies in [-0.10, +0.08]; it is negative exactly from 3 years and positive exactly below 1 year |
| RiskScoring.TenureAdjustment | main_starter.py:615-627 | the tenure factor lies in [-0.10, +0.08] and is zero when the date is missing or unreadable |
| RiskScoring.ProductAdjustment | main_starter.py:629-636 | the product factor lies in [-0.08, +0.05] and is positive exactly for at most one product |
| RiskScoring.TransactionAdjustment | main_starter.py:638-646 | the transaction factor lies in [0, +0.10] and is positive exactly when some recent amount exceeds 5000 |
| RiskScoring.RiskScore | main_starter.py:591-648 | the score always lies in [0.02, 0.98], so the clamp to [0, 1] never engages and the score is the base plus the five factors |
| RiskScoring.Tier | main_starter.py:650-661 | every score gets a tier, and the tier's half-open band (lower bound inclusive) contains the score |
| RiskScoring.TierIsItsBand | main_starter.py:650-661 | a score has a given tier exactly when it lies in that tier's band (bands are disjoint and cover all scores) |
| RiskScoring.TierMonotone | main_starter.py:650-661 | a higher score never gets a less risky tier |
| RiskScoring.TierExamples | main_starter.py:918-919 | tier(0.1) is "low" and tier(0.9) is "critical"; 0.25, 0.50, 0.65 and 0.80 each open the next band |
| RiskScoring.IncomeMonotone | main_starter.py:595-603 | holding all else fixed, higher income never raises the score |
| RiskScoring.CreditMonotone | main_starter.py:605-613 | holding all else fixed, a higher known (positive) credit score never raises the score |
| RiskScoring.UnknownCreditIsNeutral | main_starter.py:605-613 | with credit score 0 the score is the base plus the other four factors alone |
| RiskScoring.ProductsMonotone | main_starter.py:629-636 | holding all else fixed, more products never raise the score |
| RiskScoring.MoreTransactionsNeverLower | main_starter.py:638-646 | adding recent transactions never lowers the score |
| RiskScoring.TenureStepsDown | main_starter.py:619-625 | a longer tenure never gets a larger tenure factor |
| RiskScoring.EarlierStartNeverRaises | main_starter.py:615-627 | holding all else fixed, an earlier valid customer-since date never raises the score |
| ScoringExamples.Sample12345StartParses | main_starter.py:232 | customer 12345's start date text reads as 15 May 2019 |
| ScoringExamples.Sample12345StartOrdinal | main_starter.py:232 | 15 May 2019 is day 737194 of the proleptic calendar |
| ScoringExamples.Sample12345Score | main_starter.py:227-242 | from 2024-05-15 on, customer 12345 scores 0.07 (tier low), its tenure factor being -0.10 |
| ScoringExamples.Sample11111ScoreAtLeast | main_starter.py:259-274 | customer 11111 scores at least 0.70 on any reference day |
| ScoringExamples.LowRiskSampleScoresLower | main_starter.py:912-917 | on every reference day customer 12345 scores strictly below customer 11111 |
| ScoringExamples.PremiumProfileWithoutStartDate | main_starter.py:591-648 | income 75000, credit 780, no start date, five products and largest amount 4500 score 0.17, tier low |
| ScoringExamples.BasicProfileWithoutStartDate | main_starter.py:591-648 | income 28000, credit 620, no start date, one product and largest amount 2300 score 0.80, tier critical |
| ScoringExamples.UnknownCustomerRatedHigh | main_starter.py:466-469 | a customer id with no stored profile is analysed with the blank profile, which scores 0.65 (income +0.10, zero products +0.05, no other factor) on any reference day, tier high |
| Findings.LendingTierFor | main_starter.py:669-677 | incomes from 75000 get tier A+/A, from 50000 below 75000 tier B, from 30000 below 50000 tier C, and below 30000 the limited-eligibility finding |
| Findings.CreditRatingFor | main_starter.py:680-687 | a known credit score is excellent exactly from 750, good exactly from 700 below 750, fair exactly from 650 below 700, and case-by-case below 650 |
| Findings.CreditFindings | main_starter.py:679-687 | a credit finding appears exactly when the credit score is positive; it reports that score, its rating band and the band's quoted rate, and a rate (3.5%, 4.5% or 6.0% APR) is quoted exactly from 650 up |
| Findings.ProductFindings | main_starter.py:689-694 | a product finding appears exactly for four or more products (strong) or at most one (weak), and reports the count |
| Findings.TransactionFindings | main_starter.py:696-699 | a transaction finding appears exactly when there are transactions, and reports their count and true lowest and highest amounts |
| Findings.PolicyFindings | main_starter.py:701-704 | a policy-area finding appears exactly when there are search results, naming exactly the collections of the first five |
| Findings.CreditAndProductPartsKeepTheirKinds | main_starter.py:663-694 | credit and product findings come from their own rules alone, so the report has one of either kind exactly when that rule produced one |
| Findings.ActivityAndPolicyPartsKeepTheirKinds | main_starter.py:696-706 | transaction and policy findings come from their own rules alone, so the report has one of either kind exactly when that rule produced one |
| Findings.GenerateFindings | main_starter.py:663-706 | at least two findings: the completion line for this customer and contribution count, then the income line; credit, product, transaction and policy findings each present exactly when their condition holds, each carrying the facts stated above |
| Recommendations.MonitoringAdvice | main_starter.py:712-720 | high and critical tiers get two monitoring entries, the others one, all of them monitoring advice |
| Recommendations.When | main_starter.py:724-742 | a conditional rule contributes its one recommendation exactly when its condition holds |
| Recommendations.ProductAdvice | main_starter.py:722-731 | the product rules yield exactly the investment, savings, credit-card and mortgage offers whose rules hold, one entry each |
| Recommendations.RelationshipAdvice | main_starter.py:733-742 | the relationship rules yield exactly the premium-upgrade, cross-sell and credit-building offers whose rules hold, one entry each |
| Recommendations.PartsMakeOffers | main_starter.py:710-742 | monitoring entries name no offer, so the combined list offers exactly what the two rule groups offer, and never the generic review |
| Recommendations.RuleRecommendations | main_starter.py:710-742 | the rule-based list starts with the tier's monitoring advice, has one entry per satisfied rule (two for a high tier), never holds the generic review, and holds each offer exactly when its rule holds |
| Recommendations.FallbackKeepsOffers | main_starter.py:744-746 | appending the generic review adds or removes no rule offer |
| Recommendations.GenerateRecommendations | main_starter.py:708-748 | at least two entries; the generic review is appended exactly when the rules produced fewer than two; high or critical tiers start with the two monitoring entries; mortgage pre-qualification appears exactly when mortgage is absent, income >= 75000 and credit >= 700; likewise every other rule |
| Recommendations.HighRiskNeedsNoFallback | main_starter.py:714-716 | a score of 0.65 or more never needs the generic fallback |
| Context.ExcerptOf | main_starter.py:773-777 | an excerpt keeps its result's source and collection, and its text is the document's first min(500, length) characters |
| Context.AssembleContext | main_starter.py:750-794 | the bundle keeps at most 10 transactions as a prefix of the originals, at most 6 excerpts in ranked order, each text at most 500 characters and a prefix of its document (the whole document when it fits) |
| Orchestration.CallbackStep | main_starter.py:486-488 | one more callback keeps the map's keys equal to the stage names seen and each value the stage's latest output (last writer wins) |
| Orchestration.Contributions | main_starter.py:484-488 | the contribution map has exactly the names of the stages that reported, and holds each stage's last reported output |
| Orchestration.DistinctStagesContributeOnceEach | main_starter.py:484-488 | stages with distinct names yield exactly one contribution each |
| Orchestration.AllStagesContribute | main_starter.py:433 | when the six stages report once each, the report holds six contributions |
| Orchestration.PolicyReferences | main_starter.py:538-541 | the policy references are exactly the distinct non-empty file names among the results, and never more than the results |
| Orchestration.ProfilesForRun | main_starter.py:459-460 | the first run works with exactly the table `_load_customer_profiles` returns (the samples, each refreshed by its own SQL data when a connection is configured; never empty); later runs reuse the stored table unchanged; ids stay matched to their profiles |
| Orchestration.BuildReport | main_starter.py:534-572 | the report carries the customer, query and id; its score is the profile's risk score in [0.02, 0.98], and its tier is that score's tier; findings and recommendations each have at least two entries; policies referenced never exceed results analysed |
| Orchestration.RunAnalysis | main_starter.py:453-589 | every run is counted and appends exactly one log entry without touching older ones; a report is returned exactly when the stages finished, and then success is counted and logged with the report's id and score; otherwise the failure is logged and success is not counted |
| Orchestration.ServeAllCountsEveryRequest | main_starter.py:456 | over any sequence of requests every request is counted and logged once, and successes never exceed requests |
| Orchestration.FromStartup | main_starter.py:185-191 | from the empty start-up state, n requests give exactly n counted requests and n log entries |

## Left out

- The language-model stages, `SequentialOrchestration`, `InProcessRuntime` and the
  180-second `asyncio.wait_for` (main_starter.py:297-434, 496-532, 589) run in a
  library that is not part of this model. A run receives their outcome
  (finished with messages, raised, or timed out) as a function of the context bundle.
- `DataConnector` (main_starter.py:46-120) is database I/O. Only its optional
  income and transaction list per customer enter, as `SqlFetch` values.
- `BlobStorageConnector`, `ChromaDBManager`, `SharedState` and `rag_utils` are
  not part of this model. Search results and the policy summary are inputs.
  The interaction log is an append-only sequence standing in for `SharedState`.
- Document loading into the vector store (main_starter.py:193-220, 436-451) is I/O.
- The text of findings, recommendations and the context prompt is not modelled.
  This covers money formatting, the `', '.join` of collection names, and logging
  and printing. Findings and recommendations are tagged values that carry the
  facts their sentences report.
- `uuid` report ids, `time.time()` elapsed time, `datetime.now()` and the report's
  `generated_at` and `generated_by` stamps are not computed. They are parameters
  or left out.
- Floating point: money is whole cents, so an income with more than two decimals
  is not represented. Scores are thousandths. Tier thresholds compare exact reals
  where Python compares doubles; the two agree on every score the scorer produces.
- Dates.ParseIsoDate: reads ASCII digits only. Python's `\d` also accepts other
  Unicode decimal digits.
- Orchestration.RunAnalysis: an exception raised before the orchestration's
  `try` block (main_starter.py:504) is not modelled. This covers the document
  load (463), the hybrid search (472-475) and the context assembly (478). Such an
  exception leaves `run_enhanced_analysis` after `total_requests` has been
  counted (456) and without any log entry. Only the SQL profile load catches its
  own errors (290-291). A failure of the interaction-log update after success is
  counted is not modelled either.
- Records.Transaction: an amount that is present but null, as a NULL from the SQL
  source would give, is not represented. `amount` None stands for a missing key,
  which `t.get("amount", 0)` reads as 0. In the source a null amount raises a
  `TypeError`. Among the first ten transactions it fails while the context is
  formatted (main_starter.py:769, before the `try`). Beyond them it fails in the
  `max` of the risk score (642), inside the `try`.
- Orchestration.ServeAll: runs are modelled one after another. `run_enhanced_analysis`
  is `async`, and it touches shared state across `await`s: the request counter
  (main_starter.py:456), the load-once check and assignment of the profile table
  (459-460, with the SQL fetch suspending at 73), and the success counter (574,
  after the awaits at 463, 472, 526 and 532). Two concurrent first requests could
  both load the table, and their log entries could interleave. Concurrent runs
  are not modelled.
- Orchestration.PolicyReferences: the source returns a list in Python's set
  iteration order, which is unspecified. The model keeps the set.
- Orchestration.RunAnalysis: the stage instructions and the orchestration prompt text
  (main_starter.py:297-434, 507-523) are not modelled. Only the six stage names
  are kept.
- The CLI, argument parsing, `_display_report` and the demo and self-test code
  (main_starter.py:797-1043) are not modelled. Their assertions appear as
  properties above.
- Determinism of the score for a fixed reference day holds by construction,
  because every member is a pure function. No separate lemma states it.
