/**
 * One analysis run of the banking orchestration, with the language-model
 * stages, the SQL source, the search service and the clock as inputs: resolve
 * the profile, assemble the context, let the stages run, then score the
 * customer and build the report, counting requests and logging the outcome.
 */
module Orchestration {
  import opened Wrappers
  import opened Records
  import opened Profiles
  import opened RiskScoring
  import opened Findings
  import opened Recommendations
  import opened Context

  /** The six analysis stages, in the order they run. */
  const AgentNames: seq<string> := [
    "Enhanced_Data_Gatherer", "Enhanced_Fraud_Analyst", "Enhanced_Loan_Analyst",
    "Enhanced_Support_Specialist", "Enhanced_Risk_Analyst", "Enhanced_Synthesis_Coordinator"]

  /** A completed stage's output, as delivered to the response callback. */
  datatype AgentMessage = AgentMessage(name: string, content: string)

  /** No later message carries the same stage name as message i. */
  predicate LastFromStage(msgs: seq<AgentMessage>, i: int)
    requires 0 <= i < |msgs|
  {
    forall j | i < j < |msgs| :: msgs[j].name != msgs[i].name
  }

  /**
   * A contribution map is in step with the messages seen when its keys are
   * exactly the stage names that reported and each holds its stage's last output.
   */
  predicate InStep(msgs: seq<AgentMessage>, c: map<string, string>) {
    && (forall n | n in c :: exists i | 0 <= i < |msgs| :: msgs[i].name == n)
    && (forall i | 0 <= i < |msgs| :: msgs[i].name in c)
    && (forall i | 0 <= i < |msgs| && LastFromStage(msgs, i) :: c[msgs[i].name] == msgs[i].content)
  }

  /**
   * The contribution map the callback builds: each message stores its content
   * under its stage name, a later message from the same stage overwriting an
   * earlier one.
   */
  function Contributions(msgs: seq<AgentMessage>): (c: map<string, string>)
    ensures InStep(msgs, c)
  {
    if |msgs| == 0 then map[]
    else
      var before := Contributions(msgs[..|msgs| - 1]);
      CallbackStep(msgs, before);
      before[msgs[|msgs| - 1].name := msgs[|msgs| - 1].content]
  }

  /** One more callback keeps the contribution map in step with the messages seen. */
  lemma CallbackStep(msgs: seq<AgentMessage>, before: map<string, string>)
    requires |msgs| > 0 && InStep(msgs[..|msgs| - 1], before)
    ensures InStep(msgs, before[msgs[|msgs| - 1].name := msgs[|msgs| - 1].content])
  {
    var earlier, last := msgs[..|msgs| - 1], msgs[|msgs| - 1];
    var c := before[last.name := last.content];
    forall n ensures n in c <==> exists i | 0 <= i < |msgs| :: msgs[i].name == n {
      if n == last.name {
        assert msgs[|earlier|].name == n;
      } else if n in before {
        var i :| 0 <= i < |earlier| && earlier[i].name == n;
        assert msgs[i].name == n;
      } else {
        forall i | 0 <= i < |msgs| ensures msgs[i].name != n {
          if i < |earlier| {
            assert earlier[i] == msgs[i];
          }
        }
      }
    }
    forall i | 0 <= i < |msgs| && LastFromStage(msgs, i) ensures msgs[i].name in c && c[msgs[i].name] == msgs[i].content {
      if i < |earlier| {
        assert msgs[|earlier|].name != msgs[i].name;
        assert LastFromStage(earlier, i) by {
          forall j | i < j < |earlier| ensures earlier[j].name != earlier[i].name {
            assert msgs[j] == earlier[j];
          }
        }
      }
    }
  }

  predicate DistinctNames(msgs: seq<AgentMessage>) {
    forall i, j | 0 <= i < j < |msgs| :: msgs[i].name != msgs[j].name
  }

  /** Stages with distinct names contribute one entry each. */
  lemma {:induction false} DistinctStagesContributeOnceEach(msgs: seq<AgentMessage>)
    requires DistinctNames(msgs)
    ensures |Contributions(msgs)| == |msgs|
  {
    if |msgs| > 0 {
      var earlier := msgs[..|msgs| - 1];
      var last := msgs[|msgs| - 1];
      assert DistinctNames(earlier) by {
        forall i, j | 0 <= i < j < |earlier| ensures earlier[i].name != earlier[j].name {
          assert earlier[i] == msgs[i] && earlier[j] == msgs[j];
        }
      }
      DistinctStagesContributeOnceEach(earlier);
      assert last.name !in Contributions(earlier) by {
        forall i | 0 <= i < |earlier| ensures earlier[i].name != last.name {
          assert earlier[i] == msgs[i];
        }
      }
    }
  }

  /** When all six stages report once each, the report holds six contributions. */
  lemma AllStagesContribute(contents: seq<string>)
    requires |contents| == |AgentNames|
    ensures |Contributions(seq(|AgentNames|, i requires 0 <= i < |AgentNames| => AgentMessage(AgentNames[i], contents[i])))| == 6
  {
    var msgs := seq(|AgentNames|, i requires 0 <= i < |AgentNames| => AgentMessage(AgentNames[i], contents[i]));
    assert DistinctNames(msgs);
    DistinctStagesContributeOnceEach(msgs);
  }

  /** The report's policy references: the distinct non-empty file names among the results. */
  function PolicyReferences(results: seq<SearchResult>): (refs: set<string>)
    ensures forall f :: f in refs <==> f != "" && exists i | 0 <= i < |results| :: results[i].filename == Some(f)
    ensures |refs| <= |results|
  {
    if |results| == 0 then {}
    else
      var earlier := results[..|results| - 1];
      var last := results[|results| - 1];
      assert forall i | 0 <= i < |earlier| :: earlier[i] == results[i];
      var named := if last.filename.Some? && last.filename.value != "" then {last.filename.value} else {};
      PolicyReferences(earlier) + named
  }

  // ---------------------------------------------------------------------------
  // The report
  // ---------------------------------------------------------------------------

  datatype ActionTaken =
    | MultiAgentAnalysisCompleted
    | PolicyComplianceVerified
    | EnterpriseRiskAssessed
    | PolicyDocumentsAnalyzed(documents: nat)
    | AgentsContributed(agents: nat)

  datatype ProcessingMetrics = ProcessingMetrics(
    elapsedCentiseconds: nat,
    agentsUsed: nat,
    policiesReferenced: nat,
    searchResultsAnalyzed: nat,
    riskScore: Milli)

  datatype Report = Report(
    reportId: string,
    customerId: string,
    query: string,
    summary: string,
    findings: seq<Finding>,
    riskTier: RiskTier,
    riskScore: Milli,
    recommendations: seq<Recommendation>,
    actionsTaken: seq<ActionTaken>,
    policyReferences: set<string>,
    contributions: map<string, string>,
    metrics: ProcessingMetrics)

  // ---------------------------------------------------------------------------
  // A run
  // ---------------------------------------------------------------------------

  /** Request counters: every run is counted, successful ones a second time. */
  datatype Metrics = Metrics(totalRequests: nat, successfulAnalyses: nat)

  /** One entry of the interaction log. */
  datatype InteractionRecord =
    | AnalysisRecorded(customerId: string, query: string, reportId: string, riskScore: Milli)
    | FailureRecorded(customerId: string, reason: string)

  datatype SystemState = SystemState(
    profiles: map<string, CustomerProfile>,
    metrics: Metrics,
    interactions: seq<InteractionRecord>)

  /** What the sequential stage orchestration delivered within its 180-second budget. */
  datatype OrchestrationOutcome =
    | Finished(output: string, messages: seq<AgentMessage>)
    | Raised(reason: string)
    | TimedOut

  /** Why a run produced no report. */
  datatype RunError = StageError(reason: string) | Timeout

  /** The text a failure is logged with: a timeout's message is empty. */
  function ErrorText(e: RunError): string {
    match e
    case StageError(reason) => reason
    case Timeout => ""
  }

  /** Everything a run takes from outside the core. */
  datatype Collaborators = Collaborators(
    sql: Option<string -> SqlFetch>,
    searchResults: seq<SearchResult>,
    policySummary: string,
    orchestrate: ContextBundle -> OrchestrationOutcome,
    reportId: string,
    elapsedCentiseconds: nat,
    today: int)

  predicate ValidState(s: SystemState) {
    && KeyedById(s.profiles)
    && s.metrics.successfulAnalyses <= s.metrics.totalRequests
  }

  const InitialState: SystemState := SystemState(map[], Metrics(0, 0), [])

  /** The profile table a run works with: loaded on first use, cached afterwards. */
  function ProfilesForRun(s: SystemState, env: Collaborators): (r: map<string, CustomerProfile>)
    ensures |s.profiles| > 0 ==> r == s.profiles
    ensures |s.profiles| == 0 ==> r == LoadCustomerProfiles(env.sql) && r.Keys == SampleProfiles().Keys
    ensures |r| > 0
    ensures KeyedById(s.profiles) ==> KeyedById(r)
  {
    if |s.profiles| == 0 then LoadCustomerProfiles(env.sql) else s.profiles
  }

  /** Build the report from a finished orchestration. */
  function BuildReport(p: CustomerProfile, customerId: string, query: string, env: Collaborators,
                       output: string, messages: seq<AgentMessage>): (rep: Report)
    ensures rep.customerId == customerId && rep.query == query && rep.reportId == env.reportId
    ensures rep.riskScore == RiskScore(p, env.today) && 20 <= rep.riskScore <= 980
    ensures rep.riskTier == Tier(ScoreValue(rep.riskScore))
    ensures |rep.findings| >= 2 && rep.findings[0] == AnalysisCompleted(p.customerId, |rep.contributions|)
    ensures |rep.recommendations| >= 2
    ensures rep.metrics.policiesReferenced == |rep.policyReferences| <= rep.metrics.searchResultsAnalyzed
    ensures rep.metrics.agentsUsed == |AgentNames|
    ensures forall n :: n in rep.contributions <==> exists i | 0 <= i < |messages| :: messages[i].name == n
  {
    var contributions := Contributions(messages);
    var score := RiskScore(p, env.today);
    var refs := PolicyReferences(env.searchResults);
    Report(
      env.reportId, customerId, query, output,
      GenerateFindings(p, env.searchResults, |contributions|),
      Tier(ScoreValue(score)), score,
      GenerateRecommendations(p, ScoreValue(score)),
      [MultiAgentAnalysisCompleted, PolicyComplianceVerified, EnterpriseRiskAssessed,
       PolicyDocumentsAnalyzed(|env.searchResults|), AgentsContributed(|contributions|)],
      refs, contributions,
      ProcessingMetrics(env.elapsedCentiseconds, |AgentNames|, |refs|, |env.searchResults|, score))
  }

  /**
   * One analysis request. Every run is counted and logged exactly once; a
   * report comes back exactly when the stages finished, and only then is the
   * run counted as successful.
   */
  function RunAnalysis(s: SystemState, customerId: string, query: string, env: Collaborators)
    : (out: (SystemState, Result<Report, RunError>))
    ensures out.0.profiles == ProfilesForRun(s, env)
    ensures ValidState(s) ==> ValidState(out.0)
    ensures out.0.metrics.totalRequests == s.metrics.totalRequests + 1
    ensures out.0.metrics.successfulAnalyses == s.metrics.successfulAnalyses + (if out.1.Success? then 1 else 0)
    ensures |out.0.interactions| == |s.interactions| + 1
    ensures out.0.interactions[..|s.interactions|] == s.interactions
    ensures var p := ResolveProfile(out.0.profiles, customerId);
            out.1.Success? <==> env.orchestrate(AssembleContext(p, env.searchResults, query, env.policySummary)).Finished?
    ensures out.1.Failure? ==>
              out.0.interactions[|s.interactions|] == FailureRecorded(customerId, ErrorText(out.1.error))
    ensures out.1.Success? ==>
              && out.1.value.customerId == customerId
              && |out.1.value.findings| >= 2 && |out.1.value.recommendations| >= 2
              && 20 <= out.1.value.riskScore <= 980
              && out.1.value.riskTier == Tier(ScoreValue(out.1.value.riskScore))
              && out.1.value.riskScore == RiskScore(ResolveProfile(out.0.profiles, customerId), env.today)
              && out.0.interactions[|s.interactions|]
                 == AnalysisRecorded(customerId, query, out.1.value.reportId, out.1.value.riskScore)
    ensures out.1.Success? && ValidState(s) ==>
              out.1.value.findings[0] == AnalysisCompleted(customerId, |out.1.value.contributions|)
  {
    var counted := s.metrics.(totalRequests := s.metrics.totalRequests + 1);
    var profiles := ProfilesForRun(s, env);
    var p := ResolveProfile(profiles, customerId);
    var context := AssembleContext(p, env.searchResults, query, env.policySummary);
    match env.orchestrate(context)
    case Raised(reason) =>
      (SystemState(profiles, counted, s.interactions + [FailureRecorded(customerId, reason)]), Failure(StageError(reason)))
    case TimedOut =>
      (SystemState(profiles, counted, s.interactions + [FailureRecorded(customerId, ErrorText(Timeout))]), Failure(Timeout))
    case Finished(output, messages) =>
      var report := BuildReport(p, customerId, query, env, output, messages);
      var succeeded := counted.(successfulAnalyses := counted.successfulAnalyses + 1);
      var logged := s.interactions + [AnalysisRecorded(customerId, query, report.reportId, report.riskScore)];
      (SystemState(profiles, succeeded, logged), Success(report))
  }

  /** One request to the system: a customer, a query and what the outside world does during the run. */
  datatype Request = Request(customerId: string, query: string, env: Collaborators)

  /** The state after serving the requests in order. */
  function ServeAll(s: SystemState, requests: seq<Request>): SystemState
    decreases |requests|
  {
    if |requests| == 0 then s
    else
      var r := requests[0];
      ServeAll(RunAnalysis(s, r.customerId, r.query, r.env).0, requests[1..])
  }

  /**
   * Over any sequence of requests, every request is counted and logged once,
   * earlier log entries are never changed, and successes never outnumber requests.
   */
  lemma {:induction false} ServeAllCountsEveryRequest(s: SystemState, requests: seq<Request>)
    requires ValidState(s)
    ensures ValidState(ServeAll(s, requests))
    ensures ServeAll(s, requests).metrics.totalRequests == s.metrics.totalRequests + |requests|
    ensures |ServeAll(s, requests).interactions| == |s.interactions| + |requests|
    ensures ServeAll(s, requests).interactions[..|s.interactions|] == s.interactions
    decreases |requests|
  {
    if |requests| > 0 {
      var r := requests[0];
      var next := RunAnalysis(s, r.customerId, r.query, r.env).0;
      ServeAllCountsEveryRequest(next, requests[1..]);
      var final := ServeAll(next, requests[1..]);
      assert final.interactions[..|s.interactions|] == final.interactions[..|next.interactions|][..|s.interactions|];
    }
  }

  /** Starting from an empty system, after n requests exactly n are counted and logged. */
  lemma FromStartup(requests: seq<Request>)
    ensures ServeAll(InitialState, requests).metrics.totalRequests == |requests|
    ensures |ServeAll(InitialState, requests).interactions| == |requests|
    ensures ServeAll(InitialState, requests).metrics.successfulAnalyses <= |requests|
  {
    ServeAllCountsEveryRequest(InitialState, requests);
  }
}
