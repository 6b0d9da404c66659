// State and nodes of the investigation workflow (agent/graph.py, agent/models.py,
// agent/reports.py, agent/validation.py). The data service and the model are adversarial:
// their answers are inputs.
module Investigation {
  import opened Wrappers
  import opened SortedKeys
  import opened Events
  import opened RiskModels
  import opened RiskEngine

  type Id = nat

  datatype Status = Created | Ready | Completed | Failed

  datatype ReviewStatus = NotRequested | Pending | Approved | Rejected

  datatype Decision = Approve | Reject

  datatype FailureCode =
    | SupplierMismatch | InvestigationMismatch | ThreadMismatch | RiskMismatch | UnknownEvidence | InvalidReport

  datatype ValidationResult = ValidationResult(passed: bool, failureCodes: seq<FailureCode>)

  datatype Finding = Finding(text: string, evidenceKeys: seq<Key>)

  datatype AnalysisFields = AnalysisFields(
    executiveSummary: string, keyDrivers: seq<string>, findings: seq<Finding>,
    uncertainties: seq<string>, recommendations: seq<string>)

  // What the analysis contract lets through; anything else makes the model call raise.
  type Analysis = a: AnalysisFields |
    && a.executiveSummary != "" && 1 <= |a.keyDrivers| <= 6 && |a.findings| <= 8
    && 1 <= |a.uncertainties| <= 6 && 1 <= |a.recommendations| <= 6
    witness AnalysisFields("s", ["d"], [], ["u"], ["r"])

  datatype Report = Report(
    investigationId: Id, supplierId: string, generatedAt: Instant,
    riskScore: int, riskLevel: RiskLevel, riskModelVersion: string,
    structuralScore: int, weatherScore: int, seismicScore: int,
    dominantFactor: Factor, factorScores: Breakdown,
    executiveSummary: string, keyDrivers: seq<string>, findings: seq<Finding>,
    uncertainties: seq<string>, recommendations: seq<string>,
    evidenceKeysUsed: seq<Key>)

  datatype ReviewRecord = ReviewRecord(
    reviewId: Id, status: ReviewStatus, reviewerId: Option<string>, reviewedAt: Option<Instant>, reason: Option<string>)

  datatype RequestFields = RequestFields(
    investigationId: Id, threadId: Id, decision: Decision, reviewerId: string, reviewedAt: Instant, reason: Option<string>)

  // A rejection needs a reason.
  type ReviewRequest = r: RequestFields | r.decision.Reject? ==> r.reason.Some?
    witness RequestFields(0, 0, Approve, "r", 0, None)

  datatype ProviderFailure = ProviderFailure(category: string, exceptionClass: string, statusCode: Option<string>)

  datatype State = State(
    investigationId: Id, threadId: Id, supplierId: string, question: string,
    status: Status, createdAt: Instant, updatedAt: Instant,
    evidenceKeys: seq<Key>,
    supplierProfile: Option<Supplier>, currentRisk: Option<Assessment>,
    riskHistory: seq<Assessment>, evidence: seq<CanonicalEvent>,
    report: Option<Report>,
    errorCode: Option<string>, errorMessage: Option<string>, providerFailure: Option<ProviderFailure>,
    validation: Option<ValidationResult>,
    reviewStatus: ReviewStatus, review: Option<ReviewRecord>)

  datatype ModelOutcome = Returns(analysis: Analysis) | ModelRaises(code: string, provider: Option<ProviderFailure>)

  // Everything outside the workflow, chosen arbitrarily for each invocation.
  datatype Environment = Environment(
    supplier: Result<Supplier, string>, risk: Result<Assessment, string>,
    historyLimit: int, history: Result<seq<Assessment>, string>,
    evidence: Result<seq<CanonicalEvent>, string>,
    contextError: Option<string>, model: ModelOutcome,
    now: Option<Instant>, reviewId: Id)

  // The value an interrupted review node is resumed with.
  datatype Resume = NotResumed | Malformed | Submitted(request: ReviewRequest)

  const MAX_EVIDENCE_KEYS := 50
  const MAX_RISK_HISTORY := 100

  function FailedState(s: State, code: string, message: string, provider: Option<ProviderFailure>): State {
    s.(status := Failed, report := None, errorCode := Some(code), errorMessage := Some(message), providerFailure := provider)
  }

  // ---------- Nodes ----------

  function Initialize(s: State): State {
    s.(status := Created, evidenceKeys := [], supplierProfile := None, currentRisk := None, riskHistory := [],
       evidence := [], report := None, errorCode := None, errorMessage := None, providerFailure := None,
       validation := None, reviewStatus := NotRequested, review := None)
  }

  // dict.fromkeys: first occurrences, in order.
  function FirstOccurrences(ks: seq<Key>): seq<Key> {
    if ks == [] then []
    else
      var before := FirstOccurrences(ks[..|ks| - 1]);
      if ks[|ks| - 1] in before then before else before + [ks[|ks| - 1]]
  }

  function Prepare(s: State): State {
    s.(status := Ready, evidenceKeys := FirstOccurrences(s.evidenceKeys),
       errorCode := None, errorMessage := None, providerFailure := None)
  }

  function LoadSupplier(s: State, env: Environment): State {
    if s.status.Failed? then s
    else
      match env.supplier
      case Err(code) => FailedState(s, code, "Supplier retrieval failed", None)
      case Ok(supplier) => s.(supplierProfile := Some(supplier))
  }

  function LoadRisk(s: State, env: Environment): State {
    if s.status.Failed? then s
    else
      match env.risk
      case Err(code) => FailedState(s, code, "Current risk retrieval failed", None)
      case Ok(risk) => s.(currentRisk := Some(risk), evidenceKeys := risk.evidenceKeys)
  }

  function HistoryRead(env: Environment): Result<seq<Assessment>, string> {
    if 1 <= env.historyLimit <= MAX_RISK_HISTORY then env.history else Err("ValidationError")
  }

  function LoadHistory(s: State, env: Environment): State {
    if s.status.Failed? then s
    else
      match HistoryRead(env)
      case Err(code) => FailedState(s, code, "Risk history retrieval failed", None)
      case Ok(history) => s.(riskHistory := history)
  }

  function EvidenceRead(keys: seq<Key>, env: Environment): Result<seq<CanonicalEvent>, string> {
    if |keys| <= MAX_EVIDENCE_KEYS then env.evidence else Err("ValidationError")
  }

  function LoadEvidence(s: State, env: Environment): State {
    if s.status.Failed? then s
    else
      match EvidenceRead(s.evidenceKeys, env)
      case Err(code) => FailedState(s, code, "Risk evidence retrieval failed", None)
      case Ok(evidence) => s.(evidence := evidence)
  }

  function KeysOf(evidence: seq<CanonicalEvent>): set<Key> {
    set e | e in evidence :: e.deduplicationKey
  }

  function ReportFromAnalysis(s: State, risk: Assessment, analysis: Analysis, allowed: seq<Key>, generatedAt: Instant): Report {
    Report(
      s.investigationId, risk.supplierId, generatedAt,
      risk.riskScore, risk.riskLevel, risk.modelVersion,
      risk.structuralScore, risk.weatherScore, risk.seismicScore,
      risk.dominantFactor, risk.breakdown,
      analysis.executiveSummary, analysis.keyDrivers, analysis.findings,
      analysis.uncertainties, analysis.recommendations,
      allowed)
  }

  // The context is built, and so the model is reached.
  predicate CallsModel(s: State, env: Environment) {
    !s.status.Failed? && s.supplierProfile.Some? && s.currentRisk.Some? && env.contextError.None?
  }

  function Analyze(s: State, env: Environment): State {
    var message := "Investigation analysis failed";
    if s.status.Failed? then s
    else if s.supplierProfile.None? || s.currentRisk.None? then FailedState(s, "ValueError", message, None)
    else if env.contextError.Some? then FailedState(s, env.contextError.value, message, None)
    else
      match env.model
      case ModelRaises(code, provider) => FailedState(s, code, message, provider)
      case Returns(analysis) =>
        var allowed := Sorted(KeysOf(s.evidence));
        var generatedAt := if env.now.Some? then env.now.value else s.updatedAt;
        s.(report := Some(ReportFromAnalysis(s, s.currentRisk.value, analysis, allowed, generatedAt)))
  }

  function Finalize(s: State): State {
    if s.status.Failed? then s
    else if s.report.None? then FailedState(s, "MissingReport", "Investigation report was not produced", None)
    else s.(status := Completed, errorCode := None, errorMessage := None)
  }

  // ---------- The validation gate ----------

  function CitedKeys(r: Report): set<Key> {
    set f, k | f in r.findings && k in f.evidenceKeys :: k
  }

  predicate RiskFieldsMatch(r: Report, risk: Assessment) {
    && r.riskScore == risk.riskScore && r.riskLevel == risk.riskLevel && r.riskModelVersion == risk.modelVersion
    && r.structuralScore == risk.structuralScore && r.weatherScore == risk.weatherScore
    && r.seismicScore == risk.seismicScore && r.dominantFactor == risk.dominantFactor
    && r.factorScores == risk.breakdown
  }

  predicate SectionsPresent(r: Report) {
    r.executiveSummary != "" && r.keyDrivers != [] && r.uncertainties != [] && r.recommendations != []
  }

  function Check(passed: bool, code: FailureCode): seq<FailureCode> {
    if passed then [] else [code]
  }

  function Validate(r: Report, risk: Assessment, evidence: seq<CanonicalEvent>, supplierId: string,
                    investigationId: Id, threadId: Id, expectedThreadId: Option<Id>): ValidationResult
  {
    var codes :=
      Check(r.supplierId == supplierId == risk.supplierId, SupplierMismatch)
      + Check(r.investigationId == investigationId, InvestigationMismatch)
      + Check(expectedThreadId.None? || threadId == expectedThreadId.value, ThreadMismatch)
      + Check(RiskFieldsMatch(r, risk), RiskMismatch)
      + Check(CitedKeys(r) <= KeysOf(evidence), UnknownEvidence)
      + Check(SectionsPresent(r), InvalidReport);
    ValidationResult(codes == [], codes)
  }

  function PendingReview(reviewId: Id): ReviewRecord {
    ReviewRecord(reviewId, Pending, None, None, None)
  }

  function ValidateReport(s: State, env: Environment): State {
    var message := "Investigation report validation failed";
    if s.status.Failed? then s
    else if s.report.None? then FailedState(s, "MissingReport", "Investigation report was not produced", None)
    else if s.currentRisk.None? then FailedState(s, "ValueError", message, None)
    else
      var validation := Validate(s.report.value, s.currentRisk.value, s.evidence, s.supplierId,
                                 s.investigationId, s.threadId, Some(s.threadId));
      if !validation.passed then
        FailedState(s, "InvestigationReportValidationError", message, None)
          .(validation := Some(validation), reviewStatus := NotRequested, review := None)
      else
        s.(validation := Some(validation), reviewStatus := Pending, review := Some(PendingReview(env.reviewId)))
  }

  // ---------- Human review ----------

  function FinalStatus(d: Decision): ReviewStatus {
    if d.Approve? then Approved else Rejected
  }

  function RecordOf(r: ReviewRequest, reviewId: Id): ReviewRecord {
    ReviewRecord(reviewId, FinalStatus(r.decision), Some(r.reviewerId), Some(r.reviewedAt), r.reason)
  }

  predicate AwaitsReviewer(s: State) {
    !s.status.Failed? && s.reviewStatus.Pending? && s.report.Some? && s.validation.Some?
  }

  function Reviewed(s: State, record: ReviewRecord): State {
    s.(reviewStatus := record.status, review := Some(record), errorCode := None, errorMessage := None)
  }

  // Applying a well-formed submission.
  function ApplyReview(s: State, r: ReviewRequest, reviewId: Id): State {
    if r.investigationId != s.investigationId || r.threadId != s.threadId then
      FailedState(s, "HumanReviewIdentityMismatch", "Human review identity did not match investigation state", None)
    else Reviewed(s, RecordOf(r, reviewId))
  }

  // The node after its interrupt returned the resume value.
  function ReviewResumed(s: State, env: Environment, resume: Resume): State {
    if s.status.Failed? || !s.reviewStatus.Pending? then s
    else if s.report.None? || s.validation.None? then
      FailedState(s, "MissingReviewContext", "Investigation review context was not produced", None)
    else if resume.Submitted? then ApplyReview(s, resume.request, env.reviewId)
    else FailedState(s, "ValidationError", "Human review submission failed validation", None)
  }
}
