// Where a complete run of the workflow ends, field by field, in terms of what the data service
// and the model answered. Nothing here is used by the workflow itself.
module RunOutcomes {
  import opened Wrappers
  import opened SortedKeys
  import opened Events
  import opened RiskModels
  import opened RiskEngine
  import opened Investigation
  import opened InvestigationRuns

  // The first load that fails, with the message it leaves.
  function LoadFailure(env: Environment): Option<(string, string)> {
    if env.supplier.Err? then Some((env.supplier.error, "Supplier retrieval failed"))
    else if env.risk.Err? then Some((env.risk.error, "Current risk retrieval failed"))
    else if env.historyLimit < 1 || env.historyLimit > 100 then Some(("ValidationError", "Risk history retrieval failed"))
    else if env.history.Err? then Some((env.history.error, "Risk history retrieval failed"))
    else if |env.risk.value.evidenceKeys| > 50 then Some(("ValidationError", "Risk evidence retrieval failed"))
    else if env.evidence.Err? then Some((env.evidence.error, "Risk evidence retrieval failed"))
    else None
  }

  // What the analysis step raises, with the provider's details.
  function AnalysisFailure(env: Environment): Option<(string, Option<ProviderFailure>)> {
    if env.contextError.Some? then Some((env.contextError.value, None))
    else
      match env.model
      case ModelRaises(code, provider) => Some((code, provider))
      case Returns(_) => None
  }

  ghost predicate CitationsLoaded(findings: seq<Finding>, evidence: seq<CanonicalEvent>) {
    forall f, k | f in findings && k in f.evidenceKeys :: exists e :: e in evidence && e.deduplicationKey == k
  }

  // What the gate objects to.
  ghost function GateObjections(supplierId: string, risk: Assessment, analysis: Analysis, evidence: seq<CanonicalEvent>): seq<FailureCode> {
    (if risk.supplierId == supplierId then [] else [SupplierMismatch])
    + (if CitationsLoaded(analysis.findings, evidence) then [] else [UnknownEvidence])
  }

  // The state holds exactly what was read before the first failing load.
  predicate HoldsLoads(s: State, env: Environment) {
    && s.supplierProfile == (if env.supplier.Ok? then Some(env.supplier.value) else None)
    && s.currentRisk == (if env.supplier.Ok? && env.risk.Ok? then Some(env.risk.value) else None)
    && s.evidenceKeys == (if env.supplier.Ok? && env.risk.Ok? then env.risk.value.evidenceKeys else [])
    && s.riskHistory == (
         if env.supplier.Ok? && env.risk.Ok? && 1 <= env.historyLimit <= 100 && env.history.Ok? then env.history.value else [])
    && s.evidence == (if LoadFailure(env).None? && env.evidence.Ok? then env.evidence.value else [])
  }

  predicate FailedWith(s: State, code: string, message: string, provider: Option<ProviderFailure>) {
    && s.status.Failed? && s.report.None? && s.reviewStatus.NotRequested? && s.review.None?
    && s.errorCode == Some(code) && s.errorMessage == Some(message) && s.providerFailure == provider
  }

  predicate SameRequest(s: State, d: State) {
    && d.investigationId == s.investigationId && d.threadId == s.threadId
    && d.supplierId == s.supplierId && d.question == s.question
    && d.createdAt == s.createdAt && d.updatedAt == s.updatedAt
  }

  predicate CopiesRisk(r: Report, risk: Assessment) {
    && r.supplierId == risk.supplierId
    && r.riskScore == risk.riskScore && r.riskLevel == risk.riskLevel && r.riskModelVersion == risk.modelVersion
    && r.structuralScore == risk.structuralScore && r.weatherScore == risk.weatherScore
    && r.seismicScore == risk.seismicScore && r.dominantFactor == risk.dominantFactor
    && r.factorScores.criticality == risk.breakdown.criticality
    && r.factorScores.dependency == risk.breakdown.dependency
    && r.factorScores.singleSource == risk.breakdown.singleSource
    && r.factorScores.leadTime == risk.breakdown.leadTime
  }

  predicate CopiesAnalysis(r: Report, a: Analysis) {
    && r.executiveSummary == a.executiveSummary && r.keyDrivers == a.keyDrivers && r.findings == a.findings
    && r.uncertainties == a.uncertainties && r.recommendations == a.recommendations
  }

  // The keys used are the keys of the evidence, sorted, each once.
  ghost predicate ListsEvidence(r: Report, evidence: seq<CanonicalEvent>) {
    && (forall i, j | 0 <= i < j < |r.evidenceKeysUsed| :: r.evidenceKeysUsed[i] < r.evidenceKeysUsed[j])
    && (forall k :: k in r.evidenceKeysUsed <==> exists e :: e in evidence && e.deduplicationKey == k)
  }

  // A completed state waiting for its reviewer.
  ghost predicate WaitsWith(s: State, env: Environment, risk: Assessment, analysis: Analysis, evidence: seq<CanonicalEvent>) {
    && s.status.Completed? && s.errorCode.None? && s.errorMessage.None? && s.providerFailure.None?
    && s.report.Some? && CopiesRisk(s.report.value, risk) && CopiesAnalysis(s.report.value, analysis)
    && ListsEvidence(s.report.value, evidence)
    && s.report.value.investigationId == s.investigationId
    && s.report.value.generatedAt == (if env.now.Some? then env.now.value else s.updatedAt)
    && s.validation == Some(ValidationResult(true, []))
    && s.reviewStatus.Pending? && s.review == Some(ReviewRecord(env.reviewId, Pending, None, None, None))
  }

  // ---------- The loads ----------

  // A state on its way, before the analysis.
  predicate Unanswered(s: State) {
    && s.status.Created? && s.errorCode.None? && s.errorMessage.None? && s.providerFailure.None?
    && s.report.None? && s.validation.None? && s.reviewStatus.NotRequested? && s.review.None?
  }

  lemma LoadsEnd(s: State, env: Environment)
    requires Unanswered(s) && s.supplierProfile.None? && s.currentRisk.None? && s.evidenceKeys == []
    requires s.riskHistory == [] && s.evidence == []
    ensures
      var d := LoadEvidence(LoadHistory(LoadRisk(LoadSupplier(s, env), env), env), env);
      && SameRequest(s, d) && HoldsLoads(d, env) && d.validation.None?
      && match LoadFailure(env)
         case None => Unanswered(d)
         case Some((code, message)) => FailedWith(d, code, message, None)
  {
  }

  lemma LoadedThread(t: Thread, env: Environment) returns (loaded: Thread)
    requires Starting(t)
    ensures Execute(t, env, NotResumed, 10) == Execute(loaded, env, NotResumed, 5)
    ensures loaded.graph.Full? && loaded.next == 5 && SameRequest(t.state, loaded.state)
    ensures HoldsLoads(loaded.state, env) && loaded.state.validation.None?
    ensures
      match LoadFailure(env)
      case None => Unanswered(loaded.state)
      case Some((code, message)) => FailedWith(loaded.state, code, message, None)
  {
    var t1 := Node(t, env, NotResumed);
    ExecuteAhead(t, env, NotResumed, 10);
    var t2 := Node(t1, env, NotResumed);
    ExecuteAhead(t1, env, NotResumed, 9);
    var t3 := Node(t2, env, NotResumed);
    ExecuteAhead(t2, env, NotResumed, 8);
    var t4 := Node(t3, env, NotResumed);
    ExecuteAhead(t3, env, NotResumed, 7);
    loaded := Node(t4, env, NotResumed);
    ExecuteAhead(t4, env, NotResumed, 6);
    assert loaded.state == LoadEvidence(LoadHistory(LoadRisk(LoadSupplier(t1.state, env), env), env), env);
    LoadsEnd(t1.state, env);
  }

  // ---------- Analysis, completion and gate ----------

  predicate SameLoads(s: State, d: State) {
    && d.supplierProfile == s.supplierProfile && d.currentRisk == s.currentRisk && d.evidenceKeys == s.evidenceKeys
    && d.riskHistory == s.riskHistory && d.evidence == s.evidence
  }

  // The report that a returned analysis gives.
  lemma AnalysisReports(s: State, env: Environment)
    requires Unanswered(s) && s.supplierProfile.Some? && s.currentRisk.Some? && AnalysisFailure(env).None?
    ensures
      var d := Analyze(s, env);
      && d.report.Some? && d == s.(report := d.report)
      && CopiesRisk(d.report.value, s.currentRisk.value) && CopiesAnalysis(d.report.value, env.model.analysis)
      && d.report.value.evidenceKeysUsed == Sorted(KeysOf(s.evidence))
      && d.report.value.investigationId == s.investigationId
      && d.report.value.generatedAt == (if env.now.Some? then env.now.value else s.updatedAt)
  {
  }

  lemma AnalysisFails(s: State, env: Environment)
    requires Unanswered(s) && s.supplierProfile.Some? && s.currentRisk.Some? && AnalysisFailure(env).Some?
    ensures
      var d := Analyze(s, env);
      && SameRequest(s, d) && SameLoads(s, d) && d.validation.None?
      && FailedWith(d, AnalysisFailure(env).value.0, "Investigation analysis failed", AnalysisFailure(env).value.1)
  {
  }

  lemma CompletionEnds(s: State)
    requires s.status.Created? && s.report.Some?
    ensures Finalize(s) == s.(status := Completed, errorCode := None, errorMessage := None)
  {
  }

  lemma AnalysisEnds(s: State, env: Environment)
    requires Unanswered(s) && s.supplierProfile.Some? && s.currentRisk.Some?
    ensures
      var d := Finalize(Analyze(s, env));
      && SameRequest(s, d) && SameLoads(s, d) && d.validation.None?
      && d.reviewStatus.NotRequested? && d.review.None?
      && match AnalysisFailure(env)
         case Some((code, provider)) => FailedWith(d, code, "Investigation analysis failed", provider)
         case None =>
           && d.status.Completed? && d.errorCode.None? && d.errorMessage.None? && d.providerFailure.None?
           && d.report.Some? && CopiesRisk(d.report.value, s.currentRisk.value)
           && CopiesAnalysis(d.report.value, env.model.analysis)
           && d.report.value.evidenceKeysUsed == Sorted(KeysOf(s.evidence))
           && d.report.value.investigationId == s.investigationId
           && d.report.value.generatedAt == (if env.now.Some? then env.now.value else s.updatedAt)
  {
    var d := Analyze(s, env);
    if AnalysisFailure(env).None? {
      AnalysisReports(s, env);
      CompletionEnds(d);
    } else {
      AnalysisFails(s, env);
      assert Finalize(d) == d;
    }
  }

  lemma SortedLists(r: Report, evidence: seq<CanonicalEvent>)
    requires r.evidenceKeysUsed == Sorted(KeysOf(evidence))
    ensures ListsEvidence(r, evidence)
  {
    forall k ensures k in r.evidenceKeysUsed <==> exists e :: e in evidence && e.deduplicationKey == k {
      assert k in r.evidenceKeysUsed <==> k in Elements(r.evidenceKeysUsed);
    }
  }

  // Which codes six checks in a row leave behind.
  lemma CodesOfChecks(supplier: bool, investigation: bool, thread: bool, risk: bool, evidence: bool, sections: bool)
    ensures
      var codes :=
        Check(supplier, SupplierMismatch) + Check(investigation, InvestigationMismatch) + Check(thread, ThreadMismatch)
        + Check(risk, RiskMismatch) + Check(evidence, UnknownEvidence) + Check(sections, InvalidReport);
      && (SupplierMismatch in codes <==> !supplier) && (InvestigationMismatch in codes <==> !investigation)
      && (ThreadMismatch in codes <==> !thread) && (RiskMismatch in codes <==> !risk)
      && (UnknownEvidence in codes <==> !evidence) && (InvalidReport in codes <==> !sections)
  {
  }

  // Each objection of the gate, over any report, risk and evidence whatever.
  lemma GateObjectsIff(r: Report, risk: Assessment, evidence: seq<CanonicalEvent>, supplierId: string,
                       investigationId: Id, threadId: Id, expectedThreadId: Option<Id>)
    ensures
      var v := Validate(r, risk, evidence, supplierId, investigationId, threadId, expectedThreadId);
      && (v.passed <==> v.failureCodes == [])
      && (SupplierMismatch in v.failureCodes <==> r.supplierId != supplierId || risk.supplierId != supplierId)
      && (InvestigationMismatch in v.failureCodes <==> r.investigationId != investigationId)
      && (ThreadMismatch in v.failureCodes <==> expectedThreadId.Some? && expectedThreadId.value != threadId)
      && (RiskMismatch in v.failureCodes <==> !CopiesRisk(r.(supplierId := risk.supplierId), risk))
      && (UnknownEvidence in v.failureCodes <==> !CitationsLoaded(r.findings, evidence))
      && (InvalidReport in v.failureCodes <==>
            r.executiveSummary == "" || r.keyDrivers == [] || r.uncertainties == [] || r.recommendations == [])
  {
    CitedAreLoadedIff(r, evidence);
    CodesOfChecks(
      r.supplierId == supplierId == risk.supplierId, r.investigationId == investigationId,
      expectedThreadId.None? || threadId == expectedThreadId.value, RiskFieldsMatch(r, risk),
      CitedKeys(r) <= KeysOf(evidence), SectionsPresent(r));
    assert RiskFieldsMatch(r, risk) <==> CopiesRisk(r.(supplierId := risk.supplierId), risk);
  }

  lemma CitedAreLoadedIff(r: Report, evidence: seq<CanonicalEvent>)
    ensures CitedKeys(r) <= KeysOf(evidence) <==> CitationsLoaded(r.findings, evidence)
  {
    if CitedKeys(r) <= KeysOf(evidence) {
      forall f, k | f in r.findings && k in f.evidenceKeys
        ensures exists e :: e in evidence && e.deduplicationKey == k
      {
        assert k in CitedKeys(r);
      }
    }
  }

  // Over a report built from this risk and analysis the gate makes exactly these objections.
  lemma GateCodes(s: State, analysis: Analysis)
    requires s.report.Some? && s.currentRisk.Some? && CopiesRisk(s.report.value, s.currentRisk.value)
    requires CopiesAnalysis(s.report.value, analysis) && s.report.value.investigationId == s.investigationId
    ensures
      Validate(s.report.value, s.currentRisk.value, s.evidence, s.supplierId,
               s.investigationId, s.threadId, Some(s.threadId)).failureCodes
      == GateObjections(s.supplierId, s.currentRisk.value, analysis, s.evidence)
  {
    CitedAreLoadedIff(s.report.value, s.evidence);
    assert RiskFieldsMatch(s.report.value, s.currentRisk.value);
  }

  lemma GateEnds(s: State, env: Environment, analysis: Analysis)
    requires s.status.Completed? && s.report.Some? && s.currentRisk.Some? && s.reviewStatus.NotRequested?
    requires CopiesRisk(s.report.value, s.currentRisk.value) && CopiesAnalysis(s.report.value, analysis)
    requires s.report.value.investigationId == s.investigationId
    ensures
      var d := ValidateReport(s, env);
      var objections := GateObjections(s.supplierId, s.currentRisk.value, analysis, s.evidence);
      && SameRequest(s, d) && SameLoads(s, d)
      && if objections == [] then
           && d.status == s.status && d.report == s.report && d.errorCode == s.errorCode && d.errorMessage == s.errorMessage
           && d.providerFailure == s.providerFailure && d.validation == Some(ValidationResult(true, []))
           && d.reviewStatus.Pending? && d.review == Some(ReviewRecord(env.reviewId, Pending, None, None, None))
         else
           && FailedWith(d, "InvestigationReportValidationError", "Investigation report validation failed", None)
           && d.validation == Some(ValidationResult(false, objections))
  {
    GateCodes(s, analysis);
  }

  // ---------- The whole run ----------

  // The end of a run: what was read, and either the first failure or the report that waits.
  ghost predicate EndsAs(s: State, env: Environment) {
    && HoldsLoads(s, env)
    && match LoadFailure(env)
       case Some((code, message)) => FailedWith(s, code, message, None) && s.validation.None?
       case None =>
         match AnalysisFailure(env)
         case Some((code, provider)) =>
           FailedWith(s, code, "Investigation analysis failed", provider) && s.validation.None?
         case None =>
           if !(env.risk.Ok? && env.evidence.Ok? && env.model.Returns?) then false
           else
             var objections := GateObjections(s.supplierId, env.risk.value, env.model.analysis, env.evidence.value);
             if objections == [] then WaitsWith(s, env, env.risk.value, env.model.analysis, env.evidence.value)
             else
               && FailedWith(s, "InvestigationReportValidationError", "Investigation report validation failed", None)
               && s.validation == Some(ValidationResult(false, objections))
  }

  lemma GatedThread(loaded: Thread, env: Environment) returns (gated: Thread)
    requires loaded.graph.Full? && loaded.next == 5
    ensures Execute(loaded, env, NotResumed, 5) == Execute(gated, env, NotResumed, 2)
    ensures gated.graph.Full? && gated.next == 8
    ensures gated.state == ValidateReport(Finalize(Analyze(loaded.state, env)), env)
  {
    var analyzed := Node(loaded, env, NotResumed);
    ExecuteAhead(loaded, env, NotResumed, 5);
    var finalized := Node(analyzed, env, NotResumed);
    ExecuteAhead(analyzed, env, NotResumed, 4);
    gated := Node(finalized, env, NotResumed);
    ExecuteAhead(finalized, env, NotResumed, 3);
  }

  lemma GatedEnds(s: State, env: Environment)
    requires Unanswered(s) && LoadFailure(env).None? && HoldsLoads(s, env)
    ensures
      var d := ValidateReport(Finalize(Analyze(s, env)), env);
      SameRequest(s, d) && EndsAs(d, env) && (d.status.Failed? || AwaitsReviewer(d))
  {
    AnalysisEnds(s, env);
    var finalized := Finalize(Analyze(s, env));
    if AnalysisFailure(env).None? {
      GateEnds(finalized, env, env.model.analysis);
      SortedLists(finalized.report.value, s.evidence);
    }
  }

  // Every complete run ends so, having kept its request.
  lemma RunEndsAs(t: Thread, env: Environment)
    requires Starting(t)
    ensures
      var end := Execute(t, env, NotResumed, 10);
      EndsAs(end.state, env) && SameRequest(t.state, end.state)
  {
    var loaded := LoadedThread(t, env);
    if LoadFailure(env).Some? {
      FailureIsAbsorbing(loaded, env, NotResumed, 5);
    } else {
      var gated := GatedThread(loaded, env);
      GatedEnds(loaded.state, env);
      if gated.state.status.Failed? {
        FailureIsAbsorbing(gated, env, NotResumed, 2);
      } else {
        assert Execute(gated, env, NotResumed, 2) == gated;
      }
    }
  }

  // ---------- Nodes on states no run reaches ----------

  predicate FailsHere(s: State, d: State, code: string, message: string) {
    d == s.(status := Failed, report := None, errorCode := Some(code), errorMessage := Some(message), providerFailure := None)
  }

  // The guards that a run never needs: a report, profile, risk or validation result that is
  // missing fails the node that needs it.
  lemma MissingPiecesFail(s: State, env: Environment, resume: Resume)
    requires !s.status.Failed?
    ensures s.supplierProfile.None? || s.currentRisk.None? ==>
      FailsHere(s, Analyze(s, env), "ValueError", "Investigation analysis failed")
    ensures s.report.None? ==>
      && FailsHere(s, Finalize(s), "MissingReport", "Investigation report was not produced")
      && FailsHere(s, ValidateReport(s, env), "MissingReport", "Investigation report was not produced")
    ensures s.report.Some? && s.currentRisk.None? ==>
      FailsHere(s, ValidateReport(s, env), "ValueError", "Investigation report validation failed")
    ensures s.reviewStatus.Pending? && (s.report.None? || s.validation.None?) ==>
      FailsHere(s, ReviewResumed(s, env, resume), "MissingReviewContext", "Investigation review context was not produced")
  {
  }

  // A review node that is not decided either has nothing to review or fails, saying why.
  lemma UndecidedReviews(s: State, env: Environment, resume: Resume)
    ensures s.status.Failed? || !s.reviewStatus.Pending? ==> ReviewResumed(s, env, resume) == s
    ensures AwaitsReviewer(s) && !resume.Submitted? ==>
      FailsHere(s, ReviewResumed(s, env, resume), "ValidationError", "Human review submission failed validation")
    ensures
      AwaitsReviewer(s) && resume.Submitted?
      && (resume.request.investigationId != s.investigationId || resume.request.threadId != s.threadId) ==>
        FailsHere(s, ReviewResumed(s, env, resume), "HumanReviewIdentityMismatch",
                  "Human review identity did not match investigation state")
  {
  }

  // Initialising forgets everything but the request; preparing touches only the status, the
  // key list and the error fields.
  lemma FirstNodesReset(s: State)
    ensures
      var d := Initialize(s);
      && SameRequest(s, d) && Unanswered(d) && d.supplierProfile.None? && d.currentRisk.None?
      && d.evidenceKeys == [] && d.riskHistory == [] && d.evidence == []
    ensures
      var d := Prepare(s);
      && d == s.(status := d.status, evidenceKeys := d.evidenceKeys, errorCode := None, errorMessage := None, providerFailure := None)
      && d.status.Ready? && forall k :: k in d.evidenceKeys <==> k in s.evidenceKeys
  {
    SameKeys(s.evidenceKeys);
  }

  lemma {:induction false} SameKeys(ks: seq<Key>)
    ensures forall k :: k in FirstOccurrences(ks) <==> k in ks
  {
    if ks != [] {
      SameKeys(ks[..|ks| - 1]);
      assert ks == ks[..|ks| - 1] + [ks[|ks| - 1]];
    }
  }
}
