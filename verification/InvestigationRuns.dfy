// Executions of the workflow graph: a chain of nodes, checkpointed after each one, suspended
// by the review interrupt, possibly cut short by a crash, possibly resumed with anything.
module InvestigationRuns {
  import opened Wrappers
  import opened SortedKeys
  import opened Events
  import opened Investigation

  datatype Graph = Bare | Full

  // A checkpointed thread: the stored state, the number of nodes completed, and (history) the
  // number of model calls made.
  datatype Thread = Thread(state: State, graph: Graph, next: nat, modelCalls: nat)

  function Length(g: Graph): nat {
    if g.Bare? then 2 else 10
  }

  function RunNode(t: Thread, env: Environment, resume: Resume): State {
    match t.graph
    case Bare => if t.next == 0 then Initialize(t.state) else Prepare(t.state)
    case Full =>
      match t.next
      case 0 => Initialize(t.state)
      case 1 => LoadSupplier(t.state, env)
      case 2 => LoadRisk(t.state, env)
      case 3 => LoadHistory(t.state, env)
      case 4 => LoadEvidence(t.state, env)
      case 5 => Analyze(t.state, env)
      case 6 => Finalize(t.state)
      case 7 => ValidateReport(t.state, env)
      case 8 => ReviewResumed(t.state, env, resume)
      case _ => t.state
  }

  // The review node interrupts unless this invocation resumes it.
  predicate Suspended(t: Thread, resume: Resume) {
    t.graph.Full? && t.next == 8 && AwaitsReviewer(t.state) && resume.NotResumed?
  }

  function Node(t: Thread, env: Environment, resume: Resume): Thread {
    var calls := if t.graph.Full? && t.next == 5 && CallsModel(t.state, env) then 1 else 0;
    Thread(RunNode(t, env, resume), t.graph, t.next + 1, t.modelCalls + calls)
  }

  // Run up to the given number of nodes; a crash is a smaller number.
  function Execute(t: Thread, env: Environment, resume: Resume, nodes: nat): Thread
    decreases nodes
  {
    if nodes == 0 || t.next >= Length(t.graph) || Suspended(t, resume) then t
    else Execute(Node(t, env, resume), env, resume, nodes - 1)
  }

  // ---------- What holds after every node ----------

  // The report repeats the loaded risk and lists exactly the loaded evidence keys.
  predicate Grounded(s: State) {
    && s.report.Some? && s.currentRisk.Some?
    && RiskFieldsMatch(s.report.value, s.currentRisk.value)
    && s.report.value.supplierId == s.currentRisk.value.supplierId
    && s.report.value.investigationId == s.investigationId
    && s.report.value.evidenceKeysUsed == Sorted(KeysOf(s.evidence))
    && SectionsPresent(s.report.value)
  }

  // What the gate adds to a grounded report.
  predicate Vetted(s: State) {
    && Grounded(s)
    && s.report.value.supplierId == s.supplierId
    && CitedKeys(s.report.value) <= KeysOf(s.evidence)
    && s.validation == Some(ValidationResult(true, []))
  }

  predicate FinalReview(s: State) {
    && s.reviewStatus in {Approved, Rejected} && s.review.Some? && s.review.value.status == s.reviewStatus
    && s.review.value.reviewerId.Some? && s.review.value.reviewedAt.Some?
    && (s.reviewStatus.Rejected? ==> s.review.value.reason.Some?)
  }

  predicate FailedOk(s: State) {
    s.report.None? && s.reviewStatus in {NotRequested, Pending}
  }

  // A thread that has not failed is exactly as far as its completed nodes say.
  predicate LiveOk(t: Thread) {
    var s := t.state;
    && s.status == (if t.next >= 7 then Completed else Created)
    && s.errorCode.None? && s.errorMessage.None?
    && (t.next >= 2 ==> s.supplierProfile.Some?)
    && (t.next >= 3 ==> s.currentRisk.Some? && s.evidenceKeys == s.currentRisk.value.evidenceKeys)
    && (t.next >= 6 ==> Grounded(s) && t.modelCalls == 1)
    && (t.next < 6 ==> t.modelCalls == 0)
    && (t.next < 8 ==> s.reviewStatus.NotRequested? && s.validation.None?)
    && (t.next >= 8 ==> Vetted(s))
    && (t.next == 8 ==> s.reviewStatus.Pending?)
    && (t.next >= 9 ==> FinalReview(s))
  }

  predicate CodesOk(s: State) {
    s.validation.Some? ==> forall c | c in s.validation.value.failureCodes :: c in {SupplierMismatch, UnknownEvidence}
  }

  predicate Inv(t: Thread) {
    && t.graph.Full? && t.next <= 10 && t.modelCalls <= 1
    && CodesOk(t.state)
    && if t.state.status.Failed? then t.next >= 2 && FailedOk(t.state) else LiveOk(t)
  }

  lemma GroundedAnalysis(s: State, env: Environment)
    requires !s.status.Failed? && CallsModel(s, env) && env.model.Returns?
    ensures Grounded(Analyze(s, env))
  {
  }

  // Over a grounded report the gate can only fail on the supplier or on a citation.
  lemma GateOutcome(s: State)
    requires Grounded(s)
    ensures
      var v := Validate(s.report.value, s.currentRisk.value, s.evidence, s.supplierId,
                        s.investigationId, s.threadId, Some(s.threadId));
      v.failureCodes ==
        Check(s.report.value.supplierId == s.supplierId, SupplierMismatch)
        + Check(CitedKeys(s.report.value) <= KeysOf(s.evidence), UnknownEvidence)
  {
  }

  lemma ValidateKeepsInv(t: Thread, env: Environment)
    requires Inv(t) && t.next == 7
    ensures Inv(t.(state := ValidateReport(t.state, env), next := 8))
  {
    if !t.state.status.Failed? {
      GateOutcome(t.state);
    }
  }

  lemma LoadKeepsInv(t: Thread, env: Environment, resume: Resume)
    requires Inv(t) && t.next <= 4
    ensures Inv(Node(t, env, resume))
  {
  }

  lemma ReportKeepsInv(t: Thread, env: Environment, resume: Resume)
    requires Inv(t) && 5 <= t.next <= 6
    ensures Inv(Node(t, env, resume))
  {
    if t.next == 5 && CallsModel(t.state, env) && env.model.Returns? {
      GroundedAnalysis(t.state, env);
    }
  }

  // Being vetted does not depend on the review or on the error fields.
  lemma VettedSurvivesReview(s: State, record: ReviewRecord)
    requires Vetted(s)
    ensures Vetted(Reviewed(s, record))
  {
  }

  // A waiting review is decided exactly by a well-formed submission for this thread and
  // this investigation; any other resume value fails the investigation.
  lemma ReviewDecidedIff(s: State, env: Environment, resume: Resume)
    requires AwaitsReviewer(s)
    ensures
      var d := ReviewResumed(s, env, resume);
      if resume.Submitted? && resume.request.investigationId == s.investigationId && resume.request.threadId == s.threadId
      then d == Reviewed(s, RecordOf(resume.request, env.reviewId))
      else d.status.Failed? && d.report.None? && d.reviewStatus.Pending? && d.validation == s.validation
  {
    if resume.Submitted? {
      assert ReviewResumed(s, env, resume) == ApplyReview(s, resume.request, env.reviewId);
    }
  }

  lemma ReviewKeepsInv(t: Thread, env: Environment, resume: Resume)
    requires Inv(t) && 8 <= t.next < 10
    ensures Inv(Node(t, env, resume))
  {
    if t.next == 8 && !t.state.status.Failed? {
      ReviewDecidedIff(t.state, env, resume);
      if resume.Submitted? {
        VettedSurvivesReview(t.state, RecordOf(resume.request, env.reviewId));
      }
    }
  }

  lemma NodeKeepsInv(t: Thread, env: Environment, resume: Resume)
    requires Inv(t) && t.next < 10
    ensures Inv(Node(t, env, resume))
  {
    if t.next <= 4 {
      LoadKeepsInv(t, env, resume);
    } else if t.next <= 6 {
      ReportKeepsInv(t, env, resume);
    } else if t.next == 7 {
      ValidateKeepsInv(t, env);
    } else {
      ReviewKeepsInv(t, env, resume);
    }
  }

  lemma {:induction false} ExecuteKeepsInv(t: Thread, env: Environment, resume: Resume, nodes: nat)
    requires Inv(t)
    ensures Inv(Execute(t, env, resume, nodes))
    decreases nodes
  {
    if !(nodes == 0 || t.next >= 10 || Suspended(t, resume)) {
      NodeKeepsInv(t, env, resume);
      ExecuteKeepsInv(Node(t, env, resume), env, resume, nodes - 1);
    }
  }

  // A thread as run_investigation starts it.
  function Fresh(investigationId: Id, threadId: Id, supplierId: string, question: string, at: Instant): State {
    State(investigationId, threadId, supplierId, question, Created, at, at, [], None, None, [], [], None,
          None, None, None, None, NotRequested, None)
  }

  predicate Starting(t: Thread) {
    && t.graph.Full? && t.next == 0 && t.modelCalls == 0
    && t.state == Fresh(t.state.investigationId, t.state.threadId, t.state.supplierId, t.state.question, t.state.createdAt)
  }

  // ---------- Failure ----------

  // No node, and no resume value, changes a failed state.
  lemma {:induction false} FailureIsAbsorbing(t: Thread, env: Environment, resume: Resume, nodes: nat)
    requires t.graph.Full? && t.next > 0 && t.state.status.Failed?
    ensures Execute(t, env, resume, nodes).state == t.state
    ensures Execute(t, env, resume, nodes).modelCalls == t.modelCalls
    decreases nodes
  {
    if !(nodes == 0 || t.next >= 10 || Suspended(t, resume)) {
      FailureIsAbsorbing(Node(t, env, resume), env, resume, nodes - 1);
    }
  }

  // In every execution, cut short or resumed with anything, a failed state has no report and
  // no final review, and only supplier or citation failures are ever recorded.
  lemma EveryExecutionIsSafe(t: Thread, env: Environment, resume: Resume, nodes: nat)
    requires Inv(t)
    ensures
      var s := Execute(t, env, resume, nodes).state;
      && (s.status.Failed? ==> s.report.None? && s.reviewStatus in {NotRequested, Pending})
      && (s.reviewStatus.Pending? && !s.status.Failed? ==> s.status.Completed? && Vetted(s))
      && (s.reviewStatus in {Approved, Rejected} ==> s.status.Completed? && Vetted(s) && FinalReview(s))
      && (s.validation.Some? ==> forall c | c in s.validation.value.failureCodes :: c in {SupplierMismatch, UnknownEvidence})
  {
    ExecuteKeepsInv(t, env, resume, nodes);
  }

  // ---------- Where a complete run ends ----------

  predicate LoadsSucceed(env: Environment) {
    && env.supplier.Ok? && env.risk.Ok? && HistoryRead(env).Ok?
    && EvidenceRead(env.risk.value.evidenceKeys, env).Ok?
  }

  predicate AnalysisSucceeds(env: Environment) {
    env.contextError.None? && env.model.Returns?
  }

  ghost predicate CitesOnly(findings: seq<Finding>, known: set<Key>) {
    forall f, k | f in findings && k in f.evidenceKeys :: k in known
  }

  lemma CitedKeysAreKnownIff(r: Report, known: set<Key>)
    ensures CitedKeys(r) <= known <==> CitesOnly(r.findings, known)
  {
    if CitedKeys(r) <= known {
      forall f, k | f in r.findings && k in f.evidenceKeys ensures k in known {
        assert k in CitedKeys(r);
      }
    }
  }

  ghost predicate GatePasses(supplierId: string, env: Environment)
    requires LoadsSucceed(env) && AnalysisSucceeds(env)
  {
    env.risk.value.supplierId == supplierId && CitesOnly(env.model.analysis.findings, KeysOf(env.evidence.value))
  }

  // The thread after its first n nodes, when nothing interrupts.
  lemma {:induction false} ExecuteAhead(t: Thread, env: Environment, resume: Resume, nodes: nat)
    requires nodes > 0 && t.next < Length(t.graph) && !Suspended(t, resume)
    ensures Execute(t, env, resume, nodes) == Execute(Node(t, env, resume), env, resume, nodes - 1)
  {
  }

  lemma LoadPhase(t: Thread, env: Environment, nodes: nat) returns (loaded: Thread)
    requires Starting(t) && nodes >= 5
    ensures Execute(t, env, NotResumed, nodes) == Execute(loaded, env, NotResumed, nodes - 5)
    ensures loaded.graph.Full? && loaded.next == 5 && loaded.modelCalls == 0
    ensures loaded.state.status == if LoadsSucceed(env) then Created else Failed
    ensures LoadsSucceed(env) ==>
      loaded.state == t.state.(
        supplierProfile := Some(env.supplier.value), currentRisk := Some(env.risk.value),
        evidenceKeys := env.risk.value.evidenceKeys, riskHistory := env.history.value, evidence := env.evidence.value)
  {
    var t1 := Node(t, env, NotResumed);
    ExecuteAhead(t, env, NotResumed, nodes);
    var t2 := Node(t1, env, NotResumed);
    ExecuteAhead(t1, env, NotResumed, nodes - 1);
    var t3 := Node(t2, env, NotResumed);
    ExecuteAhead(t2, env, NotResumed, nodes - 2);
    var t4 := Node(t3, env, NotResumed);
    ExecuteAhead(t3, env, NotResumed, nodes - 3);
    loaded := Node(t4, env, NotResumed);
    ExecuteAhead(t4, env, NotResumed, nodes - 4);
  }

  // Only the analysis node calls the model.
  lemma {:induction false} NoCallElsewhere(t: Thread, env: Environment, resume: Resume, nodes: nat)
    requires t.next + nodes <= 5 || t.next >= 6
    ensures
      var end := Execute(t, env, resume, nodes);
      end.modelCalls == t.modelCalls && (if t.next >= 6 then end.next >= 6 else end.next <= t.next + nodes)
    decreases nodes
  {
    if !(nodes == 0 || t.next >= Length(t.graph) || Suspended(t, resume)) {
      NoCallElsewhere(Node(t, env, resume), env, resume, nodes - 1);
    }
  }

  // The calls a run has made when it stops after some nodes or inside the following one: there,
  // the analysis node has called the model although its result was never checkpointed.
  function CallsMade(t: Thread, env: Environment, nodes: nat, insideNext: bool): nat {
    var end := Execute(t, env, NotResumed, nodes);
    end.modelCalls + if insideNext && end.graph.Full? && end.next == 5 && CallsModel(end.state, env) then 1 else 0
  }

  // Wherever a run is cut short, it has called the model exactly if it got into the analysis
  // node, all four loads succeeded and the context could be built; and then exactly once.
  lemma ModelIsCalledIff(t: Thread, env: Environment, nodes: nat, insideNext: bool)
    requires Starting(t)
    ensures CallsMade(t, env, nodes, insideNext) ==
      if (nodes >= 6 || (nodes == 5 && insideNext)) && LoadsSucceed(env) && env.contextError.None? then 1 else 0
  {
    if nodes < 5 {
      NoCallElsewhere(t, env, NotResumed, nodes);
    } else {
      var loaded := LoadPhase(t, env, nodes);
      if nodes == 5 {
        assert Execute(loaded, env, NotResumed, 0) == loaded;
      } else {
        ExecuteAhead(loaded, env, NotResumed, nodes - 5);
        NoCallElsewhere(Node(loaded, env, NotResumed), env, NotResumed, nodes - 6);
      }
    }
  }

  lemma ReportPhase(loaded: Thread, env: Environment) returns (gated: Thread)
    requires loaded.graph.Full? && loaded.next == 5 && loaded.state.status.Created?
    requires loaded.state.supplierProfile.Some? && loaded.state.currentRisk.Some?
    ensures Execute(loaded, env, NotResumed, 5) == Execute(gated, env, NotResumed, 2)
    ensures gated.graph.Full? && gated.next == 8
    ensures !AnalysisSucceeds(env) ==> gated.state.status.Failed?
    ensures gated.state.currentRisk == loaded.state.currentRisk && gated.state.evidence == loaded.state.evidence
    ensures AnalysisSucceeds(env) ==>
      var risk, evidence := loaded.state.currentRisk.value, loaded.state.evidence;
      if risk.supplierId == loaded.state.supplierId && CitesOnly(env.model.analysis.findings, KeysOf(evidence))
      then AwaitsReviewer(gated.state) && gated.state.status.Completed? else gated.state.status.Failed?
  {
    var analyzed := Node(loaded, env, NotResumed);
    ExecuteAhead(loaded, env, NotResumed, 5);
    var finalized := Node(analyzed, env, NotResumed);
    ExecuteAhead(analyzed, env, NotResumed, 4);
    gated := Node(finalized, env, NotResumed);
    ExecuteAhead(finalized, env, NotResumed, 3);
    if AnalysisSucceeds(env) {
      GroundedAnalysis(loaded.state, env);
      assert Grounded(finalized.state);
      GateOutcome(finalized.state);
      CitedKeysAreKnownIff(finalized.state.report.value, KeysOf(finalized.state.evidence));
    }
  }

  // A complete run pauses for review, over a vetted report on the risk and the evidence that
  // were read, exactly when all loads succeed, the model returns an analysis, the risk is the
  // requested supplier's and every citation was loaded; otherwise it fails.
  lemma RunEndsPendingIff(t: Thread, env: Environment)
    requires Starting(t)
    ensures
      var end := Execute(t, env, NotResumed, 10);
      if LoadsSucceed(env) && AnalysisSucceeds(env) && GatePasses(t.state.supplierId, env)
      then
        && end.next == 8 && end.state.reviewStatus.Pending? && end.state.status.Completed?
        && end.state.currentRisk == Some(env.risk.value) && end.state.evidence == env.evidence.value
        && Vetted(end.state)
      else end.state.status.Failed?
  {
    var loaded := LoadPhase(t, env, 10);
    ExecuteKeepsInv(t, env, NotResumed, 10);
    if !LoadsSucceed(env) {
      FailureIsAbsorbing(loaded, env, NotResumed, 5);
    } else {
      var gated := ReportPhase(loaded, env);
      if gated.state.status.Failed? {
        FailureIsAbsorbing(gated, env, NotResumed, 2);
      } else {
        assert Execute(gated, env, NotResumed, 2) == gated;
      }
    }
  }
}
