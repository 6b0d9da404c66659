// The service boundary over checkpointed threads (agent/service.py): starting investigations,
// reading them back and submitting reviews, with an unavailable or failing checkpoint store.
module ReviewService {
  import opened Wrappers
  import opened Events
  import opened Investigation
  import opened InvestigationRuns

  // Every failure that is not a refused transition reaches the caller as a persistence error.
  datatype ServiceError = Persistence | Transition(message: string)

  // The store cannot be reached at all, or fails once some nodes have been checkpointed.
  datatype Fault = NoFault | Unavailable | StopsAfter(nodes: nat)

  datatype CreateRequest = CreateRequest(
    investigationId: Option<Id>, threadId: Option<Id>, supplierId: string, question: string, createdAt: Option<Instant>)

  // Fresh identifiers and the clock reading.
  datatype Defaults = Defaults(investigationId: Id, threadId: Id, now: Instant)

  datatype Operation =
    | Create(start: CreateRequest, defaults: Defaults, env: Environment, fault: Fault)
    | Run(start: CreateRequest, defaults: Defaults, env: Environment, fault: Fault)
    | Submit(request: ReviewRequest, env: Environment, fault: Fault)

  type Threads = map<Id, Thread>

  datatype Outcome = Outcome(threads: Threads, answer: Result<State, ServiceError>)

  // ---------- Specification ----------

  function GetOr<T>(o: Option<T>, default: T): T {
    if o.Some? then o.value else default
  }

  function InitialState(r: CreateRequest, d: Defaults): State {
    Fresh(GetOr(r.investigationId, d.investigationId), GetOr(r.threadId, d.threadId),
          r.supplierId, r.question, GetOr(r.createdAt, d.now))
  }

  function NodesBefore(fault: Fault): nat {
    if fault.StopsAfter? then fault.nodes else 10
  }

  // Invoking a graph on a new input replaces the thread.
  function StartThread(threads: Threads, graph: Graph, initial: State, env: Environment, fault: Fault): Outcome {
    if fault.Unavailable? then Outcome(threads, Err(Persistence))
    else
      var end := Execute(Thread(initial, graph, 0, 0), env, NotResumed, NodesBefore(fault));
      Outcome(threads[initial.threadId := end], if fault.NoFault? then Ok(end.state) else Err(Persistence))
  }

  predicate IsDuplicate(current: State, r: ReviewRequest) {
    && current.review.Some?
    && current.review.value.status == FinalStatus(r.decision)
    && current.review.value.reviewerId == Some(r.reviewerId)
    && current.review.value.reason == r.reason
  }

  predicate OpenForReview(s: State) {
    s.status.Completed? && s.report.Some? && s.reviewStatus.Pending?
  }

  function SubmitTo(threads: Threads, r: ReviewRequest, env: Environment, fault: Fault): Outcome {
    if fault.Unavailable? || r.threadId !in threads then Outcome(threads, Err(Persistence))
    else
      var t := threads[r.threadId];
      if t.state.investigationId != r.investigationId then
        Outcome(threads, Err(Transition("Human review investigation identity did not match")))
      else if t.state.threadId != r.threadId then
        Outcome(threads, Err(Transition("Human review thread identity did not match")))
      else if t.state.reviewStatus in {Approved, Rejected} then
        Outcome(threads,
                if IsDuplicate(t.state, r) then Ok(t.state)
                else Err(Transition("Human review has already been finalized")))
      else if !OpenForReview(t.state) then
        Outcome(threads, Err(Transition("No human review is pending for this investigation")))
      else
        var end := Execute(t, env, Submitted(r), NodesBefore(fault));
        Outcome(threads[r.threadId := end], if fault.NoFault? then Ok(end.state) else Err(Persistence))
  }

  function Perform(threads: Threads, op: Operation): Outcome {
    match op
    case Create(start, defaults, env, fault) => StartThread(threads, Bare, InitialState(start, defaults), env, fault)
    case Run(start, defaults, env, fault) => StartThread(threads, Full, InitialState(start, defaults), env, fault)
    case Submit(request, env, fault) => SubmitTo(threads, request, env, fault)
  }

  function ThreadOf(op: Operation): Id {
    if op.Submit? then op.request.threadId else InitialState(op.start, op.defaults).threadId
  }

  function PerformAll(threads: Threads, ops: seq<Operation>): Threads {
    if ops == [] then threads
    else Perform(PerformAll(threads, ops[..|ops| - 1]), ops[|ops| - 1]).threads
  }

  // ---------- The service ----------

  class InvestigationService {
    var threads: Threads

    constructor ()
      ensures threads == map[]
    {
      threads := map[];
    }

    method CreateInvestigation(start: CreateRequest, defaults: Defaults, env: Environment, fault: Fault)
      returns (answer: Result<State, ServiceError>)
      modifies this
      ensures Outcome(threads, answer) == Perform(old(threads), Create(start, defaults, env, fault))
    {
      var initial := InitialState(start, defaults);
      if fault.Unavailable? {
        return Err(Persistence);
      }
      var end := Execute(Thread(initial, Bare, 0, 0), env, NotResumed, NodesBefore(fault));
      threads := threads[initial.threadId := end];
      if fault.StopsAfter? {
        return Err(Persistence);
      }
      return Ok(end.state);
    }

    method RunInvestigation(start: CreateRequest, defaults: Defaults, env: Environment, fault: Fault)
      returns (answer: Result<State, ServiceError>)
      modifies this
      ensures Outcome(threads, answer) == Perform(old(threads), Run(start, defaults, env, fault))
    {
      var initial := InitialState(start, defaults);
      if fault.Unavailable? {
        return Err(Persistence);
      }
      var end := Execute(Thread(initial, Full, 0, 0), env, NotResumed, NodesBefore(fault));
      threads := threads[initial.threadId := end];
      if fault.StopsAfter? {
        return Err(Persistence);
      }
      return Ok(end.state);
    }

    method SubmitReview(request: ReviewRequest, env: Environment, fault: Fault)
      returns (answer: Result<State, ServiceError>)
      modifies this
      ensures Outcome(threads, answer) == Perform(old(threads), Submit(request, env, fault))
    {
      if fault.Unavailable? || request.threadId !in threads {
        return Err(Persistence);
      }
      var t := threads[request.threadId];
      var current := t.state;
      if current.investigationId != request.investigationId {
        return Err(Transition("Human review investigation identity did not match"));
      }
      if current.threadId != request.threadId {
        return Err(Transition("Human review thread identity did not match"));
      }
      if current.reviewStatus.Approved? || current.reviewStatus.Rejected? {
        if IsDuplicate(current, request) {
          return Ok(current);
        }
        return Err(Transition("Human review has already been finalized"));
      }
      if !current.status.Completed? || current.report.None? || !current.reviewStatus.Pending? {
        return Err(Transition("No human review is pending for this investigation"));
      }
      var end := Execute(t, env, Submitted(request), NodesBefore(fault));
      threads := threads[request.threadId := end];
      if fault.StopsAfter? {
        return Err(Persistence);
      }
      return Ok(end.state);
    }
  }

  // ---------- What every stored thread satisfies ----------

  predicate BareOk(t: Thread) {
    && t.graph.Bare? && t.next <= 2
    && t.state.status == (if t.next == 2 then Ready else Created)
    && t.state.reviewStatus.NotRequested? && t.state.report.None?
  }

  predicate ThreadOk(id: Id, t: Thread) {
    t.state.threadId == id && if t.graph.Full? then Inv(t) else BareOk(t)
  }

  ghost predicate AllOk(threads: Threads) {
    forall id | id in threads :: ThreadOk(id, threads[id])
  }

  predicate SameIdentity(s: State, d: State) {
    d.threadId == s.threadId && d.investigationId == s.investigationId
    && d.supplierId == s.supplierId && d.question == s.question
  }

  lemma LoadKeepsIdentity(t: Thread, env: Environment, resume: Resume)
    requires t.graph.Bare? || t.next <= 4
    ensures SameIdentity(t.state, RunNode(t, env, resume))
  {
  }

  lemma ReportKeepsIdentity(t: Thread, env: Environment, resume: Resume)
    requires t.graph.Full? && 5 <= t.next <= 6
    ensures SameIdentity(t.state, RunNode(t, env, resume))
  {
  }

  lemma ValidateKeepsIdentity(s: State, env: Environment)
    ensures SameIdentity(s, ValidateReport(s, env))
  {
  }

  lemma ReviewKeepsIdentity(s: State, env: Environment, resume: Resume)
    ensures SameIdentity(s, ReviewResumed(s, env, resume))
  {
  }

  lemma NodeKeepsIdentity(t: Thread, env: Environment, resume: Resume)
    ensures SameIdentity(t.state, Node(t, env, resume).state)
  {
    if t.graph.Bare? || t.next <= 4 {
      LoadKeepsIdentity(t, env, resume);
    } else if t.next <= 6 {
      ReportKeepsIdentity(t, env, resume);
    } else if t.next == 7 {
      ValidateKeepsIdentity(t.state, env);
    } else {
      ReviewKeepsIdentity(t.state, env, resume);
    }
  }

  lemma {:induction false} ExecuteKeepsIdentity(t: Thread, env: Environment, resume: Resume, nodes: nat)
    ensures
      var end := Execute(t, env, resume, nodes);
      end.graph == t.graph && SameIdentity(t.state, end.state)
    decreases nodes
  {
    if !(nodes == 0 || t.next >= Length(t.graph) || Suspended(t, resume)) {
      NodeKeepsIdentity(t, env, resume);
      ExecuteKeepsIdentity(Node(t, env, resume), env, resume, nodes - 1);
    }
  }

  lemma {:induction false} BareExecution(t: Thread, env: Environment, resume: Resume, nodes: nat)
    requires BareOk(t)
    ensures BareOk(Execute(t, env, resume, nodes))
    decreases nodes
  {
    if nodes > 0 && t.next < 2 {
      BareExecution(Node(t, env, resume), env, resume, nodes - 1);
    }
  }

  lemma ExecuteKeepsThreadOk(id: Id, t: Thread, env: Environment, resume: Resume, nodes: nat)
    requires ThreadOk(id, t)
    ensures ThreadOk(id, Execute(t, env, resume, nodes))
  {
    ExecuteKeepsIdentity(t, env, resume, nodes);
    if t.graph.Full? {
      ExecuteKeepsInv(t, env, resume, nodes);
    } else {
      BareExecution(t, env, resume, nodes);
    }
  }

  lemma PerformKeepsAllOk(threads: Threads, op: Operation)
    requires AllOk(threads)
    ensures AllOk(Perform(threads, op).threads)
  {
    match op
    case Create(start, defaults, env, fault) =>
      var initial := InitialState(start, defaults);
      ExecuteKeepsThreadOk(initial.threadId, Thread(initial, Bare, 0, 0), env, NotResumed, NodesBefore(fault));
    case Run(start, defaults, env, fault) =>
      var initial := InitialState(start, defaults);
      ExecuteKeepsThreadOk(initial.threadId, Thread(initial, Full, 0, 0), env, NotResumed, NodesBefore(fault));
    case Submit(request, env, fault) =>
      if request.threadId in threads {
        ExecuteKeepsThreadOk(request.threadId, threads[request.threadId], env, Submitted(request), NodesBefore(fault));
      }
  }

  lemma {:induction false} RunKeepsAllOk(threads: Threads, ops: seq<Operation>)
    requires AllOk(threads)
    ensures AllOk(PerformAll(threads, ops))
    decreases |ops|
  {
    if ops != [] {
      RunKeepsAllOk(threads, ops[..|ops| - 1]);
      PerformKeepsAllOk(PerformAll(threads, ops[..|ops| - 1]), ops[|ops| - 1]);
    }
  }

  // Whatever was requested, in whatever order and with whatever faults: a thread open for
  // review or decided holds a vetted report, and a failed thread never shows a decision.
  lemma EveryStoredThreadIsSafe(ops: seq<Operation>, id: Id)
    requires id in PerformAll(map[], ops)
    ensures
      var s := PerformAll(map[], ops)[id].state;
      && s.threadId == id
      && (s.status.Failed? ==> s.report.None? && s.reviewStatus in {NotRequested, Pending})
      && (OpenForReview(s) ==> AwaitsReviewer(s) && Vetted(s))
      && (s.reviewStatus in {Approved, Rejected} ==> s.status.Completed? && Vetted(s) && FinalReview(s))
  {
    RunKeepsAllOk(map[], ops);
    assert ThreadOk(id, PerformAll(map[], ops)[id]);
  }

  // ---------- One submission ----------

  function Decided(s: State, r: ReviewRequest, reviewId: Id): State {
    s.(reviewStatus := FinalStatus(r.decision), review := Some(RecordOf(r, reviewId)))
  }

  // A resume that the guard permits changes the review and nothing else, as soon as one node
  // has run; neither of the review node's own failures can occur.
  lemma PermittedResumeDecides(id: Id, t: Thread, r: ReviewRequest, env: Environment, nodes: nat)
    requires ThreadOk(id, t) && OpenForReview(t.state)
    requires r.threadId == id && r.investigationId == t.state.investigationId
    ensures
      var end := Execute(t, env, Submitted(r), nodes);
      && end.state == (if nodes == 0 then t.state else Decided(t.state, r, env.reviewId))
      && end.modelCalls == t.modelCalls
      && (nodes >= 2 ==> end.next == 10)
  {
    assert t.graph.Full? && t.next == 8;
    if nodes > 0 {
      ExecuteAhead(t, env, Submitted(r), nodes);
      ReviewDecidedIff(t.state, env, Submitted(r));
      var decided := Node(t, env, Submitted(r));
      assert decided.state == Decided(t.state, r, env.reviewId);
      if nodes > 1 {
        ExecuteAhead(decided, env, Submitted(r), nodes - 1);
      }
    }
  }

  // A submission for this investigation that gets as far as the review node.
  predicate Effective(op: Operation, id: Id, investigationId: Id) {
    && op.Submit? && op.request.threadId == id && op.request.investigationId == investigationId
    && !op.fault.Unavailable? && NodesBefore(op.fault) > 0
  }

  // An operation that starts no investigation on the thread either decides its open review
  // or leaves its state alone.
  lemma OneOperation(threads: Threads, op: Operation, id: Id)
    requires AllOk(threads) && id in threads
    requires ThreadOf(op) == id ==> op.Submit?
    ensures id in Perform(threads, op).threads
    ensures
      var s := threads[id].state;
      Perform(threads, op).threads[id].state ==
        if OpenForReview(s) && Effective(op, id, s.investigationId)
        then Decided(s, op.request, op.env.reviewId) else s
  {
    var t := threads[id];
    assert ThreadOk(id, t);
    if ThreadOf(op) == id && OpenForReview(t.state) && op.request.investigationId == t.state.investigationId {
      PermittedResumeDecides(id, t, op.request, op.env, NodesBefore(op.fault));
    }
  }

  // ---------- Whole histories of one thread ----------

  predicate NotRestarted(ops: seq<Operation>, id: Id) {
    forall op | op in ops :: ThreadOf(op) == id ==> op.Submit?
  }

  // The state that the first effective submission leaves behind.
  function AfterFirstEffective(s: State, ops: seq<Operation>, id: Id): State {
    if ops == [] then s
    else if Effective(ops[0], id, s.investigationId) then Decided(s, ops[0].request, ops[0].env.reviewId)
    else AfterFirstEffective(s, ops[1..], id)
  }

  lemma {:induction false} AfterFirstEffectiveAppends(s: State, ops: seq<Operation>, op: Operation, id: Id)
    ensures
      var before := AfterFirstEffective(s, ops, id);
      AfterFirstEffective(s, ops + [op], id) ==
        if before == s && (forall o | o in ops :: !Effective(o, id, s.investigationId))
        then AfterFirstEffective(s, [op], id) else before
    decreases |ops|
  {
    if ops == [] {
      assert ops + [op] == [op];
    } else {
      assert (ops + [op])[0] == ops[0] && (ops + [op])[1..] == ops[1..] + [op];
      AfterFirstEffectiveAppends(s, ops[1..], op, id);
      assert forall o :: o in ops <==> o == ops[0] || o in ops[1..];
    }
  }

  lemma {:induction false} EffectiveDecides(s: State, ops: seq<Operation>, id: Id)
    ensures
      var d := AfterFirstEffective(s, ops, id);
      if exists o :: o in ops && Effective(o, id, s.investigationId)
      then d.reviewStatus in {Approved, Rejected} && d.investigationId == s.investigationId
      else d == s
    decreases |ops|
  {
    if ops != [] {
      assert forall o :: o in ops <==> o == ops[0] || o in ops[1..];
      EffectiveDecides(s, ops[1..], id);
    }
  }

  // As long as no investigation is started on the thread, its state is the one the first
  // effective submission decided, if its review was open; otherwise it never changes. So a
  // failed thread never gets a decision and a decision is never revised.
  lemma {:induction false} FirstEffectiveSubmissionDecides(threads: Threads, ops: seq<Operation>, id: Id)
    requires AllOk(threads) && id in threads && NotRestarted(ops, id)
    ensures id in PerformAll(threads, ops)
    ensures
      var s := threads[id].state;
      PerformAll(threads, ops)[id].state == if OpenForReview(s) then AfterFirstEffective(s, ops, id) else s
    decreases |ops|
  {
    if ops != [] {
      var front, last := ops[..|ops| - 1], ops[|ops| - 1];
      assert ops == front + [last];
      var s := threads[id].state;
      FirstEffectiveSubmissionDecides(threads, front, id);
      RunKeepsAllOk(threads, front);
      OneOperation(PerformAll(threads, front), last, id);
      if OpenForReview(s) {
        AfterFirstEffectiveAppends(s, front, last, id);
        EffectiveDecides(s, front, id);
      }
    }
  }

  // The answer to the operation at position i of a history.
  function AnswerAt(threads: Threads, ops: seq<Operation>, i: nat): Result<State, ServiceError>
    requires i < |ops|
  {
    Perform(PerformAll(threads, ops[..i]), ops[i]).answer
  }

  // An accepted submission is answered with a state that records exactly that submission,
  // and that state is stored.
  lemma AcceptedIsRecorded(threads: Threads, r: ReviewRequest, env: Environment, fault: Fault)
    requires AllOk(threads)
    requires SubmitTo(threads, r, env, fault).answer.Ok?
    ensures
      var outcome := SubmitTo(threads, r, env, fault);
      && r.threadId in threads && r.threadId in outcome.threads
      && outcome.threads[r.threadId].state == outcome.answer.value
      && outcome.answer.value.reviewStatus in {Approved, Rejected}
      && IsDuplicate(outcome.answer.value, r)
  {
    var t := threads[r.threadId];
    assert ThreadOk(r.threadId, t);
    if OpenForReview(t.state) {
      PermittedResumeDecides(r.threadId, t, r, env, NodesBefore(fault));
    }
  }

  // Two accepted submissions to a thread are answered with the same state, and they agree on
  // decision, reviewer and reason.
  lemma AcceptedSubmissionsAgree(threads: Threads, ops: seq<Operation>, id: Id, i: nat, j: nat)
    requires AllOk(threads) && id in threads && NotRestarted(ops, id)
    requires i < j < |ops|
    requires ops[i].Submit? && ops[i].request.threadId == id && AnswerAt(threads, ops, i).Ok?
    requires ops[j].Submit? && ops[j].request.threadId == id && AnswerAt(threads, ops, j).Ok?
    ensures AnswerAt(threads, ops, i) == AnswerAt(threads, ops, j)
    ensures
      var a, b := ops[i].request, ops[j].request;
      a.decision == b.decision && a.reviewerId == b.reviewerId && a.reason == b.reason
  {
    var before := PerformAll(threads, ops[..i]);
    RunKeepsAllOk(threads, ops[..i]);
    AcceptedIsRecorded(before, ops[i].request, ops[i].env, ops[i].fault);
    var after := PerformAll(threads, ops[..i + 1]);
    assert ops[..i + 1][..i] == ops[..i];
    assert after == Perform(before, ops[i]).threads;
    RunKeepsAllOk(threads, ops[..i + 1]);
    PerformAllSplits(threads, ops[..j], i + 1);
    FirstEffectiveSubmissionDecides(after, ops[i + 1..j], id);
    assert ops[..j][..i + 1] == ops[..i + 1] && ops[..j][i + 1..] == ops[i + 1..j];
    var later := PerformAll(threads, ops[..j]);
    assert later[id].state == after[id].state;
    RunKeepsAllOk(threads, ops[..j]);
    AcceptedIsRecorded(later, ops[j].request, ops[j].env, ops[j].fault);
  }

  lemma {:induction false} PerformAllSplits(threads: Threads, ops: seq<Operation>, k: nat)
    requires k <= |ops|
    ensures PerformAll(threads, ops) == PerformAll(PerformAll(threads, ops[..k]), ops[k..])
    decreases |ops|
  {
    if k == |ops| {
      assert ops[..k] == ops;
    } else {
      var front := ops[..|ops| - 1];
      PerformAllSplits(threads, front, k);
      assert front[..k] == ops[..k] && ops[k..][..|ops[k..]| - 1] == front[k..];
    }
  }

  // Once the review is final, every submission leaves all threads alone, and it is accepted
  // exactly when it repeats the decision for this investigation.
  lemma FinalReviewAnswers(threads: Threads, r: ReviewRequest, env: Environment, fault: Fault)
    requires AllOk(threads) && r.threadId in threads
    requires threads[r.threadId].state.reviewStatus in {Approved, Rejected}
    ensures
      var outcome, s := SubmitTo(threads, r, env, fault), threads[r.threadId].state;
      && outcome.threads == threads
      && (outcome.answer == Ok(s) <==>
          !fault.Unavailable? && s.investigationId == r.investigationId && IsDuplicate(s, r))
      && (outcome.answer.Ok? ==> outcome.answer == Ok(s))
  {
    assert ThreadOk(r.threadId, threads[r.threadId]);
  }
}
