// What each service operation answers and stores, written out by case. Nothing here is used by
// the service itself.
module ServiceAnswers {
  import opened Wrappers
  import opened SortedKeys
  import opened Events
  import opened Investigation
  import opened InvestigationRuns
  import opened ReviewService
  import opened RunOutcomes

  // The thread a request is about.
  function RequestedThread(start: CreateRequest, defaults: Defaults): Id {
    match start.threadId
    case Some(id) => id
    case None => defaults.threadId
  }

  predicate OnlyChanges(id: Id, before: Threads, after: Threads) {
    && after.Keys == before.Keys + {id}
    && forall k | k in before && k != id :: after[k] == before[k]
  }

  // s belongs to the request: its identifiers, supplier, question and creation time.
  predicate BelongsTo(s: State, start: CreateRequest, defaults: Defaults) {
    && s.threadId == RequestedThread(start, defaults)
    && (start.investigationId.Some? ==> s.investigationId == start.investigationId.value)
    && (start.investigationId.None? ==> s.investigationId == defaults.investigationId)
    && s.supplierId == start.supplierId && s.question == start.question
    && (start.createdAt.Some? ==> s.createdAt == s.updatedAt == start.createdAt.value)
    && (start.createdAt.None? ==> s.createdAt == s.updatedAt == defaults.now)
  }

  // Nothing was read, reported, validated, reviewed or went wrong.
  predicate Blank(s: State) {
    && s.evidenceKeys == [] && s.supplierProfile.None? && s.currentRisk.None? && s.riskHistory == [] && s.evidence == []
    && s.report.None? && s.errorCode.None? && s.errorMessage.None? && s.providerFailure.None?
    && s.validation.None? && s.reviewStatus.NotRequested? && s.review.None?
  }

  // A run is answered with the stored state of the requested thread. It waits for review over
  // the report of what was read when every load, the analysis and the gate succeed, and is the
  // failed state of the first step that does not otherwise.
  lemma RunAnswers(threads: Threads, start: CreateRequest, defaults: Defaults, env: Environment)
    ensures
      var outcome := Perform(threads, Run(start, defaults, env, NoFault));
      var id := RequestedThread(start, defaults);
      && OnlyChanges(id, threads, outcome.threads)
      && outcome.answer == Ok(outcome.threads[id].state)
      && BelongsTo(outcome.threads[id].state, start, defaults)
      && EndsAs(outcome.threads[id].state, env)
  {
    var t := Thread(InitialState(start, defaults), Full, 0, 0);
    RunEndsAs(t, env);
  }

  // In short: when an answered run is open for review, and what it failed with.
  lemma RunAnswersPendingIff(threads: Threads, start: CreateRequest, defaults: Defaults, env: Environment)
    ensures
      var answer := Perform(threads, Run(start, defaults, env, NoFault)).answer;
      && answer.Ok?
      && (if LoadFailure(env).None? && AnalysisFailure(env).None?
             && env.risk.value.supplierId == start.supplierId
             && CitationsLoaded(env.model.analysis.findings, env.evidence.value)
          then
            && answer.value.status.Completed? && answer.value.reviewStatus.Pending?
            && answer.value.currentRisk == Some(env.risk.value) && answer.value.evidence == env.evidence.value
            && Vetted(answer.value)
          else answer.value.status.Failed?)
  {
    RunAnswers(threads, start, defaults, env);
    var t := Thread(InitialState(start, defaults), Full, 0, 0);
    ExecuteKeepsInv(t, env, NotResumed, 10);
  }

  lemma BareRun(t: Thread, env: Environment)
    requires t.graph.Bare? && t.next == 0
    ensures Execute(t, env, NotResumed, 10).state == Prepare(Initialize(t.state))
    ensures Execute(t, env, NotResumed, 10).graph.Bare?
  {
    ExecuteAhead(t, env, NotResumed, 10);
    ExecuteAhead(Node(t, env, NotResumed), env, NotResumed, 9);
  }

  // A creation is answered with the stored, ready and otherwise blank state.
  lemma CreateAnswers(threads: Threads, start: CreateRequest, defaults: Defaults, env: Environment)
    ensures
      var outcome := Perform(threads, Create(start, defaults, env, NoFault));
      var id := RequestedThread(start, defaults);
      && OnlyChanges(id, threads, outcome.threads)
      && outcome.answer == Ok(outcome.threads[id].state)
      && BelongsTo(outcome.threads[id].state, start, defaults)
      && outcome.threads[id].state.status.Ready? && Blank(outcome.threads[id].state)
  {
    var t := Thread(InitialState(start, defaults), Bare, 0, 0);
    BareRun(t, env);
    assert FirstOccurrences([]) == [];
  }

  // Preparing keeps each evidence key once, where it first occurred.
  lemma {:induction false} FirstOccurrencesKeep(ks: seq<Key>)
    ensures
      var r := FirstOccurrences(ks);
      && (forall k :: k in r <==> k in ks)
      && (forall i, j | 0 <= i < j < |r| :: r[i] != r[j])
      && (forall i, j | 0 <= i < j < |r| :: FirstIndex(ks, r[i]) < FirstIndex(ks, r[j]))
  {
    if ks != [] {
      var before, last := ks[..|ks| - 1], ks[|ks| - 1];
      FirstOccurrencesKeep(before);
      assert ks == before + [last];
      var r := FirstOccurrences(before);
      forall k | k in before ensures FirstIndex(ks, k) == FirstIndex(before, k) < |before| {
        FirstIndexKept(before, last, k);
      }
      if last !in r {
        FirstIndexKept(before, last, last);
      }
    }
  }

  function FirstIndex(ks: seq<Key>, k: Key): nat {
    if ks == [] || ks[0] == k then 0 else 1 + FirstIndex(ks[1..], k)
  }

  lemma {:induction false} FirstIndexKept(before: seq<Key>, last: Key, k: Key)
    ensures k in before ==> FirstIndex(before + [last], k) == FirstIndex(before, k) < |before|
    ensures k !in before && k == last ==> FirstIndex(before + [last], k) == |before|
  {
    var ks := before + [last];
    if before != [] {
      assert ks[1..] == before[1..] + [last];
      FirstIndexKept(before[1..], last, k);
    }
  }

  // ---------- Faults while starting ----------

  lemma {:induction false} EnoughNodes(t: Thread, env: Environment, resume: Resume, nodes: nat, more: nat)
    requires Length(t.graph) - t.next <= nodes <= more
    ensures Execute(t, env, resume, nodes) == Execute(t, env, resume, more)
    decreases nodes
  {
    if nodes > 0 && t.next < Length(t.graph) && !Suspended(t, resume) {
      EnoughNodes(Node(t, env, resume), env, resume, nodes - 1, more - 1);
    }
  }

  function Cleanly(op: Operation): Operation {
    match op
    case Create(start, defaults, env, _) => Create(start, defaults, env, NoFault)
    case Run(start, defaults, env, _) => Run(start, defaults, env, NoFault)
    case Submit(request, env, _) => Submit(request, env, NoFault)
  }

  // An unreachable store leaves everything; a store that fails on the way is a persistence
  // error as well, with the thread where the last stored node left it.
  lemma FaultedStart(threads: Threads, op: Operation)
    requires !op.Submit?
    ensures
      var outcome, id := Perform(threads, op), RequestedThread(op.start, op.defaults);
      match op.fault
      case Unavailable => outcome == Outcome(threads, Err(Persistence))
      case StopsAfter(nodes) =>
        var clean := Perform(threads, Cleanly(op)).threads;
        && outcome.answer == Err(Persistence) && OnlyChanges(id, threads, outcome.threads)
        && (nodes >= 10 ==> outcome.threads == clean)
        && (nodes == 0 ==>
              && outcome.threads[id].state.status.Created? && Blank(outcome.threads[id].state)
              && BelongsTo(outcome.threads[id].state, op.start, op.defaults))
      case NoFault => outcome.answer.Ok?
  {
    var t := Thread(InitialState(op.start, op.defaults), if op.Create? then Bare else Full, 0, 0);
    if op.fault.StopsAfter? && op.fault.nodes >= 10 {
      EnoughNodes(t, op.env, NotResumed, 10, op.fault.nodes);
    }
  }

  // ---------- Submissions ----------

  // The state with the reviewer's decision, and everything else as it was.
  predicate RecordsDecision(s: State, d: State, r: ReviewRequest, reviewId: Id) {
    && d == s.(reviewStatus := d.reviewStatus, review := d.review)
    && (r.decision.Approve? ==> d.reviewStatus.Approved?)
    && (r.decision.Reject? ==> d.reviewStatus.Rejected?)
    && d.review.Some?
    && d.review.value.reviewId == reviewId && d.review.value.status == d.reviewStatus
    && d.review.value.reviewerId == Some(r.reviewerId) && d.review.value.reviewedAt == Some(r.reviewedAt)
    && d.review.value.reason == r.reason
  }

  // The stored review already has this decision, reviewer and reason, whatever the time.
  predicate Repeats(s: State, r: ReviewRequest) {
    && s.review.Some?
    && ((s.review.value.status.Approved? && r.decision.Approve?) || (s.review.value.status.Rejected? && r.decision.Reject?))
    && s.review.value.reviewerId == Some(r.reviewerId) && s.review.value.reason == r.reason
  }

  // A permitted submission is accepted: the answer is the stored, decided state.
  lemma PermittedSubmissionIsAccepted(threads: Threads, r: ReviewRequest, env: Environment)
    requires AllOk(threads) && r.threadId in threads
    requires
      var s := threads[r.threadId].state;
      s.investigationId == r.investigationId && s.status.Completed? && s.report.Some? && s.reviewStatus.Pending?
    ensures
      var outcome := Perform(threads, Submit(r, env, NoFault));
      && OnlyChanges(r.threadId, threads, outcome.threads)
      && outcome.answer == Ok(outcome.threads[r.threadId].state)
      && RecordsDecision(threads[r.threadId].state, outcome.threads[r.threadId].state, r, env.reviewId)
  {
    assert ThreadOk(r.threadId, threads[r.threadId]);
    PermittedResumeDecides(r.threadId, threads[r.threadId], r, env, 10);
  }

  // The same submission over a store that fails on the way is a persistence error, with the
  // decision stored as soon as the review node was.
  lemma PermittedSubmissionOverFault(threads: Threads, r: ReviewRequest, env: Environment, nodes: nat)
    requires AllOk(threads) && r.threadId in threads
    requires
      var s := threads[r.threadId].state;
      s.investigationId == r.investigationId && s.status.Completed? && s.report.Some? && s.reviewStatus.Pending?
    ensures
      var outcome, s := Perform(threads, Submit(r, env, StopsAfter(nodes))), threads[r.threadId].state;
      && OnlyChanges(r.threadId, threads, outcome.threads) && outcome.answer == Err(Persistence)
      && (if nodes == 0 then outcome.threads[r.threadId].state == s
          else RecordsDecision(s, outcome.threads[r.threadId].state, r, env.reviewId))
  {
    assert ThreadOk(r.threadId, threads[r.threadId]);
    PermittedResumeDecides(r.threadId, threads[r.threadId], r, env, nodes);
  }

  // Every other submission changes nothing, and is answered by case.
  lemma OtherSubmissionsAnswer(threads: Threads, r: ReviewRequest, env: Environment, fault: Fault)
    requires AllOk(threads)
    ensures
      var outcome := Perform(threads, Submit(r, env, fault));
      if fault.Unavailable? || r.threadId !in threads then outcome == Outcome(threads, Err(Persistence))
      else
        var s := threads[r.threadId].state;
        if s.investigationId != r.investigationId then
          outcome == Outcome(threads, Err(Transition("Human review investigation identity did not match")))
        else if s.reviewStatus.Approved? || s.reviewStatus.Rejected? then
          outcome == Outcome(threads, if Repeats(s, r) then Ok(s) else Err(Transition("Human review has already been finalized")))
        else if s.status.Completed? && s.report.Some? && s.reviewStatus.Pending? then true
        else outcome == Outcome(threads, Err(Transition("No human review is pending for this investigation")))
  {
    if r.threadId in threads {
      assert ThreadOk(r.threadId, threads[r.threadId]);
    }
  }
}
