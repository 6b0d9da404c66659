// Failure disposition around the coordinator (processing/disposition.py,
// processing/failures.py): exactly one transport action per delivery.
module Disposition {
  import opened Wrappers
  import opened Events
  import opened Ledger
  import opened Coordinator
  import Pipeline
  import SerialRuns

  datatype ProcessingDisposition = Redeliver | DeadLetter

  datatype RuntimeResult = RuntimeResult(
    coordinatorResult: Option<CoordinatorResult>,
    failure: Option<FailureKind>,
    disposition: Option<ProcessingDisposition>,
    redeliveryRequested: bool)

  datatype RuntimeFailure = CoordinatorFailed(failure: LedgerFailure) | InvalidMaximum | InvalidAttempt | RequestFailed(exception: Exception)

  predicate ValidAttempt(attempt: Option<int>) {
    attempt.Some? ==> attempt.value >= 1
  }

  // Pub/Sub accepts dead-letter policies of 5 to 100 attempts.
  predicate ValidMaximum(max: int) {
    5 <= max <= 100
  }

  function DetermineDisposition(kind: FailureKind, attempt: Option<int>, max: int): Result<ProcessingDisposition, RuntimeFailure> {
    if !ValidMaximum(max) then Err(InvalidMaximum)
    else if !ValidAttempt(attempt) then Err(InvalidAttempt)
    else if kind.NonRetryable? || kind.Conflict? then Ok(DeadLetter)
    else if attempt.None? then Ok(Redeliver)
    else if attempt.value >= max then Ok(DeadLetter)
    else Ok(Redeliver)
  }

  // ---------- One runtime call ----------

  // What survives from one delivery to the next: the coordinator's history, the handler error
  // object kept by the wrapper, and the redelivery requests attempted.
  datatype Runtime = Runtime(history: Pipeline.State, handlerError: Option<Exception>, redelivered: seq<CanonicalEvent>)

  const START := Runtime(Pipeline.INITIAL, None, [])

  function HandlerErrorAfter(rt: Runtime, r: Received): Option<Exception> {
    if HandlerRuns(rt.history.records, r)
    then (if r.handler.Succeeds? then None else Some(r.handler.exception))
    else rt.handlerError
  }

  function Requesting(rt: Runtime, r: Received, max: int, kind: FailureKind, result: Option<CoordinatorResult>)
    : (Runtime, Result<RuntimeResult, RuntimeFailure>)
  {
    match DetermineDisposition(kind, r.deliveryAttempt, max)
    case Err(failure) => (rt, Err(failure))
    case Ok(disposition) =>
      var requested := rt.(redelivered := rt.redelivered + [r.event]);
      if r.redeliveryFault.Some? then (requested, Err(RequestFailed(r.redeliveryFault.value)))
      else (requested, Ok(RuntimeResult(result, Some(kind), Some(disposition), true)))
  }

  // An exception is treated as a handler failure when it is the very object the wrapper kept.
  function Process(rt: Runtime, r: Received, max: int): (Runtime, Result<RuntimeResult, RuntimeFailure>) {
    var processed := Runtime(
      SerialRuns.Deliver(rt.history, DeliveryOf(r)), HandlerErrorAfter(rt, r), rt.redelivered);
    match ProcessResult(rt.history.records, r)
    case Err(Storage(x)) =>
      if processed.handlerError == Some(x) then Requesting(processed, r, max, ClassifyException(x), None)
      else (processed, Err(CoordinatorFailed(Storage(x))))
    case Err(failure) => (processed, Err(CoordinatorFailed(failure)))
    case Ok(result) =>
      if result.acknowledged then (processed, Ok(RuntimeResult(Some(result), None, None, false)))
      else if result.outcome.ConflictingEvent? then Requesting(processed, r, max, Conflict, Some(result))
      else (processed, Ok(RuntimeResult(Some(result), None, None, false)))
  }

  class ProcessingRuntimeCoordinator {
    const coordinator: ProcessingCoordinator
    const maxDeliveryAttempts: int

    ghost predicate Valid()
      reads coordinator, coordinator.ledger, coordinator.handler, coordinator.handler.sink
    {
      coordinator.Valid() && ValidMaximum(maxDeliveryAttempts)
    }

    ghost function State(): Runtime
      reads coordinator, coordinator.handler, coordinator.transport
    {
      Runtime(coordinator.history, coordinator.handler.error, coordinator.transport.redelivered)
    }

    constructor (coordinator: ProcessingCoordinator, maxDeliveryAttempts: int)
      requires coordinator.Valid() && ValidMaximum(maxDeliveryAttempts)
      ensures Valid() && this.coordinator == coordinator && this.maxDeliveryAttempts == maxDeliveryAttempts
    {
      this.coordinator := coordinator;
      this.maxDeliveryAttempts := maxDeliveryAttempts;
    }

    method ProcessReceived(r: Received) returns (result: Result<RuntimeResult, RuntimeFailure>)
      requires Valid()
      modifies coordinator, coordinator.ledger, coordinator.handler, coordinator.handler.sink, coordinator.transport
      ensures Valid()
      ensures State() == Process(old(State()), r, maxDeliveryAttempts).0
      ensures result == Process(old(State()), r, maxDeliveryAttempts).1
    {
      var processed := coordinator.Process(r);
      match processed
      case Err(failure) =>
        if failure.Storage? && coordinator.handler.failure.Some? && coordinator.handler.error == Some(failure.exception) {
          result := ApplyFailure(r, coordinator.handler.failure.value, None);
          return;
        }
        return Err(CoordinatorFailed(failure));
      case Ok(value) =>
        if value.acknowledged {
          return Ok(RuntimeResult(Some(value), None, None, false));
        }
        if value.outcome.ConflictingEvent? {
          result := ApplyFailure(r, Conflict, Some(value));
          return;
        }
        return Ok(RuntimeResult(Some(value), None, None, false));
    }

    method ApplyFailure(r: Received, kind: FailureKind, coordinatorResult: Option<CoordinatorResult>)
      returns (result: Result<RuntimeResult, RuntimeFailure>)
      modifies coordinator.transport`redelivered
      ensures State() == Requesting(old(State()), r, maxDeliveryAttempts, kind, coordinatorResult).0
      ensures result == Requesting(old(State()), r, maxDeliveryAttempts, kind, coordinatorResult).1
    {
      var disposition := DetermineDisposition(kind, r.deliveryAttempt, maxDeliveryAttempts);
      if disposition.Err? {
        return Err(disposition.error);
      }
      var raised := coordinator.transport.RequestRedelivery(r.event, r.redeliveryFault);
      if raised.Some? {
        return Err(RequestFailed(raised.value));
      }
      return Ok(RuntimeResult(coordinatorResult, Some(kind), Some(disposition.value), true));
    }
  }

  // ---------- Transport actions of one call ----------

  predicate Acknowledges(rt: Runtime, r: Received, max: int) {
    |Process(rt, r, max).0.history.acks| > |rt.history.acks|
  }

  predicate Redelivers(rt: Runtime, r: Received, max: int) {
    |Process(rt, r, max).0.redelivered| > |rt.redelivered|
  }

  ghost predicate Ready(rt: Runtime) {
    SerialRuns.SerialInv(rt.history) && rt.history.workers == map[]
  }

  predicate MeetsConflict(records: Records, r: Received) {
    && RecordFromEvent(r.event).Ok? && r.assessFault.None?
    && Verdict(records, RecordFromEvent(r.event).value).RevisionConflict?
  }

  // A boundary outside the handler raises the handler error object kept from an earlier
  // delivery, in a call that does not run the handler.
  predicate RaisesKeptError(rt: Runtime, r: Received) {
    && rt.handlerError.Some? && RecordFromEvent(r.event).Ok?
    && (r.assessFault == rt.handlerError
        || (AcknowledgesSettled(rt.history.records, r) && r.ackFault == rt.handlerError))
  }

  // The acknowledger raises the kept handler error object while settled content is acknowledged.
  predicate AcknowledgementRaisesKept(rt: Runtime, r: Received) {
    AcknowledgesSettled(rt.history.records, r) && r.ackFault.Some? && r.ackFault == rt.handlerError
  }

  // Every call that returns acknowledges or requests a redelivery, and both only when its
  // acknowledgement raised the kept error object. Its result says whether it requested, and an
  // unacknowledged coordinator result is a conflict.
  lemma ReturningCallActsOnce(rt: Runtime, r: Received, max: int)
    requires Ready(rt) && Process(rt, r, max).1.Ok?
    ensures Acknowledges(rt, r, max) || Redelivers(rt, r, max)
    ensures Acknowledges(rt, r, max) && Redelivers(rt, r, max) <==> AcknowledgementRaisesKept(rt, r)
    ensures Redelivers(rt, r, max) <==> Process(rt, r, max).1.value.redeliveryRequested
    ensures
      var result := Process(rt, r, max).1.value.coordinatorResult;
      result.Some? && !result.value.acknowledged ==> result.value.resolution.RevisionConflict?
  {
    Advance(rt.history, r);
  }

  // A returned request is labelled for redelivery exactly when the failure may succeed later
  // and the attempt budget is not known to be used up, and for dead-lettering otherwise.
  lemma RequestIsLabelled(rt: Runtime, r: Received, max: int)
    requires Process(rt, r, max).1.Ok? && Process(rt, r, max).1.value.redeliveryRequested
    ensures
      var result := Process(rt, r, max).1.value;
      && result.failure.Some? && result.disposition.Some?
      && ValidMaximum(max) && ValidAttempt(r.deliveryAttempt)
      && (result.disposition == Some(Redeliver) <==>
            result.failure.value in {Retryable, Unexpected}
            && (r.deliveryAttempt.None? || r.deliveryAttempt.value < max))
      && (result.failure == Some(Conflict) <==> MeetsConflict(rt.history.records, r))
  {
    if RecordFromEvent(r.event).Ok? && r.assessFault.None? && !Accepted(Verdict(rt.history.records, RecordFromEvent(r.event).value)) {
      assert Verdict(rt.history.records, RecordFromEvent(r.event).value) in {Duplicate, StaleRevision, RevisionConflict};
    }
  }

  // Returning or raising, a call performs both exactly when acknowledging settled content
  // raises the kept handler error object.
  lemma BothActionsIff(rt: Runtime, r: Received, max: int)
    requires Ready(rt) && ValidAttempt(r.deliveryAttempt) && ValidMaximum(max)
    ensures Acknowledges(rt, r, max) && Redelivers(rt, r, max) <==> AcknowledgementRaisesKept(rt, r)
  {
    Advance(rt.history, r);
  }

  // A redelivery is requested exactly for a failure of this call's own handler, for a
  // conflict, or for a kept error object raised again.
  lemma RedeliversIff(rt: Runtime, r: Received, max: int)
    requires Ready(rt) && ValidAttempt(r.deliveryAttempt) && ValidMaximum(max)
    ensures Redelivers(rt, r, max) <==>
      || (HandlerRuns(rt.history.records, r) && !r.handler.Succeeds?)
      || MeetsConflict(rt.history.records, r)
      || RaisesKeptError(rt, r)
  {
    if RecordFromEvent(r.event).Ok? {
      RecordIsGenuine(r.event);
      SettledIsDuplicateOrStale(rt.history.records, RecordFromEvent(r.event).value);
    }
  }

  // ---------- Every sequence of deliveries ----------

  function ProcessAll(rt: Runtime, rs: seq<Received>, max: int): Runtime {
    if rs == [] then rt
    else Process(ProcessAll(rt, rs[..|rs| - 1], max), rs[|rs| - 1], max).0
  }

  // No ledger or acknowledgement exception is an object an earlier handler call raised.
  ghost predicate DistinctExceptions(rs: seq<Received>) {
    forall i, j | 0 <= i < j < |rs| && !rs[i].handler.Succeeds? ::
      && rs[j].assessFault != Some(rs[i].handler.exception)
      && rs[j].ackFault != Some(rs[i].handler.exception)
  }

  lemma {:induction false} AlwaysReady(rs: seq<Received>, max: int)
    ensures Ready(ProcessAll(START, rs, max))
  {
    if rs != [] {
      AlwaysReady(rs[..|rs| - 1], max);
      SerialRuns.DeliverKeepsSerialInv(ProcessAll(START, rs[..|rs| - 1], max).history, DeliveryOf(rs[|rs| - 1]));
    }
  }

  ghost predicate RaisedByHandler(rs: seq<Received>, x: Exception) {
    exists i :: 0 <= i < |rs| && !rs[i].handler.Succeeds? && rs[i].handler.exception == x
  }

  lemma RaisedByEarlierHandler(rs: seq<Received>, r: Received, x: Exception)
    requires RaisedByHandler(rs, x) || (!r.handler.Succeeds? && r.handler.exception == x)
    ensures RaisedByHandler(rs + [r], x)
  {
    var all := rs + [r];
    assert all[|rs|] == r;
    if i :| 0 <= i < |rs| && !rs[i].handler.Succeeds? && rs[i].handler.exception == x {
      assert all[i] == rs[i];
    }
  }

  lemma ProcessKeepsHandlerError(rt: Runtime, r: Received, max: int)
    ensures Process(rt, r, max).0.handlerError == HandlerErrorAfter(rt, r)
    ensures Process(rt, r, max).0.history == SerialRuns.Deliver(rt.history, DeliveryOf(r))
  {
  }

  // The kept error object is always one an earlier delivery's handler raised.
  lemma {:induction false} KeptErrorIsFromEarlierHandler(rs: seq<Received>, max: int)
    ensures
      var kept := ProcessAll(START, rs, max).handlerError;
      kept.Some? ==> RaisedByHandler(rs, kept.value)
  {
    if rs != [] {
      var before, last := rs[..|rs| - 1], rs[|rs| - 1];
      KeptErrorIsFromEarlierHandler(before, max);
      var kept := ProcessAll(START, rs, max).handlerError;
      ProcessKeepsHandlerError(ProcessAll(START, before, max), last, max);
      if kept.Some? {
        RaisedByEarlierHandler(before, last, kept.value);
        assert rs == before + [last];
      }
    }
  }

  // After any deliveries, the next one performs at most one transport action, exactly one if
  // it returns, and requests redelivery only for its own handler failure or a conflict.
  lemma EveryDeliveryActsOnce(rs: seq<Received>, r: Received, max: int)
    requires DistinctExceptions(rs + [r]) && ValidAttempt(r.deliveryAttempt) && ValidMaximum(max)
    ensures
      var rt := ProcessAll(START, rs, max);
      && !(Acknowledges(rt, r, max) && Redelivers(rt, r, max))
      && (Process(rt, r, max).1.Ok? ==> Acknowledges(rt, r, max) || Redelivers(rt, r, max))
      && (Redelivers(rt, r, max) ==>
            (HandlerRuns(rt.history.records, r) && !r.handler.Succeeds?)
            || MeetsConflict(rt.history.records, r))
  {
    var rt := ProcessAll(START, rs, max);
    AlwaysReady(rs, max);
    KeptErrorIsFromEarlierHandler(rs, max);
    if rt.handlerError.Some? {
      var i :| 0 <= i < |rs| && !rs[i].handler.Succeeds? && rs[i].handler.exception == rt.handlerError.value;
      var all := rs + [r];
      assert all[i] == rs[i] && all[|rs|] == r;
    }
    assert !RaisesKeptError(rt, r);
    BothActionsIff(rt, r, max);
    RedeliversIff(rt, r, max);
    if Process(rt, r, max).1.Ok? {
      ReturningCallActsOnce(rt, r, max);
    }
  }

  // ---------- The kept error object at work ----------

  function Untroubled(e: CanonicalEvent): Received {
    Received(e, None, None, Succeeds, None, None, None)
  }

  lemma ProcessTwo(rt: Runtime, a: Received, b: Received, max: int)
    ensures ProcessAll(rt, [a], max) == Process(rt, a, max).0
    ensures ProcessAll(rt, [a, b], max) == Process(Process(rt, a, max).0, b, max).0
  {
    var one, two := [a], [a, b];
    assert one[..|one| - 1] == [] && two[..|two| - 1] == one;
    assert ProcessAll(rt, [], max) == rt;
  }

  // The event is processed without trouble from an empty ledger.
  lemma FirstIsRecorded(e: CanonicalEvent, max: int)
    requires RecordFromEvent(e).Ok?
    ensures
      var rt := Process(START, Untroubled(e), max).0;
      && Ready(rt) && rt.history.records == map[e.deduplicationKey := RecordFromEvent(e).value]
  {
    Advance(START.history, Untroubled(e));
    ProcessKeepsHandlerError(START, Untroubled(e), max);
  }

  // A failing handler changes no record and leaves its error object behind.
  lemma FailingHandlerIsKept(rt: Runtime, e: CanonicalEvent, x: Exception, max: int)
    requires Ready(rt) && HandlerRuns(rt.history.records, Untroubled(e))
    ensures
      var failing := Untroubled(e).(handler := RaisesBefore(x));
      var next := Process(rt, failing, max).0;
      Ready(next) && next.history.records == rt.history.records && next.handlerError == Some(x)
  {
    var failing := Untroubled(e).(handler := RaisesBefore(x));
    Advance(rt.history, failing);
    ProcessKeepsHandlerError(rt, failing, max);
  }

  // An event is processed, the handler fails on a newer revision of it with x, and the first
  // event is redelivered to a call whose acknowledgement raises the same x.
  lemma KeptErrorActsTwice(e: CanonicalEvent, newer: CanonicalEvent, x: Exception, max: int)
    requires ValidMaximum(max) && RecordFromEvent(e).Ok? && RecordFromEvent(newer).Ok?
    requires newer.deduplicationKey == e.deduplicationKey
    requires Older(RecordFromEvent(e).value, RecordFromEvent(newer).value)
    ensures
      var rt := ProcessAll(START, [Untroubled(e), Untroubled(newer).(handler := RaisesBefore(x))], max);
      var again := Untroubled(e).(ackFault := Some(x));
      Acknowledges(rt, again, max) && Redelivers(rt, again, max)
  {
    var failing, again := Untroubled(newer).(handler := RaisesBefore(x)), Untroubled(e).(ackFault := Some(x));
    ProcessTwo(START, Untroubled(e), failing, max);
    FirstIsRecorded(e, max);
    var one := Process(START, Untroubled(e), max).0;
    FailingHandlerIsKept(one, newer, x, max);
    BothActionsIff(Process(one, failing, max).0, again, max);
  }

  // Two revisions of one earthquake do it.
  lemma OneCallActsTwice(x: Exception, max: int)
    requires ValidMaximum(max)
    ensures
      var failing := Untroubled(SerialRuns.Quake(1)).(handler := RaisesBefore(x));
      var rt := ProcessAll(START, [Untroubled(SerialRuns.Quake(0)), failing], max);
      var again := Untroubled(SerialRuns.Quake(0)).(ackFault := Some(x));
      Acknowledges(rt, again, max) && Redelivers(rt, again, max)
  {
    SerialRuns.QuakeIsRecordable(0);
    SerialRuns.QuakeIsRecordable(1);
    KeptErrorActsTwice(SerialRuns.Quake(0), SerialRuns.Quake(1), x, max);
  }
}
