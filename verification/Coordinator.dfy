// The processing coordinator as the original runs it: a ledger, a handler appending to RAW
// and an acknowledger, called in a fixed order (processing/coordinator.py,
// warehouse/bigquery.py). Each call is proved to be one delivery of the step machine.
module Coordinator {
  import opened Wrappers
  import opened SortedKeys
  import opened Events
  import opened Ledger
  import opened CoreSelection
  import Pipeline
  import SerialRuns

  datatype HandlerBehaviour = Succeeds | RaisesBefore(exception: Exception) | RaisesAfter(exception: Exception)

  // One delivery, with what the environment will do at each boundary the call may reach.
  datatype Received = Received(
    event: CanonicalEvent,
    deliveryAttempt: Option<int>,
    assessFault: Option<Exception>,
    handler: HandlerBehaviour,
    recordFault: Option<Exception>,
    ackFault: Option<Exception>,
    redeliveryFault: Option<Exception>)

  datatype CoordinatorOutcome = Processed | DuplicateEvent | StaleEvent | ConflictingEvent

  datatype CoordinatorResult = CoordinatorResult(
    outcome: CoordinatorOutcome, resolution: Resolution, eventId: nat, key: Key, acknowledged: bool)

  datatype FailureKind = Retryable | NonRetryable | Conflict | Unexpected

  function ClassifyException(x: Exception): FailureKind {
    match x.kind
    case RetryableHandlerError => Retryable
    case NonRetryableHandlerError => NonRetryable
    case OtherError => Unexpected
  }

  function OutcomeFor(r: Resolution): CoordinatorOutcome {
    match r
    case Duplicate => DuplicateEvent
    case StaleRevision => StaleEvent
    case RevisionConflict => ConflictingEvent
    case _ => Processed
  }

  function ResultFor(e: CanonicalEvent, r: Resolution, acknowledged: bool): CoordinatorResult {
    CoordinatorResult(OutcomeFor(r), r, e.eventId, e.deduplicationKey, acknowledged)
  }

  // ---------- What one call amounts to ----------

  function OutcomeOf(h: HandlerBehaviour): Pipeline.HandlerOutcome {
    match h
    case Succeeds => Pipeline.Appended
    case RaisesBefore(_) => Pipeline.FailedBefore
    case RaisesAfter(_) => Pipeline.FailedAfter
  }

  function DeliveryOf(r: Received): SerialRuns.Delivery {
    SerialRuns.Delivery(r.event, r.assessFault.Some?, OutcomeOf(r.handler), r.recordFault.Some?, r.ackFault.Some?)
  }

  // The assessment succeeds and lets the handler run.
  predicate HandlerRuns(records: Records, r: Received) {
    && RecordFromEvent(r.event).Ok? && r.assessFault.None?
    && Accepted(Verdict(records, RecordFromEvent(r.event).value))
  }

  // A call that reaches the handler gets as far as a committed recording.
  predicate Commits(r: Received) {
    r.handler.Succeeds? && r.recordFault.None?
  }

  // The call acknowledges content already settled without running the handler.
  predicate AcknowledgesSettled(records: Records, r: Received) {
    && RecordFromEvent(r.event).Ok? && r.assessFault.None?
    && Verdict(records, RecordFromEvent(r.event).value) in {Duplicate, StaleRevision}
  }

  function Acknowledging(r: Received, v: Resolution): Result<CoordinatorResult, LedgerFailure> {
    if r.ackFault.Some? then Err(Storage(r.ackFault.value)) else Ok(ResultFor(r.event, v, true))
  }

  // The outcome once the assessment lets the handler run.
  function HandlingResult(r: Received, v: Resolution): Result<CoordinatorResult, LedgerFailure> {
    if !r.handler.Succeeds? then Err(Storage(r.handler.exception))
    else if r.recordFault.Some? then Err(Storage(r.recordFault.value))
    else Acknowledging(r, v)
  }

  // What process() returns or raises, given the ledger it starts from.
  function ProcessResult(records: Records, r: Received): Result<CoordinatorResult, LedgerFailure> {
    var c :- match RecordFromEvent(r.event)
      case Ok(c) => Ok(c)
      case Err(error) => Err(Inconsistent(error));
    if r.assessFault.Some? then Err(Storage(r.assessFault.value))
    else
      var v := Verdict(records, c);
      if v.RevisionConflict? then Ok(ResultFor(r.event, v, false))
      else if !Accepted(v) then Acknowledging(r, v)
      else HandlingResult(r, v)
  }

  // ---------- The objects ----------

  class RawEventSink {
    var rows: seq<RawRow>

    constructor ()
      ensures rows == []
    {
      rows := [];
    }

    // Append one load job; a failing job may or may not have written its rows. An empty batch
    // submits no job.
    method Append(batch: seq<RawRow>, behaviour: HandlerBehaviour) returns (raised: Option<Exception>)
      modifies this
      ensures rows == if batch == [] || behaviour.RaisesBefore? then old(rows) else old(rows) + batch
      ensures raised == if batch == [] || behaviour.Succeeds? then None else Some(behaviour.exception)
    {
      if batch == [] {
        return None;
      }
      if !behaviour.RaisesBefore? {
        rows := rows + batch;
      }
      return if behaviour.Succeeds? then None else Some(behaviour.exception);
    }
  }

  // The RAW row of an event; only the revision of its content can be missing.
  function MappedRow(e: CanonicalEvent): Result<RawRow, ProcessingError> {
    var revision :- SourceRevision(FingerprintOf(e));
    Ok(RawRow(e.eventId, e.deduplicationKey, FingerprintOf(e), revision, e.ingestedAt))
  }

  // The RAW handler inside the wrapper that keeps the last handler error and its class.
  class ClassifyingHandler {
    const sink: RawEventSink
    var error: Option<Exception>
    var failure: Option<FailureKind>

    ghost predicate Valid()
      reads this
    {
      failure == if error.Some? then Some(ClassifyException(error.value)) else None
    }

    constructor (sink: RawEventSink)
      ensures Valid() && this.sink == sink && error == None
    {
      this.sink := sink;
      error := None;
      failure := None;
    }

    // An event that cannot be mapped raises before any job is submitted.
    method Handle(e: CanonicalEvent, behaviour: HandlerBehaviour) returns (raised: Option<Exception>)
      requires MappedRow(e).Err? ==> behaviour.RaisesBefore? && behaviour.exception.kind.OtherError?
      modifies this, sink
      ensures Valid() && error == raised
      ensures raised == if behaviour.Succeeds? then None else Some(behaviour.exception)
      ensures sink.rows ==
        if behaviour.RaisesBefore? then old(sink.rows) else old(sink.rows) + [MappedRow(e).value]
    {
      error := None;
      failure := None;
      if MappedRow(e).Err? {
        raised := Some(behaviour.exception);
      } else {
        raised := sink.Append([MappedRow(e).value], behaviour);
      }
      if raised.Some? {
        error := raised;
        failure := Some(ClassifyException(raised.value));
      }
    }
  }

  // The subscription: acknowledgements and redelivery requests attempted so far.
  class Transport {
    var acknowledged: seq<CanonicalEvent>
    var redelivered: seq<CanonicalEvent>

    constructor ()
      ensures acknowledged == [] && redelivered == []
    {
      acknowledged := [];
      redelivered := [];
    }

    method Acknowledge(e: CanonicalEvent, fault: Option<Exception>) returns (raised: Option<Exception>)
      modifies this`acknowledged
      ensures acknowledged == old(acknowledged) + [e] && raised == fault
    {
      acknowledged := acknowledged + [e];
      raised := fault;
    }

    method RequestRedelivery(e: CanonicalEvent, fault: Option<Exception>) returns (raised: Option<Exception>)
      modifies this`redelivered
      ensures redelivered == old(redelivered) + [e] && raised == fault
    {
      redelivered := redelivered + [e];
      raised := fault;
    }
  }

  class ProcessingCoordinator {
    const ledger: SqliteProcessingLedger
    const handler: ClassifyingHandler
    const transport: Transport
    // The step machine's state after the deliveries processed so far.
    ghost var history: Pipeline.State

    ghost predicate Valid()
      reads this, ledger, handler, handler.sink
    {
      && ledger.Valid() && handler.Valid()
      && ledger.records == history.records
      && handler.sink.rows == history.raw
      && history.workers == map[]
      && SerialRuns.SerialInv(history)
    }

    constructor (ledger: SqliteProcessingLedger, handler: ClassifyingHandler, transport: Transport)
      requires ledger.Valid() && ledger.records == map[]
      requires handler.Valid() && handler.sink.rows == []
      ensures Valid() && history == Pipeline.INITIAL
      ensures this.ledger == ledger && this.handler == handler && this.transport == transport
    {
      this.ledger := ledger;
      this.handler := handler;
      this.transport := transport;
      history := Pipeline.INITIAL;
    }

    // assess, handle, record_success, acknowledge, with the early returns of the original.
    method Process(r: Received) returns (result: Result<CoordinatorResult, LedgerFailure>)
      requires Valid()
      modifies this, ledger, handler, handler.sink, transport`acknowledged
      ensures Valid()
      ensures history == SerialRuns.Deliver(old(history), DeliveryOf(r))
      ensures result == ProcessResult(old(ledger.records), r)
      ensures handler.error ==
        if HandlerRuns(old(ledger.records), r)
        then (if r.handler.Succeeds? then None else Some(r.handler.exception))
        else old(handler.error)
      ensures transport.acknowledged ==
        old(transport.acknowledged) + (if |history.acks| > |old(history.acks)| then [r.event] else [])
      ensures |history.acks| <= |old(history.acks)| + 1
    {
      Advance(history, r);
      history := SerialRuns.Deliver(history, DeliveryOf(r));

      var assessment := ledger.Assess(r.event, r.assessFault);
      if assessment.Err? {
        return Err(assessment.error);
      }
      var resolution := assessment.value;
      if resolution.Duplicate? || resolution.StaleRevision? {
        result := AcknowledgeWith(r, resolution);
        return;
      }
      if resolution.RevisionConflict? {
        return Ok(ResultFor(r.event, resolution, false));
      }
      result := HandleAndRecord(r);
    }

    // The rest of the call once the event was found new or newer.
    method HandleAndRecord(r: Received) returns (result: Result<CoordinatorResult, LedgerFailure>)
      requires ledger.Valid() && RecordFromEvent(r.event).Ok?
      requires Accepted(Verdict(ledger.records, RecordFromEvent(r.event).value))
      modifies ledger, handler, handler.sink, transport`acknowledged
      ensures ledger.Valid() && handler.Valid()
      ensures result == HandlingResult(r, Verdict(old(ledger.records), RecordFromEvent(r.event).value))
      ensures handler.error == if r.handler.Succeeds? then None else Some(r.handler.exception)
      ensures handler.sink.rows ==
        if r.handler.RaisesBefore? then old(handler.sink.rows)
        else old(handler.sink.rows) + [Pipeline.RowOf(r.event, RecordFromEvent(r.event).value)]
      ensures ledger.records ==
        if Commits(r) then Record(old(ledger.records), RecordFromEvent(r.event).value) else old(ledger.records)
      ensures transport.acknowledged == old(transport.acknowledged) + (if Commits(r) then [r.event] else [])
    {
      var handlerRaised := handler.Handle(r.event, r.handler);
      if handlerRaised.Some? {
        return Err(Storage(handlerRaised.value));
      }
      var recorded := ledger.RecordSuccess(r.event, r.recordFault);
      if recorded.Err? {
        return Err(recorded.error);
      }
      var resolution := recorded.value;
      // Only another coordinator's recording in between can make this a conflict.
      if resolution.RevisionConflict? {
        return Ok(ResultFor(r.event, resolution, false));
      }
      result := AcknowledgeWith(r, resolution);
    }

    method AcknowledgeWith(r: Received, v: Resolution) returns (result: Result<CoordinatorResult, LedgerFailure>)
      modifies transport`acknowledged
      ensures transport.acknowledged == old(transport.acknowledged) + [r.event]
      ensures result == Acknowledging(r, v)
    {
      var raised := transport.Acknowledge(r.event, r.ackFault);
      if raised.Some? {
        return Err(Storage(raised.value));
      }
      return Ok(ResultFor(r.event, v, true));
    }
  }

  // ---------- One delivery, as the objects see it ----------

  // What one delivery does to the step machine's tables, in terms of the call.
  lemma Advance(s: Pipeline.State, r: Received)
    requires s.workers == map[] && SerialRuns.SerialInv(s)
    ensures
      var t := SerialRuns.Deliver(s, DeliveryOf(r));
      var e := RecordFromEvent(r.event);
      && SerialRuns.SerialInv(t) && t.workers == map[]
      && (if !HandlerRuns(s.records, r) then
            && t.records == s.records && t.raw == s.raw
            && |t.acks| == |s.acks| + (if AcknowledgesSettled(s.records, r) then 1 else 0)
          else
            && t.raw == (if r.handler.RaisesBefore? then s.raw else s.raw + [Pipeline.RowOf(r.event, e.value)])
            && t.records == (if Commits(r) then Record(s.records, e.value) else s.records)
            && |t.acks| == |s.acks| + (if Commits(r) then 1 else 0))
  {
    SerialRuns.DeliverKeepsSerialInv(s, DeliveryOf(r));
    SerialRuns.DeliverEffects(s, DeliveryOf(r));
    if RecordFromEvent(r.event).Ok? {
      RecordIsGenuine(r.event);
      SettledIsDuplicateOrStale(s.records, RecordFromEvent(r.event).value);
    }
  }
}
