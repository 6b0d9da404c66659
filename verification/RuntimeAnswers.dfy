// What one delivery leaves in the ledger and in RAW and what the two coordinators answer,
// written out by case. Nothing here is used by them.
module RuntimeAnswers {
  import opened Wrappers
  import opened SortedKeys
  import opened Events
  import opened Ledger
  import opened CoreSelection
  import opened Coordinator
  import opened Disposition
  import Pipeline
  import SerialRuns

  // ---------- Records and rows of an event ----------

  predicate IsUsgsQuake(e: CanonicalEvent) {
    e.source.provider == "usgs" && e.eventType.SeismicDetection?
  }

  // Which events have a record, and what is in it: the event's key and identifier, and a
  // revision exactly for USGS seismic content, which must then be readable.
  lemma RecordMatchesEvent(e: CanonicalEvent)
    ensures
      var digest := DigestOf(Identity(e.source.provider, e.eventType, e.source.sourceEventId, e.eventTime));
      match RecordFromEvent(e)
      case Err(InconsistentKey) => e.deduplicationKey != digest
      case Err(RevisionContract) => e.deduplicationKey == digest && IsUsgsQuake(e) && !e.payload.reading.Seismic?
      case Err(_) => false
      case Ok(c) =>
        && c.key == e.deduplicationKey == digest && c.eventId == e.eventId
        && (if IsUsgsQuake(e)
            then e.payload.reading.Seismic? && c.revision == Some(e.payload.reading.seismic.sourceUpdatedAt)
            else c.revision.None?)
  {
  }

  // Two events have the same content exactly when provider, type, source identifier, time and
  // payload agree; nothing else counts.
  lemma SameFingerprintIff(a: CanonicalEvent, b: CanonicalEvent)
    ensures FingerprintOf(a) == FingerprintOf(b) <==>
      && a.source.provider == b.source.provider && a.eventType == b.eventType
      && a.source.sourceEventId == b.source.sourceEventId && a.eventTime == b.eventTime
      && a.payload == b.payload
    ensures RecordFromEvent(a).Ok? ==> RecordFromEvent(a).value.fingerprint == FingerprintOf(a)
  {
  }

  // The RAW row of an event, and when it cannot be built.
  lemma RowMatchesEvent(e: CanonicalEvent)
    ensures
      match MappedRow(e)
      case Err(_) => IsUsgsQuake(e) && !e.payload.reading.Seismic?
      case Ok(row) =>
        && row.eventId == e.eventId && row.key == e.deduplicationKey && row.ingestedAt == e.ingestedAt
        && row.fingerprint == FingerprintOf(e)
        && (if IsUsgsQuake(e)
            then e.payload.reading.Seismic? && row.revision == Some(e.payload.reading.seismic.sourceUpdatedAt)
            else row.revision.None?)
    ensures RecordFromEvent(e).Ok? ==> MappedRow(e) == Ok(Pipeline.RowOf(e, RecordFromEvent(e).value))
  {
  }

  // The taxonomy, written out over the stored row.
  lemma VerdictByCase(records: Records, c: LedgerRecord)
    ensures
      if c.key !in records then Verdict(records, c) == New
      else
        var stored := records[c.key];
        if stored.fingerprint == c.fingerprint then Verdict(records, c) == Duplicate
        else if stored.revision.Some? && c.revision.Some? && stored.revision.value < c.revision.value then
          Verdict(records, c) == NewerRevision
        else if stored.revision.Some? && c.revision.Some? && c.revision.value < stored.revision.value then
          Verdict(records, c) == StaleRevision
        else Verdict(records, c) == RevisionConflict
  {
  }

  // ---------- The coordinator ----------

  predicate Names(result: CoordinatorResult, e: CanonicalEvent, outcome: CoordinatorOutcome, resolution: Resolution, acknowledged: bool) {
    && result.outcome == outcome && result.resolution == resolution && result.acknowledged == acknowledged
    && result.eventId == e.eventId && result.key == e.deduplicationKey
  }

  // Acknowledged: the named result, or the acknowledger's exception.
  predicate AnswersAcknowledged(r: Received, answer: Result<CoordinatorResult, LedgerFailure>,
                                outcome: CoordinatorOutcome, resolution: Resolution)
  {
    match r.ackFault
    case Some(x) => answer == Err(Storage(x))
    case None => answer.Ok? && Names(answer.value, r.event, outcome, resolution, true)
  }

  // What process() returns or raises, by the ledger's verdict.
  lemma CoordinatorAnswers(records: Records, r: Received)
    ensures
      var answer := ProcessResult(records, r);
      match RecordFromEvent(r.event)
      case Err(error) => answer == Err(Inconsistent(error))
      case Ok(c) =>
        if r.assessFault.Some? then answer == Err(Storage(r.assessFault.value))
        else
          match Verdict(records, c)
          case Duplicate => AnswersAcknowledged(r, answer, DuplicateEvent, Duplicate)
          case StaleRevision => AnswersAcknowledged(r, answer, StaleEvent, StaleRevision)
          case RevisionConflict => answer.Ok? && Names(answer.value, r.event, ConflictingEvent, RevisionConflict, false)
          case New => AnswersHandled(r, answer, New)
          case NewerRevision => AnswersHandled(r, answer, NewerRevision)
  {
  }

  // Handled: the handler's exception, the ledger's, the acknowledger's, or a processed result.
  predicate AnswersHandled(r: Received, answer: Result<CoordinatorResult, LedgerFailure>, resolution: Resolution) {
    match r.handler
    case RaisesBefore(x) => answer == Err(Storage(x))
    case RaisesAfter(x) => answer == Err(Storage(x))
    case Succeeds =>
      match r.recordFault
      case Some(x) => answer == Err(Storage(x))
      case None => AnswersAcknowledged(r, answer, Processed, resolution)
  }

  // ---------- The runtime coordinator ----------

  predicate WithinBudget(r: Received, max: int) {
    r.deliveryAttempt.None? || r.deliveryAttempt.value < max
  }

  // One request was made for this very event, and answered so.
  predicate Requests(rt: Runtime, r: Received, max: int, failure: FailureKind, disposition: ProcessingDisposition) {
    var (after, answer) := Process(rt, r, max);
    && after.redelivered == rt.redelivered + [r.event]
    && match r.redeliveryFault
       case Some(x) => answer == Err(RequestFailed(x))
       case None =>
         && answer.Ok? && answer.value.redeliveryRequested
         && answer.value.failure == Some(failure) && answer.value.disposition == Some(disposition)
  }

  // An attempt number below one is refused before anything is requested.
  predicate Refuses(rt: Runtime, r: Received, max: int) {
    Process(rt, r, max).0.redelivered == rt.redelivered && Process(rt, r, max).1 == Err(InvalidAttempt)
  }

  predicate ReachesAttempt(r: Received) {
    r.deliveryAttempt.None? || r.deliveryAttempt.value >= 1
  }

  // A retryable or unknown exception is labelled for redelivery exactly within the attempt
  // budget, a permanent one never is.
  predicate RequestsByKind(rt: Runtime, r: Received, max: int, x: Exception) {
    if !ReachesAttempt(r) then Refuses(rt, r, max)
    else
      match x.kind
      case RetryableHandlerError =>
        Requests(rt, r, max, Retryable, if WithinBudget(r, max) then Redeliver else DeadLetter)
      case OtherError =>
        Requests(rt, r, max, Unexpected, if WithinBudget(r, max) then Redeliver else DeadLetter)
      case NonRetryableHandlerError => Requests(rt, r, max, NonRetryable, DeadLetter)
  }

  // The class of a handler failure is that of the exception it raised, which is kept.
  lemma HandlerFailureIsClassified(rt: Runtime, r: Received, max: int)
    requires 5 <= max <= 100 && HandlerRuns(rt.history.records, r) && !r.handler.Succeeds?
    ensures RequestsByKind(rt, r, max, r.handler.exception)
    ensures Process(rt, r, max).1.Ok? ==> Process(rt, r, max).1.value.coordinatorResult.None?
    ensures Process(rt, r, max).0.handlerError == Some(r.handler.exception)
  {
  }

  // So is a kept exception that another boundary raises again.
  lemma KeptErrorIsClassified(rt: Runtime, r: Received, max: int)
    requires 5 <= max <= 100 && RaisesKeptError(rt, r) && !MeetsConflict(rt.history.records, r)
    ensures RequestsByKind(rt, r, max, rt.handlerError.value)
    ensures Process(rt, r, max).1.Ok? ==> Process(rt, r, max).1.value.coordinatorResult.None?
    ensures Process(rt, r, max).0.handlerError == rt.handlerError
  {
    CoordinatorAnswers(rt.history.records, r);
  }

  // A conflict is requested as a dead letter, with the coordinator's result.
  lemma ConflictIsDeadLettered(rt: Runtime, r: Received, max: int)
    requires 5 <= max <= 100 && MeetsConflict(rt.history.records, r)
    ensures if ReachesAttempt(r) then Requests(rt, r, max, Conflict, DeadLetter) else Refuses(rt, r, max)
    ensures Process(rt, r, max).1.Ok? ==>
      var result := Process(rt, r, max).1.value.coordinatorResult;
      result.Some? && Names(result.value, r.event, ConflictingEvent, RevisionConflict, false)
  {
  }

  // Any other exception passes through as it is, with no request, unless it is the very object
  // kept from an earlier handler failure; an acknowledged result is returned as it is.
  lemma OtherOutcomesPassThrough(rt: Runtime, r: Received, max: int)
    requires !(HandlerRuns(rt.history.records, r) && !r.handler.Succeeds?) && !MeetsConflict(rt.history.records, r)
    requires !RaisesKeptError(rt, r)
    ensures
      var (after, answer) := Process(rt, r, max);
      && after.redelivered == rt.redelivered
      && match ProcessResult(rt.history.records, r)
         case Err(failure) => answer == Err(CoordinatorFailed(failure))
         case Ok(result) => result.acknowledged && answer == Ok(RuntimeResult(Some(result), None, None, false))
  {
    CoordinatorAnswers(rt.history.records, r);
  }
}
