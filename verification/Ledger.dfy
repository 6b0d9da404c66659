// The revision-aware processing ledger (processing/decisions.py, processing/ledger.py).
module Ledger {
  import opened Wrappers
  import opened SortedKeys
  import opened Events

  datatype Decision = NewEvent | DuplicateContent | RevisionCandidate

  datatype Resolution = New | Duplicate | NewerRevision | StaleRevision | RevisionConflict

  // Provider, event type, source event ID and event time are inside the fingerprint.
  datatype LedgerRecord = LedgerRecord(key: Key, fingerprint: Fingerprint, revision: Option<Instant>, eventId: nat)

  // One row per deduplication key (the table's primary key).
  type Records = map<Key, LedgerRecord>

  datatype Exception = Exception(id: nat, kind: ExceptionKind)

  datatype ExceptionKind = RetryableHandlerError | NonRetryableHandlerError | OtherError

  // A consistency error is raised on a newly built exception object; a storage error is
  // whatever object the database layer raises.
  datatype LedgerFailure = Inconsistent(error: ProcessingError) | Storage(exception: Exception)

  // ---------- What the code computes ----------

  function AssessEvent(e: CanonicalEvent, previous: Option<LedgerRecord>): Result<Decision, ProcessingError> {
    if e.deduplicationKey != DigestOf(IdentityOf(e)) then Err(InconsistentKey)
    else
      match previous
      case None => Ok(NewEvent)
      case Some(p) =>
        if p.key != e.deduplicationKey then Err(InconsistentKey)
        else if p.fingerprint == FingerprintOf(e) then Ok(DuplicateContent)
        else Ok(RevisionCandidate)
  }

  function RecordFromEvent(e: CanonicalEvent): Result<LedgerRecord, ProcessingError> {
    var _ :- AssessEvent(e, None);
    var revision :- SourceRevision(FingerprintOf(e));
    Ok(LedgerRecord(e.deduplicationKey, FingerprintOf(e), revision, e.eventId))
  }

  function ResolveRevisionCandidate(incoming: LedgerRecord, previous: LedgerRecord): Resolution {
    if incoming.revision.None? || previous.revision.None? then RevisionConflict
    else if incoming.revision.value > previous.revision.value then NewerRevision
    else if incoming.revision.value < previous.revision.value then StaleRevision
    else RevisionConflict
  }

  function Resolve(incoming: LedgerRecord, previous: Option<LedgerRecord>, decision: Decision)
    : Result<Resolution, ProcessingError>
  {
    match previous
    case None =>
      if decision != NewEvent then Err(InconsistentAssessment) else Ok(New)
    case Some(p) =>
      if decision == DuplicateContent then Ok(Duplicate)
      else if decision != RevisionCandidate then Err(InconsistentAssessment)
      else Ok(ResolveRevisionCandidate(incoming, p))
  }

  function Lookup(records: Records, k: Key): Option<LedgerRecord> {
    if k in records then Some(records[k]) else None
  }

  // Read the stored row for the key, take the two-stage decision, resolve it.
  function ResolveStored(records: Records, e: CanonicalEvent, incoming: LedgerRecord)
    : Result<Resolution, ProcessingError>
  {
    var previous := Lookup(records, incoming.key);
    var decision :- AssessEvent(e, previous);
    Resolve(incoming, previous, decision)
  }

  // ---------- What it means ----------

  // Key and revision of a genuine record are determined by its content.
  ghost predicate Genuine(c: LedgerRecord) {
    c.key == DigestOf(c.fingerprint.identity) && SourceRevision(c.fingerprint) == Ok(c.revision)
  }

  ghost predicate WellFormed(records: Records) {
    forall k | k in records :: records[k].key == k && Genuine(records[k])
  }

  // c comes strictly before stored in the source's own revision order.
  predicate Older(c: LedgerRecord, stored: LedgerRecord) {
    c.revision.Some? && stored.revision.Some? && c.revision.value < stored.revision.value
  }

  // The stored record already accounts for content c.
  predicate Covers(stored: LedgerRecord, c: LedgerRecord) {
    stored.fingerprint == c.fingerprint || Older(c, stored)
  }

  predicate Settled(records: Records, c: LedgerRecord) {
    c.key in records && Covers(records[c.key], c)
  }

  // The taxonomy of docs/processing/ledger.md.
  function Verdict(records: Records, c: LedgerRecord): Resolution {
    if c.key !in records then New
    else if records[c.key].fingerprint == c.fingerprint then Duplicate
    else if Older(records[c.key], c) then NewerRevision
    else if Older(c, records[c.key]) then StaleRevision
    else RevisionConflict
  }

  predicate Accepted(r: Resolution) {
    r.New? || r.NewerRevision?
  }

  function Record(records: Records, c: LedgerRecord): Records {
    if Accepted(Verdict(records, c)) then records[c.key := c] else records
  }

  // ---------- Lemmas about one assessment ----------

  lemma RecordIsGenuine(e: CanonicalEvent)
    requires RecordFromEvent(e).Ok?
    ensures Genuine(RecordFromEvent(e).value)
    ensures RecordFromEvent(e).value.key == e.deduplicationKey
  {
  }

  // The two-stage decision never meets its own inconsistency branch, and is the taxonomy.
  lemma AssessmentIsVerdict(records: Records, e: CanonicalEvent)
    requires WellFormed(records) && RecordFromEvent(e).Ok?
    ensures
      var c := RecordFromEvent(e).value;
      ResolveStored(records, e, c) == Ok(Verdict(records, c))
  {
  }

  lemma SettledIsDuplicateOrStale(records: Records, c: LedgerRecord)
    requires WellFormed(records) && Genuine(c)
    ensures Settled(records, c) <==> Verdict(records, c) in {Duplicate, StaleRevision}
  {
  }

  lemma RecordKeepsWellFormed(records: Records, c: LedgerRecord)
    requires WellFormed(records) && Genuine(c)
    ensures WellFormed(Record(records, c))
  {
  }

  // Recording settles the content exactly when it is not a conflict, and unsettles nothing.
  lemma RecordSettles(records: Records, c: LedgerRecord, other: LedgerRecord)
    requires WellFormed(records) && Genuine(c) && Genuine(other)
    ensures Settled(Record(records, c), c) <==> Verdict(records, c) != RevisionConflict
    ensures Settled(records, other) ==> Settled(Record(records, c), other)
  {
  }

  predicate Rejected(records: Records, c: LedgerRecord) {
    Verdict(records, c) in {RevisionConflict, StaleRevision}
  }

  // A rejected content is never accepted, nor found to be the stored one, later on.
  lemma RecordKeepsRejected(records: Records, c: LedgerRecord, other: LedgerRecord)
    requires WellFormed(records) && Genuine(c) && Genuine(other) && Rejected(records, other)
    ensures Rejected(Record(records, c), other)
  {
  }

  // ---------- The SQLite ledger ----------

  class SqliteProcessingLedger {
    var records: Records

    ghost predicate Valid()
      reads this
    {
      WellFormed(records)
    }

    constructor ()
      ensures Valid() && records == map[]
    {
      records := map[];
    }

    // Read-only: the resolution a recording would have at this moment.
    method Assess(e: CanonicalEvent, fault: Option<Exception>) returns (r: Result<Resolution, LedgerFailure>)
      requires Valid()
      ensures RecordFromEvent(e).Err? ==> r == Err(Inconsistent(RecordFromEvent(e).error))
      ensures RecordFromEvent(e).Ok? && fault.Some? ==> r == Err(Storage(fault.value))
      ensures RecordFromEvent(e).Ok? && fault.None? ==> r == Ok(Verdict(records, RecordFromEvent(e).value))
    {
      var incoming := RecordFromEvent(e);
      if incoming.Err? {
        return Err(Inconsistent(incoming.error));
      }
      if fault.Some? {
        return Err(Storage(fault.value));
      }
      AssessmentIsVerdict(records, e);
      return Ok(ResolveStored(records, e, incoming.value).value);
    }

    // BEGIN IMMEDIATE, re-read, insert or update, COMMIT; any exception rolls back.
    method RecordSuccess(e: CanonicalEvent, fault: Option<Exception>) returns (r: Result<Resolution, LedgerFailure>)
      requires Valid()
      modifies this
      ensures Valid()
      ensures RecordFromEvent(e).Err? ==> r == Err(Inconsistent(RecordFromEvent(e).error))
      ensures RecordFromEvent(e).Ok? && fault.Some? ==> r == Err(Storage(fault.value))
      ensures RecordFromEvent(e).Ok? && fault.None? ==> r == Ok(Verdict(old(records), RecordFromEvent(e).value))
      ensures records == if r.Ok? then Record(old(records), RecordFromEvent(e).value) else old(records)
    {
      var incoming := RecordFromEvent(e);
      if incoming.Err? {
        return Err(Inconsistent(incoming.error));
      }
      var before := records;
      AssessmentIsVerdict(records, e);
      r := Ok(ResolveStored(records, e, incoming.value).value);
      if r.Ok? && (r.value.New? || r.value.NewerRevision?) {
        records := records[incoming.value.key := incoming.value];
      }
      if fault.Some? {
        records := before;
        return Err(Storage(fault.value));
      }
    }
  }
}
