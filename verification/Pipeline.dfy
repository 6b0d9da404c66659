// Any number of coordinators working on one shared ledger and one RAW log, with their four
// steps interleaved arbitrarily (processing/coordinator.py). Every step is one atomic effect
// of one coordinator; faults and crashes are part of the action.
module Pipeline {
  import opened Events
  import opened Ledger
  import opened CoreSelection

  // Where a coordinator stands inside one process() call; an absent worker is between calls.
  datatype Phase =
    | MustHandle(content: LedgerRecord, row: RawRow)
    | MustRecord(content: LedgerRecord)
    | MustAck(content: LedgerRecord, resolution: Resolution)

  // A load job may also time out after its rows were written.
  datatype HandlerOutcome = Appended | FailedBefore | FailedAfter

  datatype Action =
    | Assess(w: nat, event: CanonicalEvent, fault: bool)
    | Handle(w: nat, outcome: HandlerOutcome)
    | RecordSuccess(w: nat, fault: bool)
    | Acknowledge(w: nat, fault: bool)
    | Crash(w: nat)

  // standing is the ledger's own verdict at the moment of the return.
  datatype Ending =
    | Returned(content: LedgerRecord, resolution: Resolution, acknowledged: bool, standing: Resolution)
    | Raised

  // A handler call, with the number of recordings that had succeeded before it.
  datatype HandlerCall = HandlerCall(content: LedgerRecord, recordingsBefore: nat)

  datatype Recording = Recording(content: LedgerRecord, resolution: Resolution)

  // records, raw and workers are the system; the rest is history.
  datatype State = State(
    records: Records,
    raw: seq<RawRow>,
    workers: map<nat, Phase>,
    acks: seq<LedgerRecord>,        // contents whose acknowledgement was attempted
    endings: seq<Ending>,           // how each process() call ended
    calls: seq<HandlerCall>,        // handler calls
    recordings: seq<Recording>,     // record_success calls that returned
    awaiting: set<Fingerprint>)     // appended to RAW, not yet accounted for by a recording

  const INITIAL := State(map[], [], map[], [], [], [], [], {})

  function RowOf(e: CanonicalEvent, c: LedgerRecord): RawRow {
    RawRow(e.eventId, e.deduplicationKey, c.fingerprint, c.revision, e.ingestedAt)
  }

  function Idle(s: State, w: nat, ending: seq<Ending>): State {
    s.(workers := s.workers - {w}, endings := s.endings + ending)
  }

  function Return(s: State, c: LedgerRecord, v: Resolution, acknowledged: bool): Ending {
    Returned(c, v, acknowledged, Verdict(s.records, c))
  }

  function StepAssess(s: State, w: nat, e: CanonicalEvent, fault: bool): State {
    match RecordFromEvent(e)
    case Err(_) => Idle(s, w, [Raised])
    case Ok(c) =>
      if fault then Idle(s, w, [Raised])
      else
        var v := Verdict(s.records, c);
        if v.Duplicate? || v.StaleRevision? then s.(workers := s.workers[w := MustAck(c, v)])
        else if v.RevisionConflict? then Idle(s, w, [Return(s, c, v, false)])
        else s.(workers := s.workers[w := MustHandle(c, RowOf(e, c))])
  }

  function StepHandle(s: State, w: nat, c: LedgerRecord, row: RawRow, outcome: HandlerOutcome): State {
    var called := s.(calls := s.calls + [HandlerCall(c, |s.recordings|)]);
    var appended := called.(raw := s.raw + [row], awaiting := s.awaiting + {c.fingerprint});
    match outcome
    case Appended => appended.(workers := s.workers[w := MustRecord(c)])
    case FailedBefore => Idle(called, w, [Raised])
    case FailedAfter => Idle(appended, w, [Raised])
  }

  function StepRecord(s: State, w: nat, c: LedgerRecord, fault: bool): State {
    if fault then Idle(s, w, [Raised])
    else
      var v := Verdict(s.records, c);
      var recorded := s.(records := Record(s.records, c), recordings := s.recordings + [Recording(c, v)]);
      if v.RevisionConflict? then Idle(recorded, w, [Return(recorded, c, v, false)])
      else recorded.(
        awaiting := s.awaiting - {c.fingerprint},
        workers := s.workers[w := MustAck(c, v)])
  }

  function StepAck(s: State, w: nat, c: LedgerRecord, v: Resolution, fault: bool): State {
    Idle(s.(acks := s.acks + [c]), w, [if fault then Raised else Return(s, c, v, true)])
  }

  // An action that does not fit the worker's phase does nothing.
  function Step(s: State, a: Action): State {
    match a
    case Assess(w, e, fault) =>
      if w in s.workers then s else StepAssess(s, w, e, fault)
    case Handle(w, outcome) =>
      if w in s.workers && s.workers[w].MustHandle?
      then StepHandle(s, w, s.workers[w].content, s.workers[w].row, outcome) else s
    case RecordSuccess(w, fault) =>
      if w in s.workers && s.workers[w].MustRecord?
      then StepRecord(s, w, s.workers[w].content, fault) else s
    case Acknowledge(w, fault) =>
      if w in s.workers && s.workers[w].MustAck?
      then StepAck(s, w, s.workers[w].content, s.workers[w].resolution, fault) else s
    case Crash(w) => Idle(s, w, [])
  }

  function Run(s: State, actions: seq<Action>): State
    decreases |actions|
  {
    if actions == [] then s else Run(Step(s, actions[0]), actions[1..])
  }

  // ---------- The invariant of every interleaving ----------

  ghost predicate HasRow(raw: seq<RawRow>, f: Fingerprint) {
    exists r :: r in raw && r.fingerprint == f
  }

  ghost predicate PhaseOk(s: State, p: Phase) {
    && Genuine(p.content)
    && (p.MustHandle? ==> Genuine(Content(p.row)) && p.row.fingerprint == p.content.fingerprint)
    && (p.MustRecord? ==> HasRow(s.raw, p.content.fingerprint))
    && (p.MustAck? ==> Settled(s.records, p.content) && p.resolution != RevisionConflict)
  }

  ghost predicate StorageOk(s: State) {
    && WellFormed(s.records)
    && GenuineRows(s.raw)
    && (forall k | k in s.records :: HasRow(s.raw, s.records[k].fingerprint))
  }

  // A RAW row the ledger does not account for still awaits its recording.
  ghost predicate RowsOk(s: State) {
    forall r | r in s.raw :: Settled(s.records, Content(r)) || r.fingerprint in s.awaiting
  }

  ghost predicate WorkersOk(s: State) {
    forall w | w in s.workers :: PhaseOk(s, s.workers[w])
  }

  ghost predicate AcksOk(s: State) {
    forall c | c in s.acks :: Genuine(c) && Settled(s.records, c)
  }

  ghost predicate EndingOk(s: State, e: Ending) {
    e.Returned? ==>
      && Genuine(e.content)
      && (e.acknowledged <==> e.resolution != RevisionConflict)
      && e.standing in (if e.acknowledged then {Duplicate, StaleRevision} else {RevisionConflict})
      && (if e.acknowledged then Settled(s.records, e.content) else Rejected(s.records, e.content))
  }

  ghost predicate RecordingsOk(s: State) {
    && (forall r | r in s.recordings && r.resolution != RevisionConflict :: Genuine(r.content) && Settled(s.records, r.content))
    && (forall i, j | 0 <= i < j < |s.recordings| ::
          Accepted(s.recordings[i].resolution) && Accepted(s.recordings[j].resolution) ==>
          s.recordings[i].content.fingerprint != s.recordings[j].content.fingerprint)
  }

  ghost predicate Inv(s: State) {
    && StorageOk(s) && RowsOk(s) && WorkersOk(s) && AcksOk(s) && RecordingsOk(s)
    && (forall e | e in s.endings :: EndingOk(s, e))
  }

  lemma RowAppended(raw: seq<RawRow>, row: RawRow)
    ensures HasRow(raw + [row], row.fingerprint)
    ensures forall f | HasRow(raw, f) :: HasRow(raw + [row], f)
  {
    assert row in raw + [row];
    forall f | HasRow(raw, f) ensures HasRow(raw + [row], f) {
      var r :| r in raw && r.fingerprint == f;
      assert r in raw + [row];
    }
  }

  lemma AssessKeepsInv(s: State, w: nat, e: CanonicalEvent, fault: bool)
    requires Inv(s) && w !in s.workers
    ensures Inv(StepAssess(s, w, e, fault))
  {
    if RecordFromEvent(e).Ok? {
      RecordIsGenuine(e);
      SettledIsDuplicateOrStale(s.records, RecordFromEvent(e).value);
    }
  }

  lemma AppendKeepsTables(s: State, w: nat, outcome: HandlerOutcome)
    requires Inv(s) && w in s.workers && s.workers[w].MustHandle? && !outcome.FailedBefore?
    ensures
      var t := StepHandle(s, w, s.workers[w].content, s.workers[w].row, outcome);
      StorageOk(t) && RowsOk(t)
  {
    RowAppended(s.raw, s.workers[w].row);
  }

  lemma AppendKeepsLogs(s: State, w: nat, outcome: HandlerOutcome)
    requires Inv(s) && w in s.workers && s.workers[w].MustHandle? && !outcome.FailedBefore?
    ensures
      var t := StepHandle(s, w, s.workers[w].content, s.workers[w].row, outcome);
      WorkersOk(t) && AcksOk(t) && RecordingsOk(t) && forall e | e in t.endings :: EndingOk(t, e)
  {
    RowAppended(s.raw, s.workers[w].row);
  }

  lemma HandleKeepsInv(s: State, w: nat, outcome: HandlerOutcome)
    requires Inv(s) && w in s.workers && s.workers[w].MustHandle?
    ensures Inv(StepHandle(s, w, s.workers[w].content, s.workers[w].row, outcome))
  {
    if !outcome.FailedBefore? {
      AppendKeepsTables(s, w, outcome);
      AppendKeepsLogs(s, w, outcome);
    }
  }

  // A content accepted now was not settled, so no earlier accepted recording carries it.
  lemma AcceptedContentIsNew(s: State, c: LedgerRecord, i: nat)
    requires Inv(s) && Genuine(c) && Accepted(Verdict(s.records, c))
    requires i < |s.recordings| && Accepted(s.recordings[i].resolution)
    ensures s.recordings[i].content.fingerprint != c.fingerprint
  {
    assert s.recordings[i] in s.recordings;
  }

  // A recording that goes through unsettles nothing.
  lemma RecordingKeepsAllSettled(s: State, c: LedgerRecord)
    requires Inv(s) && Genuine(c)
    ensures forall other | Genuine(other) && Settled(s.records, other) :: Settled(Record(s.records, c), other)
  {
    forall other | Genuine(other) && Settled(s.records, other) ensures Settled(Record(s.records, c), other) {
      RecordSettles(s.records, c, other);
    }
  }

  lemma RecordingKeepsAllRejected(s: State, c: LedgerRecord)
    requires Inv(s) && Genuine(c)
    ensures forall other | Genuine(other) && Rejected(s.records, other) :: Rejected(Record(s.records, c), other)
  {
    forall other | Genuine(other) && Rejected(s.records, other) ensures Rejected(Record(s.records, c), other) {
      RecordKeepsRejected(s.records, c, other);
    }
  }

  lemma RecordKeepsTables(s: State, w: nat)
    requires Inv(s) && w in s.workers && s.workers[w].MustRecord?
    ensures
      var t := StepRecord(s, w, s.workers[w].content, false);
      StorageOk(t) && RowsOk(t)
  {
    var c := s.workers[w].content;
    var t := StepRecord(s, w, c, false);
    RecordingKeepsAllSettled(s, c);
    RecordSettles(s.records, c, c);
    RecordKeepsWellFormed(s.records, c);
    forall r | r in t.raw ensures Settled(t.records, Content(r)) || r.fingerprint in t.awaiting {
      assert Genuine(Content(r));
    }
  }

  lemma RecordKeepsLogs(s: State, w: nat)
    requires Inv(s) && w in s.workers && s.workers[w].MustRecord?
    ensures
      var t := StepRecord(s, w, s.workers[w].content, false);
      WorkersOk(t) && AcksOk(t)
  {
    var c := s.workers[w].content;
    RecordingKeepsAllSettled(s, c);
    RecordSettles(s.records, c, c);
  }

  lemma RecordKeepsEndings(s: State, w: nat)
    requires Inv(s) && w in s.workers && s.workers[w].MustRecord?
    ensures
      var t := StepRecord(s, w, s.workers[w].content, false);
      forall e | e in t.endings :: EndingOk(t, e)
  {
    var c := s.workers[w].content;
    RecordingKeepsAllSettled(s, c);
    RecordingKeepsAllRejected(s, c);
  }

  lemma RecordKeepsRecordings(s: State, w: nat)
    requires Inv(s) && w in s.workers && s.workers[w].MustRecord?
    ensures RecordingsOk(StepRecord(s, w, s.workers[w].content, false))
  {
    var c := s.workers[w].content;
    RecordingKeepsAllSettled(s, c);
    RecordSettles(s.records, c, c);
    forall i | 0 <= i < |s.recordings| && Accepted(s.recordings[i].resolution) && Accepted(Verdict(s.records, c))
      ensures s.recordings[i].content.fingerprint != c.fingerprint
    {
      AcceptedContentIsNew(s, c, i);
    }
  }

  lemma RecordKeepsInv(s: State, w: nat, fault: bool)
    requires Inv(s) && w in s.workers && s.workers[w].MustRecord?
    ensures Inv(StepRecord(s, w, s.workers[w].content, fault))
  {
    if !fault {
      RecordKeepsTables(s, w);
      RecordKeepsLogs(s, w);
      RecordKeepsEndings(s, w);
      RecordKeepsRecordings(s, w);
    }
  }

  lemma AckKeepsInv(s: State, w: nat, fault: bool)
    requires Inv(s) && w in s.workers && s.workers[w].MustAck?
    ensures Inv(StepAck(s, w, s.workers[w].content, s.workers[w].resolution, fault))
  {
    SettledIsDuplicateOrStale(s.records, s.workers[w].content);
  }

  lemma StepKeepsInv(s: State, a: Action)
    requires Inv(s)
    ensures Inv(Step(s, a))
  {
    match a
    case Assess(w, e, fault) => if w !in s.workers { AssessKeepsInv(s, w, e, fault); }
    case Handle(w, outcome) => if w in s.workers && s.workers[w].MustHandle? { HandleKeepsInv(s, w, outcome); }
    case RecordSuccess(w, fault) => if w in s.workers && s.workers[w].MustRecord? { RecordKeepsInv(s, w, fault); }
    case Acknowledge(w, fault) => if w in s.workers && s.workers[w].MustAck? { AckKeepsInv(s, w, fault); }
    case Crash(w) =>
  }

  lemma {:induction false} RunKeepsInv(s: State, actions: seq<Action>)
    requires Inv(s)
    ensures Inv(Run(s, actions))
    decreases |actions|
  {
    if actions != [] {
      StepKeepsInv(s, actions[0]);
      RunKeepsInv(Step(s, actions[0]), actions[1..]);
    }
  }

  lemma StepKeepsSettled(s: State, a: Action, c: LedgerRecord)
    requires Inv(s) && Genuine(c) && Settled(s.records, c)
    ensures Settled(Step(s, a).records, c)
  {
    if a.RecordSuccess? && a.w in s.workers {
      RecordSettles(s.records, s.workers[a.w].content, c);
    }
  }

  lemma {:induction false} RunKeepsSettled(s: State, actions: seq<Action>, c: LedgerRecord)
    requires Inv(s) && Genuine(c) && Settled(s.records, c)
    ensures Settled(Run(s, actions).records, c)
    decreases |actions|
  {
    if actions != [] {
      StepKeepsInv(s, actions[0]);
      StepKeepsSettled(s, actions[0], c);
      RunKeepsSettled(Step(s, actions[0]), actions[1..], c);
    }
  }

  // ---------- Safety of every interleaved run ----------

  // When an acknowledgement is due or has been attempted, the ledger holds that content or a
  // strictly newer revision of its key, and does so for the rest of the run.
  lemma AcknowledgementsAreSafe(actions: seq<Action>, later: seq<Action>, c: LedgerRecord)
    requires
      var s := Run(INITIAL, actions);
      c in s.acks || exists w :: w in s.workers && s.workers[w].MustAck? && s.workers[w].content == c
    ensures Settled(Run(INITIAL, actions).records, c)
    ensures Settled(Run(Run(INITIAL, actions), later).records, c)
  {
    RunKeepsInv(INITIAL, actions);
    RunKeepsSettled(Run(INITIAL, actions), later, c);
  }

  // No acknowledged content is in conflict with the ledger, now or at any later time.
  lemma ConflictsAreNeverAcknowledged(actions: seq<Action>, later: seq<Action>, c: LedgerRecord)
    requires c in Run(INITIAL, actions).acks
    ensures Verdict(Run(INITIAL, actions).records, c) in {Duplicate, StaleRevision}
    ensures Verdict(Run(Run(INITIAL, actions), later).records, c) in {Duplicate, StaleRevision}
  {
    var s := Run(INITIAL, actions);
    RunKeepsInv(INITIAL, actions);
    RunKeepsSettled(s, later, c);
    RunKeepsInv(s, later);
    SettledIsDuplicateOrStale(s.records, c);
    SettledIsDuplicateOrStale(Run(s, later).records, c);
  }

  lemma StepKeepsRejected(s: State, a: Action, c: LedgerRecord)
    requires Inv(s) && Genuine(c) && Rejected(s.records, c)
    ensures Rejected(Step(s, a).records, c)
  {
    if a.RecordSuccess? && a.w in s.workers {
      RecordKeepsRejected(s.records, s.workers[a.w].content, c);
    }
  }

  lemma {:induction false} RunKeepsRejected(s: State, actions: seq<Action>, c: LedgerRecord)
    requires Inv(s) && Genuine(c) && Rejected(s.records, c)
    ensures Rejected(Run(s, actions).records, c)
    decreases |actions|
  {
    if actions != [] {
      StepKeepsInv(s, actions[0]);
      StepKeepsRejected(s, actions[0], c);
      RunKeepsRejected(Step(s, actions[0]), actions[1..], c);
    }
  }

  // A call returns without acknowledging exactly when, at that moment, the shared ledger is in
  // conflict with its content; such content is never accepted later.
  lemma UnacknowledgedIffConflict(actions: seq<Action>, later: seq<Action>, e: Ending)
    requires e in Run(INITIAL, actions).endings && e.Returned?
    ensures !e.acknowledged <==> e.standing == RevisionConflict
    ensures e.acknowledged <==> e.standing in {Duplicate, StaleRevision}
    ensures !e.acknowledged ==> Rejected(Run(Run(INITIAL, actions), later).records, e.content)
  {
    RunKeepsInv(INITIAL, actions);
    if !e.acknowledged {
      RunKeepsRejected(Run(INITIAL, actions), later, e.content);
    }
  }

  // Even with concurrent coordinators the ledger accepts each content at most once.
  lemma EachContentIsAcceptedOnce(actions: seq<Action>, i: nat, j: nat)
    requires i < j < |Run(INITIAL, actions).recordings|
    requires Accepted(Run(INITIAL, actions).recordings[i].resolution)
    requires Accepted(Run(INITIAL, actions).recordings[j].resolution)
    ensures Run(INITIAL, actions).recordings[i].content.fingerprint != Run(INITIAL, actions).recordings[j].content.fingerprint
  {
    RunKeepsInv(INITIAL, actions);
  }

  lemma InvIsBacked(s: State)
    requires Inv(s)
    ensures Backed(s.records, s.raw)
  {
    forall k | k in s.records
      ensures exists r :: r in s.raw && r.fingerprint == s.records[k].fingerprint
    {
      assert HasRow(s.raw, s.records[k].fingerprint);
    }
  }

  // In every interleaving, CORE shows a key's ledger record exactly when the ledger accounts
  // for all RAW rows of the key; when it accounts for every row, CORE is the ledger. Nothing
  // awaiting its recording is one way to that.
  lemma CoreFollowsLedger(actions: seq<Action>)
    ensures
      var s := Run(INITIAL, actions);
      && (forall k | k in s.records :: Shows(s.raw, s.records[k]) <==> KeySettled(s.records, s.raw, k))
      && ((forall r | r in s.raw :: Settled(s.records, Content(r))) ==> CoreAgrees(s.records, s.raw))
      && (s.awaiting == {} ==> forall r | r in s.raw :: Settled(s.records, Content(r)))
  {
    var s := Run(INITIAL, actions);
    RunKeepsInv(INITIAL, actions);
    InvIsBacked(s);
    forall k | k in s.records
      ensures Shows(s.raw, s.records[k]) <==> KeySettled(s.records, s.raw, k)
    {
      AgreementIff(s.records, s.raw, k);
    }
    if forall r | r in s.raw :: Settled(s.records, Content(r)) {
      SettledViewAgrees(s.records, s.raw);
    }
  }

  // With an injective key digest, no key ever has both versioned and unversioned rows.
  lemma NoMixedRows(actions: seq<Action>, a: RawRow, b: RawRow)
    requires forall x, y | DigestOf(x) == DigestOf(y) :: x == y
    requires a in Run(INITIAL, actions).raw && b in Run(INITIAL, actions).raw && a.key == b.key
    ensures a.revision.Some? <==> b.revision.Some?
  {
    RunKeepsInv(INITIAL, actions);
    assert Genuine(Content(a)) && Genuine(Content(b));
  }
}
