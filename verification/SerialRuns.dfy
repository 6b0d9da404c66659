// One coordinator processing deliveries one after another, with arbitrary redelivery,
// handler failures, rolled-back recordings and acknowledgement failures.
module SerialRuns {
  import opened Wrappers
  import opened Events
  import opened Ledger
  import opened CoreSelection
  import opened Pipeline

  datatype Delivery = Delivery(
    event: CanonicalEvent, assessFault: bool, outcome: HandlerOutcome, recordFault: bool, ackFault: bool)

  // One process() call: the four steps in order, each skipped when it does not apply.
  function Script(d: Delivery): seq<Action> {
    [Assess(0, d.event, d.assessFault), Handle(0, d.outcome),
     RecordSuccess(0, d.recordFault), Acknowledge(0, d.ackFault)]
  }

  function Deliver(s: State, d: Delivery): State {
    Run(s, Script(d))
  }

  function DeliverAll(s: State, ds: seq<Delivery>): State
    decreases |ds|
  {
    if ds == [] then s else DeliverAll(Deliver(s, ds[0]), ds[1..])
  }

  function Scripts(ds: seq<Delivery>): seq<Action> {
    if ds == [] then [] else Script(ds[0]) + Scripts(ds[1..])
  }

  lemma {:induction false} RunConcat(s: State, a: seq<Action>, b: seq<Action>)
    ensures Run(s, a + b) == Run(Run(s, a), b)
    decreases |a|
  {
    if a == [] {
      assert a + b == b;
    } else {
      assert (a + b)[0] == a[0] && (a + b)[1..] == a[1..] + b;
      RunConcat(Step(s, a[0]), a[1..], b);
    }
  }

  // Serial processing is one of the interleavings.
  lemma {:induction false} SerialIsInterleaved(s: State, ds: seq<Delivery>)
    ensures DeliverAll(s, ds) == Run(s, Scripts(ds))
    decreases |ds|
  {
    if ds != [] {
      SerialIsInterleaved(Deliver(s, ds[0]), ds[1..]);
      RunConcat(s, Script(ds[0]), Scripts(ds[1..]));
    }
  }

  ghost predicate CallWasNeeded(s: State, h: HandlerCall) {
    && h.recordingsBefore <= |s.recordings|
    && forall i | 0 <= i < h.recordingsBefore :: s.recordings[i].content.fingerprint != h.content.fingerprint
  }

  // Only worker 0 is ever active, what it is handling is acceptable at that very moment, every
  // recording so far was an acceptance, and no handler call followed a recording of its content.
  ghost predicate SerialOk(s: State) {
    && (forall w | w in s.workers :: w == 0)
    && (0 in s.workers && !s.workers[0].MustAck? ==> Accepted(Verdict(s.records, s.workers[0].content)))
    && (forall r | r in s.recordings :: Accepted(r.resolution))
    && (forall h | h in s.calls :: CallWasNeeded(s, h))
  }

  ghost predicate SerialInv(s: State) {
    Inv(s) && SerialOk(s)
  }

  lemma HandleKeepsSerial(s: State, outcome: HandlerOutcome)
    requires SerialInv(s) && 0 in s.workers && s.workers[0].MustHandle?
    ensures SerialOk(StepHandle(s, 0, s.workers[0].content, s.workers[0].row, outcome))
  {
    var c := s.workers[0].content;
    var t := StepHandle(s, 0, c, s.workers[0].row, outcome);
    forall i | 0 <= i < |s.recordings| ensures s.recordings[i].content.fingerprint != c.fingerprint {
      assert s.recordings[i] in s.recordings;
      AcceptedContentIsNew(s, c, i);
    }
    forall h | h in t.calls ensures CallWasNeeded(t, h) {
      assert h in s.calls || h == HandlerCall(c, |s.recordings|);
    }
  }

  lemma RecordKeepsSerial(s: State, fault: bool)
    requires SerialInv(s) && 0 in s.workers && s.workers[0].MustRecord?
    ensures SerialOk(StepRecord(s, 0, s.workers[0].content, fault))
  {
    var t := StepRecord(s, 0, s.workers[0].content, fault);
    forall h | h in t.calls ensures CallWasNeeded(t, h) {
      assert CallWasNeeded(s, h);
    }
  }

  // The remaining steps change neither the ledger nor the logs SerialOk speaks about.
  lemma SameLogsKeepSerial(s: State, t: State)
    requires SerialOk(s)
    requires t.records == s.records && t.recordings == s.recordings && t.calls == s.calls
    requires forall w | w in t.workers :: w == 0
    requires 0 in t.workers && !t.workers[0].MustAck? ==>
      (0 in s.workers && t.workers[0] == s.workers[0]) || Accepted(Verdict(s.records, t.workers[0].content))
    ensures SerialOk(t)
  {
    forall h | h in t.calls ensures CallWasNeeded(t, h) {
      assert CallWasNeeded(s, h);
    }
  }

  lemma AssessKeepsSerial(s: State, e: CanonicalEvent, fault: bool)
    requires SerialInv(s) && 0 !in s.workers
    ensures SerialOk(StepAssess(s, 0, e, fault))
  {
    SameLogsKeepSerial(s, StepAssess(s, 0, e, fault));
  }

  lemma AckKeepsSerial(s: State, fault: bool)
    requires SerialInv(s) && 0 in s.workers && s.workers[0].MustAck?
    ensures SerialOk(StepAck(s, 0, s.workers[0].content, s.workers[0].resolution, fault))
  {
    SameLogsKeepSerial(s, StepAck(s, 0, s.workers[0].content, s.workers[0].resolution, fault));
  }

  lemma AssessKeepsSerialInv(s: State, e: CanonicalEvent, fault: bool)
    requires SerialInv(s) && 0 !in s.workers
    ensures SerialInv(StepAssess(s, 0, e, fault))
  {
    AssessKeepsInv(s, 0, e, fault);
    AssessKeepsSerial(s, e, fault);
  }

  lemma HandleKeepsSerialInv(s: State, outcome: HandlerOutcome)
    requires SerialInv(s) && 0 in s.workers && s.workers[0].MustHandle?
    ensures SerialInv(StepHandle(s, 0, s.workers[0].content, s.workers[0].row, outcome))
  {
    HandleKeepsInv(s, 0, outcome);
    HandleKeepsSerial(s, outcome);
  }

  lemma RecordKeepsSerialInv(s: State, fault: bool)
    requires SerialInv(s) && 0 in s.workers && s.workers[0].MustRecord?
    ensures SerialInv(StepRecord(s, 0, s.workers[0].content, fault))
  {
    RecordKeepsInv(s, 0, fault);
    RecordKeepsSerial(s, fault);
  }

  lemma AckKeepsSerialInv(s: State, fault: bool)
    requires SerialInv(s) && 0 in s.workers && s.workers[0].MustAck?
    ensures SerialInv(StepAck(s, 0, s.workers[0].content, s.workers[0].resolution, fault))
  {
    AckKeepsInv(s, 0, fault);
    AckKeepsSerial(s, fault);
  }

  // ---------- One delivery as the ordered call it is ----------

  // Handling, then recording, then acknowledging, each only if the step before allows it.
  function AfterAssessment(s: State, d: Delivery): State {
    if 0 !in s.workers then s
    else
      match s.workers[0]
      case MustAck(c, v) => StepAck(s, 0, c, v, d.ackFault)
      case MustHandle(c, row) => AfterHandling(StepHandle(s, 0, c, row, d.outcome), d)
      case MustRecord(_) => AfterHandling(s, d)
  }

  function AfterHandling(s: State, d: Delivery): State {
    if 0 in s.workers && s.workers[0].MustRecord?
    then AfterRecording(StepRecord(s, 0, s.workers[0].content, d.recordFault), d) else s
  }

  function AfterRecording(s: State, d: Delivery): State {
    if 0 in s.workers && s.workers[0].MustAck?
    then StepAck(s, 0, s.workers[0].content, s.workers[0].resolution, d.ackFault) else s
  }

  lemma RunOne(s: State, a: Action, rest: seq<Action>)
    ensures Run(s, [a] + rest) == Run(Step(s, a), rest)
  {
    assert ([a] + rest)[1..] == rest;
  }

  lemma RunRecording(s: State, d: Delivery)
    ensures Run(s, [Acknowledge(0, d.ackFault)]) == AfterRecording(s, d)
  {
    var a := [Acknowledge(0, d.ackFault)];
    assert a[1..] == [];
  }

  lemma RunHandling(s: State, d: Delivery)
    requires 0 in s.workers ==> s.workers[0].MustRecord?
    ensures Run(s, [RecordSuccess(0, d.recordFault), Acknowledge(0, d.ackFault)]) == AfterHandling(s, d)
  {
    var a := [Acknowledge(0, d.ackFault)];
    RunOne(s, RecordSuccess(0, d.recordFault), a);
    assert [RecordSuccess(0, d.recordFault)] + a == [RecordSuccess(0, d.recordFault), Acknowledge(0, d.ackFault)];
    RunRecording(Step(s, RecordSuccess(0, d.recordFault)), d);
  }

  lemma RunSettled(s: State, d: Delivery)
    requires 0 in s.workers && s.workers[0].MustAck?
    ensures Run(s, [RecordSuccess(0, d.recordFault), Acknowledge(0, d.ackFault)]) == AfterRecording(s, d)
  {
    var a := [Acknowledge(0, d.ackFault)];
    RunOne(s, RecordSuccess(0, d.recordFault), a);
    assert [RecordSuccess(0, d.recordFault)] + a == [RecordSuccess(0, d.recordFault), Acknowledge(0, d.ackFault)];
    RunRecording(s, d);
  }

  lemma RunAssessed(s: State, d: Delivery)
    requires 0 in s.workers ==> !s.workers[0].MustRecord?
    ensures Run(s, [Handle(0, d.outcome), RecordSuccess(0, d.recordFault), Acknowledge(0, d.ackFault)])
         == AfterAssessment(s, d)
  {
    var handle, a := Handle(0, d.outcome), [RecordSuccess(0, d.recordFault), Acknowledge(0, d.ackFault)];
    RunOne(s, handle, a);
    assert [handle] + a == [Handle(0, d.outcome), RecordSuccess(0, d.recordFault), Acknowledge(0, d.ackFault)];
    if 0 in s.workers && s.workers[0].MustAck? {
      RunSettled(s, d);
    } else {
      RunHandling(Step(s, handle), d);
    }
  }

  lemma DeliverIsOrdered(s: State, d: Delivery)
    requires 0 !in s.workers
    ensures Deliver(s, d) == AfterAssessment(StepAssess(s, 0, d.event, d.assessFault), d)
  {
    var assess := Assess(0, d.event, d.assessFault);
    var rest := [Handle(0, d.outcome), RecordSuccess(0, d.recordFault), Acknowledge(0, d.ackFault)];
    RunOne(s, assess, rest);
    assert Script(d) == [assess] + rest;
    RunAssessed(Step(s, assess), d);
  }

  // The delivery reaches the handler.
  predicate Handles(s: State, d: Delivery) {
    && RecordFromEvent(d.event).Ok? && !d.assessFault
    && Accepted(Verdict(s.records, RecordFromEvent(d.event).value))
  }

  // Which tables and logs one delivery changes, by case.
  lemma DeliverEffects(s: State, d: Delivery)
    requires s.workers == map[] && Inv(s)
    ensures
      var t := Deliver(s, d);
      var e := RecordFromEvent(d.event);
      if !Handles(s, d) then
        && t.records == s.records && t.raw == s.raw && t.calls == s.calls
        && t.acks == s.acks + (if e.Ok? && !d.assessFault && Settled(s.records, e.value) then [e.value] else [])
      else
        && t.calls == s.calls + [HandlerCall(e.value, |s.recordings|)]
        && t.raw == (if d.outcome.FailedBefore? then s.raw else s.raw + [RowOf(d.event, e.value)])
        && t.records == (if d.outcome.Appended? && !d.recordFault then Record(s.records, e.value) else s.records)
        && t.acks == s.acks + (if d.outcome.Appended? && !d.recordFault then [e.value] else [])
        && (!(d.outcome.Appended? && !d.recordFault) ==> t.recordings == s.recordings)
  {
    DeliverIsOrdered(s, d);
    if RecordFromEvent(d.event).Ok? {
      RecordIsGenuine(d.event);
      SettledIsDuplicateOrStale(s.records, RecordFromEvent(d.event).value);
    }
  }

  // Nothing awaits its recording, except the content being recorded.
  ghost predicate NothingStranded(s: State) {
    s.awaiting == if 0 in s.workers && s.workers[0].MustRecord? then {s.workers[0].content.fingerprint} else {}
  }

  predicate NeverStrands(d: Delivery) {
    !d.outcome.FailedAfter? && !d.recordFault
  }

  lemma RecordingEndsSerial(s: State, d: Delivery)
    requires SerialInv(s)
    requires 0 in s.workers ==> s.workers[0].MustAck?
    ensures SerialInv(AfterRecording(s, d)) && AfterRecording(s, d).workers == map[]
    ensures AfterRecording(s, d).awaiting == s.awaiting
  {
    if 0 in s.workers {
      AckKeepsSerialInv(s, d.ackFault);
    }
  }

  lemma HandlingEndsSerial(s: State, d: Delivery)
    requires SerialInv(s)
    requires 0 in s.workers ==> s.workers[0].MustRecord?
    ensures SerialInv(AfterHandling(s, d)) && AfterHandling(s, d).workers == map[]
    ensures NeverStrands(d) && NothingStranded(s) ==> AfterHandling(s, d).awaiting == {}
  {
    if 0 in s.workers {
      RecordKeepsSerialInv(s, d.recordFault);
      RecordingEndsSerial(StepRecord(s, 0, s.workers[0].content, d.recordFault), d);
    }
  }

  lemma AssessmentEndsSerial(s: State, d: Delivery)
    requires SerialInv(s)
    requires 0 in s.workers ==> !s.workers[0].MustRecord?
    ensures SerialInv(AfterAssessment(s, d)) && AfterAssessment(s, d).workers == map[]
    ensures NeverStrands(d) && NothingStranded(s) ==> AfterAssessment(s, d).awaiting == {}
  {
    if 0 in s.workers && s.workers[0].MustHandle? {
      HandleKeepsSerialInv(s, d.outcome);
      HandlingEndsSerial(StepHandle(s, 0, s.workers[0].content, s.workers[0].row, d.outcome), d);
    } else if 0 in s.workers {
      AckKeepsSerialInv(s, d.ackFault);
    }
  }

  lemma OrderedCallKeepsSerialInv(s: State, d: Delivery)
    requires SerialInv(s) && s.workers == map[]
    ensures
      var t := AfterAssessment(StepAssess(s, 0, d.event, d.assessFault), d);
      SerialInv(t) && t.workers == map[] && (NeverStrands(d) && s.awaiting == {} ==> t.awaiting == {})
  {
    AssessKeepsSerialInv(s, d.event, d.assessFault);
    AssessmentEndsSerial(StepAssess(s, 0, d.event, d.assessFault), d);
  }

  lemma DeliverKeepsSerialInv(s: State, d: Delivery)
    requires SerialInv(s) && s.workers == map[]
    ensures SerialInv(Deliver(s, d)) && Deliver(s, d).workers == map[]
    ensures NeverStrands(d) && s.awaiting == {} ==> Deliver(s, d).awaiting == {}
  {
    OrderedCallKeepsSerialInv(s, d);
    DeliverIsOrdered(s, d);
  }

  lemma {:induction false} DeliverAllKeepsSerialInv(s: State, ds: seq<Delivery>)
    requires SerialInv(s) && s.workers == map[]
    ensures SerialInv(DeliverAll(s, ds)) && DeliverAll(s, ds).workers == map[]
    ensures s.awaiting == {} && (forall d | d in ds :: NeverStrands(d)) ==>
      DeliverAll(s, ds).awaiting == {}
    decreases |ds|
  {
    if ds != [] {
      DeliverKeepsSerialInv(s, ds[0]);
      DeliverAllKeepsSerialInv(Deliver(s, ds[0]), ds[1..]);
    }
  }

  // Each content completes handler-then-recorded-success at most once.
  lemma SerialCompletesOnce(ds: seq<Delivery>, i: nat, j: nat)
    requires i < j < |DeliverAll(INITIAL, ds).recordings|
    ensures DeliverAll(INITIAL, ds).recordings[i].content.fingerprint
         != DeliverAll(INITIAL, ds).recordings[j].content.fingerprint
  {
    DeliverAllKeepsSerialInv(INITIAL, ds);
    var s := DeliverAll(INITIAL, ds);
    assert s.recordings[i] in s.recordings && s.recordings[j] in s.recordings;
  }

  // The handler is called again on a content only while no earlier call led to a recording.
  lemma SerialHandlesAgainOnlyAfterFailure(ds: seq<Delivery>, h: HandlerCall, i: nat)
    requires h in DeliverAll(INITIAL, ds).calls && i < h.recordingsBefore
    ensures i < |DeliverAll(INITIAL, ds).recordings|
    ensures DeliverAll(INITIAL, ds).recordings[i].content.fingerprint != h.content.fingerprint
  {
    DeliverAllKeepsSerialInv(INITIAL, ds);
  }

  // Whenever the ledger accounts for every RAW row, CORE is the ledger; serial processing
  // without a fault between append and recording is always there, whatever else fails.
  lemma SerialCoreAgrees(ds: seq<Delivery>)
    ensures
      var s := DeliverAll(INITIAL, ds);
      && ((forall r | r in s.raw :: Settled(s.records, Content(r))) ==> CoreAgrees(s.records, s.raw))
      && ((forall d | d in ds :: NeverStrands(d)) ==> forall r | r in s.raw :: Settled(s.records, Content(r)))
  {
    SerialIsInterleaved(INITIAL, ds);
    CoreFollowsLedger(Scripts(ds));
    DeliverAllKeepsSerialInv(INITIAL, ds);
  }

  // ---------- Handling one content again ----------

  // After a delivery of an acceptable event the next one calls the handler on it again exactly
  // when this one stopped before a committed recording.
  lemma HandledAgainIff(s: State, d: Delivery, again: Delivery)
    requires SerialInv(s) && s.workers == map[]
    requires RecordFromEvent(d.event).Ok? && Accepted(Verdict(s.records, RecordFromEvent(d.event).value))
    requires again.event == d.event && !again.assessFault
    ensures
      var t := Deliver(s, d);
      && (Accepted(Verdict(t.records, RecordFromEvent(d.event).value)) <==>
            d.assessFault || !d.outcome.Appended? || d.recordFault)
      && (|Deliver(t, again).calls| > |t.calls| <==> d.assessFault || !d.outcome.Appended? || d.recordFault)
  {
    var c := RecordFromEvent(d.event).value;
    RecordIsGenuine(d.event);
    DeliverEffects(s, d);
    DeliverKeepsSerialInv(s, d);
    RecordSettles(s.records, c, c);
    SettledIsDuplicateOrStale(Deliver(s, d).records, c);
    DeliverEffects(Deliver(s, d), again);
  }

  lemma DeliverTwo(s: State, a: Delivery, b: Delivery)
    ensures DeliverAll(s, [a, b]) == Deliver(Deliver(s, a), b)
  {
    assert [a, b][1..] == [b] && [b][1..] == [];
    assert DeliverAll(Deliver(s, a), [b]) == Deliver(Deliver(s, a), b);
  }

  // One coordinator suffices: a recording that is rolled back makes it handle the event twice.
  lemma RolledBackRecordingHandlesTwice(e: CanonicalEvent)
    requires RecordFromEvent(e).Ok?
    ensures
      var c, d := RecordFromEvent(e).value, Delivery(e, false, Appended, true, false);
      var s := DeliverAll(INITIAL, [d, d]);
      s.calls == [HandlerCall(c, 0), HandlerCall(c, 0)] && s.raw == [RowOf(e, c), RowOf(e, c)] && s.records == map[]
  {
    var d := Delivery(e, false, Appended, true, false);
    DeliverTwo(INITIAL, d, d);
    DeliverKeepsSerialInv(INITIAL, d);
    DeliverEffects(INITIAL, d);
    DeliverEffects(Deliver(INITIAL, d), d);
  }

  // ---------- CORE ahead of the ledger ----------

  // Revisions of one earthquake.
  function Quake(revision: Instant): CanonicalEvent {
    var source := Source("usgs", "quake");
    CanonicalEvent(0, SeismicDetection, 0, 0, source, None,
                   Payload("{}", Seismic(SeismicFields(0.0, 0.0, 5.0, revision))),
                   DigestOf(Identity("usgs", SeismicDetection, "quake", 0)))
  }

  lemma QuakeIsRecordable(revision: Instant)
    ensures RecordFromEvent(Quake(revision)).Ok?
    ensures RecordFromEvent(Quake(revision)).value.revision == Some(revision)
  {
  }

  lemma NewerRowHidesRecord(raw: seq<RawRow>, c: LedgerRecord, r: RawRow)
    requires r in raw && r.key == c.key && Older(c, Content(r))
    ensures !Shows(raw, c)
  {
  }

  // The second delivery of a newer revision stops between its append and its recording.
  lemma NewerRevisionLeftBehind(earlier: CanonicalEvent, later: CanonicalEvent)
    requires RecordFromEvent(earlier).Ok? && RecordFromEvent(later).Ok?
    requires earlier.deduplicationKey == later.deduplicationKey
    requires Older(RecordFromEvent(earlier).value, RecordFromEvent(later).value)
    ensures
      var s := DeliverAll(INITIAL, [Delivery(earlier, false, Appended, false, false), Delivery(later, false, Appended, true, false)]);
      && s.records == map[earlier.deduplicationKey := RecordFromEvent(earlier).value]
      && RowOf(later, RecordFromEvent(later).value) in s.raw
  {
    var first, second := Delivery(earlier, false, Appended, false, false), Delivery(later, false, Appended, true, false);
    DeliverTwo(INITIAL, first, second);
    DeliverKeepsSerialInv(INITIAL, first);
    DeliverEffects(INITIAL, first);
    DeliverEffects(Deliver(INITIAL, first), second);
  }

  // A newer revision appended to RAW whose recording is rolled back: CORE no longer shows what
  // the ledger recorded.
  lemma RolledBackRecordingHidesTheRecord()
    ensures
      var s := DeliverAll(INITIAL, [Delivery(Quake(0), false, Appended, false, false),
                                    Delivery(Quake(1), false, Appended, true, false)]);
      var k := Quake(0).deduplicationKey;
      k in s.records && !Shows(s.raw, s.records[k])
  {
    var older, newer := Quake(0), Quake(1);
    QuakeIsRecordable(0);
    QuakeIsRecordable(1);
    NewerRevisionLeftBehind(older, newer);
    var s := DeliverAll(INITIAL, [Delivery(older, false, Appended, false, false), Delivery(newer, false, Appended, true, false)]);
    NewerRowHidesRecord(s.raw, RecordFromEvent(older).value, RowOf(newer, RecordFromEvent(newer).value));
  }

  // Seriality is needed: two coordinators that both assessed a new event both handle it, the
  // second after the content was recorded. CORE still agrees afterwards.
  lemma ConcurrentCoordinatorsMayHandleTwice(e: CanonicalEvent) returns (actions: seq<Action>)
    requires RecordFromEvent(e).Ok?
    ensures HandledTwice(Run(INITIAL, actions), RecordFromEvent(e).value)
    ensures CoreAgrees(Run(INITIAL, actions).records, Run(INITIAL, actions).raw)
  {
    actions := RaceOnNewEvent(e);
    CoreFollowsLedger(actions);
  }

  ghost predicate HandledTwice(s: State, c: LedgerRecord) {
    && s.calls == [HandlerCall(c, 0), HandlerCall(c, 1)]
    && s.recordings == [Recording(c, New), Recording(c, Duplicate)]
    && |s.raw| == 2 && s.awaiting == {}
  }

  lemma RaceOnNewEvent(e: CanonicalEvent) returns (actions: seq<Action>)
    requires RecordFromEvent(e).Ok?
    ensures HandledTwice(Run(INITIAL, actions), RecordFromEvent(e).value)
  {
    var early := [Assess(0, e, false), Assess(1, e, false)];
    var first := [Handle(0, Appended), RecordSuccess(0, false)];
    var second := [Handle(1, Appended), RecordSuccess(1, false)];
    var c := RecordFromEvent(e).value;
    var assessed := BothAssess(e);
    FirstRecords(assessed, c, RowOf(e, c));
    var one := Run(assessed, first);
    SecondRecords(one, c, RowOf(e, c));
    actions := early + (first + second);
    assert Run(INITIAL, actions) == Run(one, second) by {
      RunConcat(INITIAL, early, first + second);
      RunConcat(assessed, first, second);
    }
  }

  lemma BothAssess(e: CanonicalEvent) returns (s: State)
    requires RecordFromEvent(e).Ok?
    ensures s == Run(INITIAL, [Assess(0, e, false), Assess(1, e, false)])
    ensures
      var c := RecordFromEvent(e).value;
      s == INITIAL.(workers := map[0 := MustHandle(c, RowOf(e, c)), 1 := MustHandle(c, RowOf(e, c))])
  {
    RunOne(INITIAL, Assess(0, e, false), [Assess(1, e, false)]);
    assert [Assess(0, e, false)] + [Assess(1, e, false)] == [Assess(0, e, false), Assess(1, e, false)];
    var one := Step(INITIAL, Assess(0, e, false));
    RunOne(one, Assess(1, e, false), []);
    assert [Assess(1, e, false)] + [] == [Assess(1, e, false)];
    s := Step(one, Assess(1, e, false));
  }

  lemma HandleThenRecord(s: State, w: nat, c: LedgerRecord, row: RawRow)
    requires w in s.workers && s.workers[w] == MustHandle(c, row)
    ensures Run(s, [Handle(w, Appended), RecordSuccess(w, false)])
         == StepRecord(StepHandle(s, w, c, row, Appended), w, c, false)
  {
    var record := RecordSuccess(w, false);
    RunOne(s, Handle(w, Appended), [record]);
    assert [Handle(w, Appended)] + [record] == [Handle(w, Appended), record];
    var handled := StepHandle(s, w, c, row, Appended);
    RunOne(handled, record, []);
    assert [record] + [] == [record];
  }

  lemma FirstRecords(s: State, c: LedgerRecord, row: RawRow)
    requires s == INITIAL.(workers := map[0 := MustHandle(c, row), 1 := MustHandle(c, row)])
    ensures
      var t := Run(s, [Handle(0, Appended), RecordSuccess(0, false)]);
      && 1 in t.workers && t.workers[1] == MustHandle(c, row) && t.records == map[c.key := c]
      && t.recordings == [Recording(c, New)] && t.calls == [HandlerCall(c, 0)]
      && t.raw == [row] && t.awaiting == {}
  {
    HandleThenRecord(s, 0, c, row);
  }

  lemma SecondRecords(s: State, c: LedgerRecord, row: RawRow)
    requires 1 in s.workers && s.workers[1] == MustHandle(c, row) && s.records == map[c.key := c] && s.awaiting == {}
    ensures
      var t := Run(s, [Handle(1, Appended), RecordSuccess(1, false)]);
      && t.recordings == s.recordings + [Recording(c, Duplicate)]
      && t.calls == s.calls + [HandlerCall(c, |s.recordings|)]
      && t.raw == s.raw + [row] && t.awaiting == {}
  {
    HandleThenRecord(s, 1, c, row);
  }
}
