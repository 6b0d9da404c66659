// The supplier risk batch service (warehouse/bigquery.py): compute every assessment, append
// the batch to history, then replace the current snapshot.
module RiskMart {
  import opened Wrappers
  import opened Events
  import opened RiskModels
  import opened RiskEngine
  import opened RiskProperties
  import opened RiskInputs
  import opened MartTables

  datatype BatchError = ReadFailed | AssessmentFailed(error: AssessmentError) | LoadFailed

  // ---------- One batch ----------

  // Assess every supplier, raising on the first failure.
  function AssessAll(c: RiskConfig, suppliers: seq<Supplier>, es: seq<CanonicalEvent>, at: Instant)
    : Result<seq<Assessment>, AssessmentError>
    requires ConfigAccepted(c)
  {
    Traverse((s: Supplier) => Assess(c, s, es, at), suppliers)
  }

  // A batch over the bounded read is the batch over all CORE events; only the kind of
  // failure can differ, and only over a zero threshold.
  lemma BatchOverBoundedRead(reader: RiskConfig, c: RiskConfig, suppliers: seq<Supplier>, at: Instant,
                             core: seq<CanonicalEvent>, rows: seq<CanonicalEvent>)
    requires ConfigAccepted(c) && Horizon(reader) >= Horizon(c) && Answers(reader, at, core, rows)
    ensures
      var bounded, whole := AssessAll(c, suppliers, rows, at), AssessAll(c, suppliers, core, at);
      (bounded == whole || (bounded.Err? && whole.Err?)) && (Divisible(c) ==> bounded == whole)
  {
    forall s: Supplier
      ensures SameUpToFailure(Assess(c, s, rows, at), Assess(c, s, core, at))
      ensures Divisible(c) ==> Assess(c, s, rows, at) == Assess(c, s, core, at)
    {
      BoundedReadIsTransparent(reader, c, s, at, core, rows);
    }
    TraverseAgrees((s: Supplier) => Assess(c, s, rows, at), (s: Supplier) => Assess(c, s, core, at), suppliers);
  }

  // What the reader's two queries answer, if they do, and how the two load jobs end.
  datatype BatchRun = BatchRun(
    suppliers: Option<seq<Supplier>>, events: Option<seq<CanonicalEvent>>, at: Instant,
    append: LoadOutcome, replace: LoadOutcome)

  function Batch(c: RiskConfig, r: BatchRun): Result<seq<Assessment>, BatchError>
    requires ConfigAccepted(c)
  {
    if r.suppliers.None? || r.events.None? then Err(ReadFailed)
    else
      match AssessAll(c, r.suppliers.value, r.events.value, r.at)
      case Err(error) => Err(AssessmentFailed(error))
      case Ok(batch) => Ok(batch)
  }

  function LoadOf(c: RiskConfig, r: BatchRun): Load<Assessment>
    requires ConfigAccepted(c)
  {
    Load(if Batch(c, r).Ok? then Some(Batch(c, r).value) else None, r.append, r.replace)
  }

  function BatchResult(c: RiskConfig, r: BatchRun): Result<seq<Assessment>, BatchError>
    requires ConfigAccepted(c)
  {
    var batch :- Batch(c, r);
    if Raises(batch, r.append) || Raises(batch, r.replace) then Err(LoadFailed) else Ok(batch)
  }

  class RiskAssessmentMartLoader {
    var history: seq<Assessment>
    var current: seq<Assessment>

    constructor ()
      ensures history == [] && current == []
    {
      history := [];
      current := [];
    }

    ghost function Contents(): Tables<Assessment>
      reads this
    {
      Tables(history, current)
    }

    method AppendHistory(batch: seq<Assessment>, outcome: LoadOutcome) returns (raised: bool)
      modifies this`history
      ensures raised <==> batch != [] && !outcome.Completes?
      ensures history == if outcome.FailsBefore? then old(history) else old(history) + batch
    {
      if batch == [] {
        return false;
      }
      if !outcome.FailsBefore? {
        history := history + batch;
      }
      return !outcome.Completes?;
    }

    method ReplaceCurrent(batch: seq<Assessment>, outcome: LoadOutcome) returns (raised: bool)
      modifies this`current
      ensures raised <==> batch != [] && !outcome.Completes?
      ensures current == if batch == [] || outcome.FailsBefore? then old(current) else batch
    {
      if batch == [] {
        return false;
      }
      if !outcome.FailsBefore? {
        current := batch;
      }
      return !outcome.Completes?;
    }
  }

  class SupplierRiskBatchService {
    const engine: SupplierRiskEngine
    const mart: RiskAssessmentMartLoader

    constructor (engine: SupplierRiskEngine, mart: RiskAssessmentMartLoader)
      ensures this.engine == engine && this.mart == mart
    {
      this.engine := engine;
      this.mart := mart;
    }

    method Run(r: BatchRun) returns (result: Result<seq<Assessment>, BatchError>)
      requires ConfigAccepted(engine.config)
      modifies mart
      ensures mart.Contents() == Apply(old(mart.Contents()), LoadOf(engine.config, r))
      ensures result == BatchResult(engine.config, r)
      ensures result.Ok? ==> mart.history == old(mart.history) + result.value
      ensures result.Ok? ==> mart.current == if result.value == [] then old(mart.current) else result.value
      ensures result.Err? && !result.error.LoadFailed? ==> mart.Contents() == old(mart.Contents())
    {
      if r.suppliers.None? || r.events.None? {
        return Err(ReadFailed);
      }
      var assessed := AssessSuppliers(r.suppliers.value, r.events.value, r.at);
      if assessed.Err? {
        return Err(AssessmentFailed(assessed.error));
      }
      var batch := assessed.value;
      var raised := mart.AppendHistory(batch, r.append);
      if raised {
        return Err(LoadFailed);
      }
      raised := mart.ReplaceCurrent(batch, r.replace);
      if raised {
        return Err(LoadFailed);
      }
      return Ok(batch);
    }

    method AssessSuppliers(suppliers: seq<Supplier>, events: seq<CanonicalEvent>, at: Instant)
      returns (result: Result<seq<Assessment>, AssessmentError>)
      requires ConfigAccepted(engine.config)
      ensures result == AssessAll(engine.config, suppliers, events, at)
    {
      var batch: seq<Assessment> := [];
      ghost var assess := (s: Supplier) => Assess(engine.config, s, events, at);
      for n := 0 to |suppliers|
        invariant AssessAll(engine.config, suppliers[..n], events, at) == Ok(batch)
      {
        TraverseStep(assess, suppliers, n);
        var assessed := engine.AssessSupplier(suppliers[n], events, at);
        if assessed.Err? {
          FirstFailureDecides(assess, suppliers, n + 1);
          return Err(assessed.error);
        }
        batch := batch + [assessed.value];
      }
      assert suppliers[..|suppliers|] == suppliers;
      return Ok(batch);
    }
  }

  // What a run answers, by case: the first read, the first supplier or the first load to fail
  // decides, and an empty batch loads nothing.
  lemma RunAnswers(c: RiskConfig, r: BatchRun)
    requires ConfigAccepted(c)
    ensures
      var answer := BatchResult(c, r);
      if r.suppliers.None? || r.events.None? then answer == Err(ReadFailed)
      else if AssessAll(c, r.suppliers.value, r.events.value, r.at).Err? then
        answer == Err(AssessmentFailed(AssessAll(c, r.suppliers.value, r.events.value, r.at).error))
      else
        var batch := AssessAll(c, r.suppliers.value, r.events.value, r.at).value;
        if |batch| == 0 || (r.append.Completes? && r.replace.Completes?) then answer == Ok(batch)
        else answer == Err(LoadFailed)
  {
  }

  // A run that returns has appended its batch and, unless it is empty, made it current.
  lemma ReturningRunIsCurrent(c: RiskConfig, t: Tables<Assessment>, r: BatchRun)
    requires ConfigAccepted(c) && BatchResult(c, r).Ok?
    ensures
      var batch := BatchResult(c, r).value;
      && Apply(t, LoadOf(c, r)).history == t.history + batch
      && Apply(t, LoadOf(c, r)).current == if |batch| == 0 then t.current else batch
  {
    RunAnswers(c, r);
    LoadEffect(t, LoadOf(c, r));
  }

  // ---------- Every sequence of batches ----------

  function LoadsOf(c: RiskConfig, runs: seq<BatchRun>): (loads: seq<Load<Assessment>>)
    requires ConfigAccepted(c)
    ensures |loads| == |runs| && forall i | 0 <= i < |runs| :: loads[i] == LoadOf(c, runs[i])
  {
    seq(|runs|, i requires 0 <= i < |runs| => LoadOf(c, runs[i]))
  }

  // All current rows come from one run: one time, one set of events, one row per supplier.
  lemma CurrentIsOneAssessment(c: RiskConfig, runs: seq<BatchRun>)
    requires ConfigAccepted(c)
    ensures
      var current := ApplyAll(LoadsOf(c, runs)).current;
      current == [] || exists r :: r in runs && IsBatchOf(c, r, current)
  {
    var loads := LoadsOf(c, runs);
    CurrentIsOneWholeBatch(loads);
    var current := ApplyAll(loads).current;
    if current != [] {
      var l :| l in loads && current == AppendedBy(l);
      var n :| 0 <= n < |loads| && loads[n] == l;
      var r := runs[n];
      TraverseIsPointwise((s: Supplier) => Assess(c, s, r.events.value, r.at), r.suppliers.value);
      assert IsBatchOf(c, r, current);
    }
  }

  ghost predicate IsBatchOf(c: RiskConfig, r: BatchRun, rows: seq<Assessment>)
    requires ConfigAccepted(c)
  {
    && r.suppliers.Some? && r.events.Some? && |rows| == |r.suppliers.value|
    && forall i | 0 <= i < |rows| :: Assess(c, r.suppliers.value[i], r.events.value, r.at) == Ok(rows[i])
  }
}
