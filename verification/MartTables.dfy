// The MART history and current tables under any sequence of batch loads, each of which may
// fail before or after taking effect (warehouse/bigquery.py).
module MartTables {
  import opened Wrappers

  datatype LoadOutcome = Completes | FailsBefore | FailsAfter

  datatype Tables<T> = Tables(history: seq<T>, current: seq<T>)

  // One batch run as the tables see it; no batch when computing it failed.
  datatype Load<T> = Load(batch: Option<seq<T>>, append: LoadOutcome, replace: LoadOutcome)

  // Whether a load job changes its table; an empty batch submits no job.
  predicate TakesEffect<T>(batch: seq<T>, outcome: LoadOutcome) {
    |batch| != 0 && !outcome.FailsBefore?
  }

  predicate Raises<T>(batch: seq<T>, outcome: LoadOutcome) {
    |batch| != 0 && !outcome.Completes?
  }

  // Append to history, then replace current.
  function Apply<T>(t: Tables<T>, l: Load<T>): Tables<T> {
    match l.batch
    case None => t
    case Some(batch) =>
      var appended := if TakesEffect(batch, l.append) then t.(history := t.history + batch) else t;
      if Raises(batch, l.append) then appended
      else if TakesEffect(batch, l.replace) then appended.(current := batch)
      else appended
  }

  function ApplyAll<T>(loads: seq<Load<T>>): Tables<T> {
    if loads == [] then Tables([], [])
    else Apply(ApplyAll(loads[..|loads| - 1]), loads[|loads| - 1])
  }

  // The batch a load left in history.
  function AppendedBy<T>(l: Load<T>): seq<T> {
    if l.batch.Some? && TakesEffect(l.batch.value, l.append) then l.batch.value else []
  }

  function AllAppended<T>(loads: seq<Load<T>>): seq<T> {
    if loads == [] then [] else AllAppended(loads[..|loads| - 1]) + AppendedBy(loads[|loads| - 1])
  }

  // History is exactly the appended batches in order: no row is lost, split or rewritten.
  lemma {:induction false} HistoryIsAllAppended<T>(loads: seq<Load<T>>)
    ensures ApplyAll(loads).history == AllAppended(loads)
  {
    if loads != [] {
      HistoryIsAllAppended(loads[..|loads| - 1]);
    }
  }

  // The current table is empty or exactly the batch of one load, which is also in history.
  lemma {:induction false} CurrentIsOneWholeBatch<T>(loads: seq<Load<T>>)
    ensures ApplyAll(loads).current == [] || exists l :: l in loads && ApplyAll(loads).current == AppendedBy(l)
  {
    if loads != [] {
      var before, last := loads[..|loads| - 1], loads[|loads| - 1];
      CurrentIsOneWholeBatch(before);
      assert ApplyAll(loads).current == ApplyAll(before).current || ApplyAll(loads).current == AppendedBy(last);
      assert loads == before + [last] && last in loads;
    }
  }

  lemma {:induction false} AppendedIsInHistory<T>(loads: seq<Load<T>>, l: Load<T>, row: T)
    requires l in loads && row in AppendedBy(l)
    ensures row in AllAppended(loads)
  {
    var before, last := loads[..|loads| - 1], loads[|loads| - 1];
    assert loads == before + [last];
    if l != last {
      AppendedIsInHistory(before, l, row);
    }
  }

  // Whatever loads failed, every current row is in history.
  lemma CurrentIsInHistory<T>(loads: seq<Load<T>>, row: T)
    requires row in ApplyAll(loads).current
    ensures row in ApplyAll(loads).history
  {
    CurrentIsOneWholeBatch(loads);
    HistoryIsAllAppended(loads);
    var l :| l in loads && ApplyAll(loads).current == AppendedBy(l);
    AppendedIsInHistory(loads, l, row);
  }

  // A load without rows changes neither table.
  lemma EmptyBatchChangesNothing<T>(t: Tables<T>, l: Load<T>)
    ensures l.batch.None? || l.batch == Some([]) ==> Apply(t, l) == t
  {
  }

  // ---------- Which batch is current ----------

  // The load has rows, got past its append, and its replacement took effect.
  predicate Replaces<T>(l: Load<T>) {
    l.batch.Some? && |l.batch.value| > 0 && l.append.Completes? && (l.replace.Completes? || l.replace.FailsAfter?)
  }

  // One load, by case.
  lemma LoadEffect<T>(t: Tables<T>, l: Load<T>)
    ensures Replaces(l) ==> Apply(t, l) == Tables(t.history + l.batch.value, l.batch.value)
    ensures !Replaces(l) ==> Apply(t, l).current == t.current
    ensures l.batch.Some? && (l.append.Completes? || l.append.FailsAfter?) ==> Apply(t, l).history == t.history + l.batch.value
    ensures l.batch.None? || l.append.FailsBefore? ==> Apply(t, l) == t
  {
  }

  // After any loads the current table is the batch of the last one that replaced it, and empty
  // when none did.
  lemma {:induction false} CurrentIsLastReplacement<T>(loads: seq<Load<T>>)
    ensures (forall i | 0 <= i < |loads| :: !Replaces(loads[i])) ==> ApplyAll(loads).current == []
    ensures forall i | 0 <= i < |loads| && Replaces(loads[i]) && (forall j | i < j < |loads| :: !Replaces(loads[j])) ::
      ApplyAll(loads).current == loads[i].batch.value
  {
    if loads != [] {
      var before, last := loads[..|loads| - 1], loads[|loads| - 1];
      CurrentIsLastReplacement(before);
      LoadEffect(ApplyAll(before), last);
      assert forall i | 0 <= i < |before| :: before[i] == loads[i];
      assert loads[|loads| - 1] == last;
    }
  }
}
