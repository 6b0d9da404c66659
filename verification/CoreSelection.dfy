// The reference definition of the CORE "current" view over the RAW append log
// (tests/test_bigquery_warehouse.py, infra/sql/core/canonical_events.sql), and the exact
// condition under which it agrees with the processing ledger.
module CoreSelection {
  import opened Wrappers
  import opened SortedKeys
  import opened Events
  import opened Ledger

  datatype RawRow = RawRow(
    eventId: nat, key: Key, fingerprint: Fingerprint, revision: Option<Instant>, ingestedAt: Instant)

  // Python's order on (ingested_at, event_id).
  predicate NotAfter(a: RawRow, b: RawRow) {
    a.ingestedAt < b.ingestedAt || (a.ingestedAt == b.ingestedAt && a.eventId <= b.eventId)
  }

  // The representative of a key whose rows do not contradict each other: all rows versioned
  // or none, greatest revision, one content at that revision, earliest ingested row of it.
  predicate IsCurrent(raw: seq<RawRow>, r: RawRow) {
    && r in raw
    && forall x | x in raw && x.key == r.key ::
      && (x.revision.None? <==> r.revision.None?)
      && (x.revision.Some? && r.revision.Some? ==> x.revision.value <= r.revision.value)
      && (x.revision == r.revision ==> x.fingerprint == r.fingerprint && NotAfter(r, x))
  }

  lemma CurrentIsUnique(raw: seq<RawRow>, a: RawRow, b: RawRow)
    requires IsCurrent(raw, a) && IsCurrent(raw, b) && a.key == b.key
    ensures a == b
  {
  }

  // Written out: a row is current exactly when no row of its key differs in being versioned,
  // none has a later revision, and none of its own revision has other content, was ingested
  // earlier, or was ingested at the same time with a smaller event identifier.
  lemma CurrentIff(raw: seq<RawRow>, r: RawRow)
    ensures IsCurrent(raw, r) <==>
      && r in raw
      && (forall x | x in raw && x.key == r.key :: x.revision.Some? == r.revision.Some?)
      && (forall x | x in raw && x.key == r.key && x.revision.Some? && r.revision.Some? ::
            !(x.revision.value > r.revision.value))
      && (forall x | x in raw && x.key == r.key && x.revision == r.revision ::
            && x.fingerprint == r.fingerprint && !(x.ingestedAt < r.ingestedAt)
            && !(x.ingestedAt == r.ingestedAt && x.eventId < r.eventId))
  {
  }

  // ---------- The selection loop ----------

  function KeyRows(rows: seq<RawRow>, k: Key): (r: seq<RawRow>)
    ensures forall x :: x in r <==> x in rows && x.key == k
  {
    if rows == [] then []
    else
      var rest := KeyRows(rows[1..], k);
      assert forall x :: x in rows <==> x == rows[0] || x in rows[1..];
      if rows[0].key == k then [rows[0]] + rest else rest
  }

  function RevisionRows(rows: seq<RawRow>, v: Option<Instant>): (r: seq<RawRow>)
    ensures forall x :: x in r <==> x in rows && x.revision == v
  {
    if rows == [] then []
    else
      var rest := RevisionRows(rows[1..], v);
      assert forall x :: x in rows <==> x == rows[0] || x in rows[1..];
      if rows[0].revision == v then [rows[0]] + rest else rest
  }

  // max() of the revisions.
  function LatestRevision(rows: seq<RawRow>): (v: Instant)
    requires rows != [] && forall x | x in rows :: x.revision.Some?
    ensures exists x :: x in rows && x.revision == Some(v)
    ensures forall x | x in rows :: x.revision.value <= v
  {
    assert rows[0] in rows;
    assert forall x :: x in rows <==> x == rows[0] || x in rows[1..];
    if |rows| == 1 then rows[0].revision.value
    else
      var rest := LatestRevision(rows[1..]);
      if rest <= rows[0].revision.value then rows[0].revision.value else rest
  }

  // sorted(...)[0] by (ingested_at, event_id).
  function Earliest(rows: seq<RawRow>): (r: RawRow)
    requires rows != []
    ensures r in rows && forall x | x in rows :: NotAfter(r, x)
  {
    assert forall x :: x in rows <==> x == rows[0] || x in rows[1..];
    if |rows| == 1 then rows[0]
    else
      var rest := Earliest(rows[1..]);
      if NotAfter(rows[0], rest) then rows[0] else rest
  }

  function Fingerprints(rows: seq<RawRow>): (s: set<Fingerprint>)
    ensures forall x | x in rows :: x.fingerprint in s
  {
    set x | x in rows :: x.fingerprint
  }

  lemma OneFingerprint(rows: seq<RawRow>)
    requires rows != []
    ensures |Fingerprints(rows)| == 1 <==> forall a, b | a in rows && b in rows :: a.fingerprint == b.fingerprint
  {
    var f := rows[0].fingerprint;
    assert rows[0] in rows;
    if forall a, b | a in rows && b in rows :: a.fingerprint == b.fingerprint {
      assert Fingerprints(rows) == {f};
    } else {
      var a, b :| a in rows && b in rows && a.fingerprint != b.fingerprint;
      var pair, others := {a.fingerprint, b.fingerprint}, Fingerprints(rows) - {a.fingerprint, b.fingerprint};
      assert Fingerprints(rows) == pair + others && |pair| == 2;
    }
  }

  // One turn of the loop: the row chosen for a key, or none when the key is conflicted.
  method SelectForKey(rows: seq<RawRow>, key: Key) returns (chosen: Option<RawRow>)
    requires exists x :: x in rows && x.key == key
    ensures forall r | r in CurrentRows(rows) && r.key == key :: chosen == Some(r)
    ensures chosen.Some? ==> chosen.value in CurrentRows(rows)
    ensures chosen.Some? ==> chosen.value.key == key
  {
    var keyRows := KeyRows(rows, key);
    var hasRevision := exists x :: x in keyRows && x.revision.Some?;
    var hasUnversioned := exists x :: x in keyRows && x.revision.None?;
    if hasRevision && hasUnversioned {
      return None;
    }
    var top := keyRows;
    if !hasUnversioned {
      var latest := LatestRevision(keyRows);
      top := RevisionRows(keyRows, Some(latest));
    }
    OneFingerprint(top);
    if |Fingerprints(top)| != 1 {
      return None;
    }
    assert IsCurrent(rows, Earliest(top));
    return Some(Earliest(top));
  }

  ghost function CurrentRows(rows: seq<RawRow>): (s: set<RawRow>)
    ensures forall r :: r in s <==> IsCurrent(rows, r)
  {
    set r | r in rows && IsCurrent(rows, r)
  }

  predicate OrderedByKey(selected: seq<RawRow>) {
    forall i, j | 0 <= i < j < |selected| :: selected[i].key < selected[j].key
  }

  // The loop's state after keys `done`: their current rows, in key order.
  ghost predicate SelectedSoFar(selected: seq<RawRow>, current: set<RawRow>, done: seq<Key>) {
    OrderedByKey(selected) && forall r :: r in selected <==> r in current && r.key in done
  }

  lemma OneMoreKey(selected: seq<RawRow>, current: set<RawRow>, done: seq<Key>, key: Key, chosen: Option<RawRow>)
    requires SelectedSoFar(selected, current, done)
    requires forall k | k in done :: k < key
    requires forall r | r in current && r.key == key :: chosen == Some(r)
    requires chosen.Some? ==> chosen.value in current && chosen.value.key == key
    ensures SelectedSoFar(if chosen.Some? then selected + [chosen.value] else selected, current, done + [key])
  {
    assert forall r | r in selected :: r.key < key;
  }

  // Exactly the current row of every unconflicted key, in key order.
  method SelectAuthoritativeCurrent(rows: seq<RawRow>) returns (selected: seq<RawRow>)
    ensures forall r :: r in selected <==> IsCurrent(rows, r)
    ensures OrderedByKey(selected)
  {
    selected := [];
    var keys := Sorted(set x | x in rows :: x.key);
    ghost var current := CurrentRows(rows);
    forall r | r in current ensures r.key in keys {
      assert r.key in Elements(keys);
    }
    for n := 0 to |keys|
      invariant SelectedSoFar(selected, current, keys[..n])
    {
      assert keys[n] in Elements(keys);
      var chosen := SelectForKey(rows, keys[n]);
      OneMoreKey(selected, current, keys[..n], keys[n], chosen);
      assert keys[..n + 1] == keys[..n] + [keys[n]];
      if chosen.Some? {
        selected := selected + [chosen.value];
      }
    }
    assert keys[..|keys|] == keys;
  }

  // ---------- Agreement with the ledger ----------

  function Content(r: RawRow): LedgerRecord {
    LedgerRecord(r.key, r.fingerprint, r.revision, r.eventId)
  }

  ghost predicate GenuineRows(raw: seq<RawRow>) {
    forall r | r in raw :: Genuine(Content(r))
  }

  // Every ledger record's content was appended to RAW.
  ghost predicate Backed(records: Records, raw: seq<RawRow>) {
    forall k | k in records :: exists r :: r in raw && r.fingerprint == records[k].fingerprint
  }

  ghost predicate KeySettled(records: Records, raw: seq<RawRow>, k: Key) {
    forall r | r in raw && r.key == k :: Settled(records, Content(r))
  }

  lemma SettledKeyHasCurrentRow(records: Records, raw: seq<RawRow>, k: Key) returns (r: RawRow)
    requires WellFormed(records) && GenuineRows(raw) && Backed(records, raw)
    requires k in records && KeySettled(records, raw, k)
    ensures IsCurrent(raw, r) && r.key == k
    ensures r.fingerprint == records[k].fingerprint && r.revision == records[k].revision
  {
    var backing :| backing in raw && backing.fingerprint == records[k].fingerprint;
    assert Genuine(Content(backing)) && Genuine(records[k]);
    var top := RevisionRows(KeyRows(raw, k), records[k].revision);
    assert backing in top;
    r := Earliest(top);
    forall x | x in raw && x.key == k
      ensures x.fingerprint == records[k].fingerprint || Older(Content(x), records[k])
      ensures Genuine(Content(x))
    {
      assert Settled(records, Content(x));
    }
  }

  // The CORE view has a row for the record's key, with its content and revision.
  ghost predicate Shows(raw: seq<RawRow>, c: LedgerRecord) {
    exists r :: IsCurrent(raw, r) && r.key == c.key && r.fingerprint == c.fingerprint && r.revision == c.revision
  }

  // For one key: CORE shows the ledger's record if and only if the ledger accounts for
  // every RAW row of the key.
  lemma AgreementIff(records: Records, raw: seq<RawRow>, k: Key)
    requires WellFormed(records) && GenuineRows(raw) && Backed(records, raw) && k in records
    ensures Shows(raw, records[k]) <==> KeySettled(records, raw, k)
  {
    if KeySettled(records, raw, k) {
      var r := SettledKeyHasCurrentRow(records, raw, k);
    }
  }

  // The CORE view is the ledger: one row per ledger key and none besides, each with the
  // recorded content and revision.
  ghost predicate CoreAgrees(records: Records, raw: seq<RawRow>) {
    && (forall k | k in records :: Shows(raw, records[k]))
    && (forall r | IsCurrent(raw, r) ::
          r.key in records && r.fingerprint == records[r.key].fingerprint && r.revision == records[r.key].revision)
  }

  // Exactly when: the ledger accounts for the rows of all its keys, and CORE shows no key that
  // the ledger does not have.
  lemma CoreAgreesIff(records: Records, raw: seq<RawRow>)
    requires WellFormed(records) && GenuineRows(raw) && Backed(records, raw)
    ensures CoreAgrees(records, raw) <==>
      (forall k | k in records :: KeySettled(records, raw, k)) && (forall r | IsCurrent(raw, r) :: r.key in records)
  {
    forall k | k in records ensures Shows(raw, records[k]) <==> KeySettled(records, raw, k) {
      AgreementIff(records, raw, k);
    }
    if (forall k | k in records :: KeySettled(records, raw, k)) && (forall r | IsCurrent(raw, r) :: r.key in records) {
      forall r | IsCurrent(raw, r)
        ensures r.fingerprint == records[r.key].fingerprint && r.revision == records[r.key].revision
      {
        var current := SettledKeyHasCurrentRow(records, raw, r.key);
        CurrentIsUnique(raw, r, current);
      }
    }
  }

  lemma SettledViewAgrees(records: Records, raw: seq<RawRow>)
    requires WellFormed(records) && GenuineRows(raw) && Backed(records, raw)
    requires forall r | r in raw :: Settled(records, Content(r))
    ensures CoreAgrees(records, raw)
  {
    CoreAgreesIff(records, raw);
    forall r | IsCurrent(raw, r) ensures r.key in records {
      assert Settled(records, Content(r));
    }
  }
}
