// What the ledger holds after any sequence of successful recordings, in any order and with
// any repetition: which delivery wins, when the outcome depends on the order, and which
// verdicts can still change.
module LedgerRuns {
  import opened Wrappers
  import opened SortedKeys
  import opened Events
  import opened Ledger

  function RecordAll(records: Records, cs: seq<LedgerRecord>): Records {
    if cs == [] then records
    else Record(RecordAll(records, cs[..|cs| - 1]), cs[|cs| - 1])
  }

  ghost predicate AllGenuine(cs: seq<LedgerRecord>) {
    forall c | c in cs :: Genuine(c)
  }

  function ForKey(cs: seq<LedgerRecord>, k: Key): seq<LedgerRecord> {
    if cs == [] then []
    else
      var rest := ForKey(cs[..|cs| - 1], k);
      if cs[|cs| - 1].key == k then rest + [cs[|cs| - 1]] else rest
  }

  lemma {:induction false} RecordAllKeepsWellFormed(records: Records, cs: seq<LedgerRecord>)
    requires WellFormed(records) && AllGenuine(cs)
    ensures WellFormed(RecordAll(records, cs))
  {
    if cs != [] {
      RecordAllKeepsWellFormed(records, cs[..|cs| - 1]);
    }
  }

  // ---------- Verdicts over the rest of a run ----------

  // A stored row is only ever replaced by one with a strictly greater source revision.
  lemma {:induction false} RowsOnlyAdvance(records: Records, cs: seq<LedgerRecord>, k: Key)
    requires WellFormed(records) && AllGenuine(cs) && k in records
    ensures k in RecordAll(records, cs)
    ensures RecordAll(records, cs)[k] == records[k] || Older(records[k], RecordAll(records, cs)[k])
  {
    if cs != [] {
      RowsOnlyAdvance(records, cs[..|cs| - 1], k);
    }
  }

  lemma SettledStaysSettled(records: Records, cs: seq<LedgerRecord>, c: LedgerRecord)
    requires WellFormed(records) && AllGenuine(cs) && Genuine(c) && Settled(records, c)
    ensures Settled(RecordAll(records, cs), c)
    ensures Verdict(RecordAll(records, cs), c) in {Duplicate, StaleRevision}
  {
    RowsOnlyAdvance(records, cs, c.key);
    RecordAllKeepsWellFormed(records, cs);
  }

  // A conflict never turns into an acceptance or a duplicate. It becomes stale exactly when
  // the stored revision overtakes it, which needs a revision on both sides.
  lemma ConflictsNeverResolve(records: Records, cs: seq<LedgerRecord>, c: LedgerRecord)
    requires WellFormed(records) && AllGenuine(cs) && Genuine(c)
    requires Verdict(records, c) == RevisionConflict
    ensures
      var later := RecordAll(records, cs);
      && c.key in later
      && Verdict(later, c) == (if Older(c, later[c.key]) then StaleRevision else RevisionConflict)
    ensures c.revision.None? || records[c.key].revision.None? ==>
      Verdict(RecordAll(records, cs), c) == RevisionConflict
  {
    RowsOnlyAdvance(records, cs, c.key);
    RecordAllKeepsWellFormed(records, cs);
  }

  // ---------- Which delivery wins ----------

  // Position i carries the greatest revision delivered, and is the first to carry it.
  predicate FirstGreatest(cs: seq<LedgerRecord>, i: nat) {
    && i < |cs| && cs[i].revision.Some?
    && (forall j | 0 <= j < |cs| && cs[j].revision.Some? :: cs[j].revision.value <= cs[i].revision.value)
    && (forall j | 0 <= j < i && cs[j].revision.Some? :: cs[j].revision.value < cs[i].revision.value)
  }

  // Among the deliveries of one key: an unversioned first delivery wins for good; otherwise
  // the first delivery of the greatest revision does.
  ghost predicate IsWinner(cs: seq<LedgerRecord>, w: LedgerRecord) {
    && cs != []
    && (cs[0].revision.None? ==> w == cs[0])
    && (cs[0].revision.Some? ==> exists i: nat :: FirstGreatest(cs, i) && cs[i] == w)
  }

  lemma WinnerAfterOneMore(cs: seq<LedgerRecord>, w: LedgerRecord, c: LedgerRecord)
    requires IsWinner(cs, w)
    ensures IsWinner(cs + [c], if Older(w, c) then c else w)
  {
    var all := cs + [c];
    if cs[0].revision.Some? {
      var i: nat :| FirstGreatest(cs, i) && cs[i] == w;
      var winner := if Older(w, c) then |cs| else i;
      assert FirstGreatest(all, winner);
    }
  }

  // The ledger row of every key, over every sequence of deliveries of any keys.
  lemma {:induction false} LedgerHoldsTheWinner(cs: seq<LedgerRecord>, k: Key)
    requires AllGenuine(cs)
    ensures k in RecordAll(map[], cs) <==> ForKey(cs, k) != []
    ensures k in RecordAll(map[], cs) ==> IsWinner(ForKey(cs, k), RecordAll(map[], cs)[k])
  {
    if cs != [] {
      var before, c := cs[..|cs| - 1], cs[|cs| - 1];
      LedgerHoldsTheWinner(before, k);
      RecordAllKeepsWellFormed(map[], before);
      assert Genuine(c) by { assert c in cs; }
      if c.key == k {
        if k in RecordAll(map[], before) {
          var w := RecordAll(map[], before)[k];
          WinnerAfterOneMore(ForKey(before, k), w, c);
          assert RecordAll(map[], cs)[k] == if Older(w, c) then c else w;
        } else {
          assert ForKey(cs, k) == [c];
          assert c.revision.Some? ==> FirstGreatest([c], 0);
        }
      }
    }
  }

  lemma {:induction false} ForKeyMembers(cs: seq<LedgerRecord>, k: Key)
    ensures forall c :: c in ForKey(cs, k) <==> c in cs && c.key == k
  {
    if cs != [] {
      ForKeyMembers(cs[..|cs| - 1], k);
      assert cs == cs[..|cs| - 1] + [cs[|cs| - 1]];
    }
  }

  lemma {:induction false} ForKeyHead(c: LedgerRecord, cs: seq<LedgerRecord>)
    ensures ForKey([c] + cs, c.key) == [c] + ForKey(cs, c.key)
  {
    var all := [c] + cs;
    if cs == [] {
      assert all[..|all| - 1] == [];
    } else {
      assert all[..|all| - 1] == [c] + cs[..|cs| - 1];
      ForKeyHead(c, cs[..|cs| - 1]);
    }
  }

  // Folding revisioned deliveries of one key stores a delivered record of the greatest revision.
  lemma StoredIsGreatest(cs: seq<LedgerRecord>, k: Key)
    requires AllGenuine(cs) && cs != [] && forall c | c in cs :: c.key == k && c.revision.Some?
    ensures k in RecordAll(map[], cs) && RecordAll(map[], cs)[k] in cs
    ensures forall c | c in cs :: c.revision.value <= RecordAll(map[], cs)[k].revision.value
  {
    LedgerHoldsTheWinner(cs, k);
    ForKeyMembers(cs, k);
    assert cs[0] in ForKey(cs, k);
    assert ForKey(cs, k)[0] in ForKey(cs, k);
  }

  // ---------- When the order of delivery matters ----------

  // Some order of the deliveries stores c: it is unversioned, or of its key's greatest revision.
  predicate Contender(cs: seq<LedgerRecord>, c: LedgerRecord) {
    && c in cs
    && (c.revision.Some? ==>
          forall x | x in cs && x.key == c.key && x.revision.Some? :: x.revision.value <= c.revision.value)
  }

  // No key has two contents that could win.
  ghost predicate OneContenderEach(cs: seq<LedgerRecord>) {
    forall a, b | Contender(cs, a) && Contender(cs, b) && a.key == b.key :: a.fingerprint == b.fingerprint
  }

  ghost predicate SameContents(a: Records, b: Records) {
    a.Keys == b.Keys && forall k | k in a :: a[k].fingerprint == b[k].fingerprint && a[k].revision == b[k].revision
  }

  lemma WinnerIsContender(cs: seq<LedgerRecord>, k: Key)
    requires AllGenuine(cs)
    ensures k in RecordAll(map[], cs) <==> exists c :: c in cs && c.key == k
    ensures k in RecordAll(map[], cs) ==>
      Contender(cs, RecordAll(map[], cs)[k]) && RecordAll(map[], cs)[k].key == k
  {
    LedgerHoldsTheWinner(cs, k);
    ForKeyMembers(cs, k);
    var own := ForKey(cs, k);
    if own != [] {
      assert own[0] in own;
      var w := RecordAll(map[], cs)[k];
      assert w in own;
      forall x | x in cs && x.key == k && x.revision.Some? && w.revision.Some?
        ensures x.revision.value <= w.revision.value
      {
        assert x in own;
      }
    }
  }

  // Any permutation, and any repetition, of the deliveries leaves the same contents and
  // revisions, provided no key has two contents that could win.
  lemma OrderDoesNotMatter(cs: seq<LedgerRecord>, ds: seq<LedgerRecord>)
    requires AllGenuine(cs) && (forall c :: c in cs <==> c in ds) && OneContenderEach(cs)
    ensures SameContents(RecordAll(map[], cs), RecordAll(map[], ds))
  {
    var a, b := RecordAll(map[], cs), RecordAll(map[], ds);
    forall k
      ensures k in a <==> k in b
      ensures k in a ==> a[k].fingerprint == b[k].fingerprint && a[k].revision == b[k].revision
    {
      WinnerIsContender(cs, k);
      WinnerIsContender(ds, k);
      if k in a {
        assert Contender(cs, b[k]);
        assert Genuine(a[k]) && Genuine(b[k]);
      }
    }
  }

  // Delivering a contender first makes it the one that is stored.
  lemma FirstDeliveredWins(cs: seq<LedgerRecord>, i: nat) returns (ds: seq<LedgerRecord>)
    requires AllGenuine(cs) && i < |cs| && Contender(cs, cs[i])
    ensures multiset(ds) == multiset(cs)
    ensures cs[i].key in RecordAll(map[], ds) && RecordAll(map[], ds)[cs[i].key] == cs[i]
  {
    var rest := cs[..i] + cs[i + 1..];
    ds := [cs[i]] + rest;
    assert cs == cs[..i] + ([cs[i]] + cs[i + 1..]);
    assert forall c :: c in ds <==> c in cs by { assert multiset(ds) == multiset(cs); }
    LedgerHoldsTheWinner(ds, cs[i].key);
    ForKeyHead(cs[i], rest);
    ForKeyMembers(ds, cs[i].key);
    if cs[i].revision.Some? {
      assert FirstGreatest(ForKey(ds, cs[i].key), 0);
    }
  }

  // The stored contents are independent of the delivery order exactly when no key has two
  // contents that could win: two unversioned ones, two of its greatest revision, or one of each.
  lemma OrderIndependentIff(cs: seq<LedgerRecord>)
    requires AllGenuine(cs)
    ensures OneContenderEach(cs) <==>
      forall ds | multiset(ds) == multiset(cs) :: SameContents(RecordAll(map[], cs), RecordAll(map[], ds))
  {
    if OneContenderEach(cs) {
      forall ds | multiset(ds) == multiset(cs) ensures SameContents(RecordAll(map[], cs), RecordAll(map[], ds)) {
        assert forall c :: c in ds <==> c in multiset(ds);
        assert forall c :: c in cs <==> c in multiset(cs);
        OrderDoesNotMatter(cs, ds);
      }
    } else {
      var a, b :| Contender(cs, a) && Contender(cs, b) && a.key == b.key && a.fingerprint != b.fingerprint;
      WinnerIsContender(cs, a.key);
      var loser := if a.fingerprint != RecordAll(map[], cs)[a.key].fingerprint then a else b;
      var i :| 0 <= i < |cs| && cs[i] == loser;
      var ds := FirstDeliveredWins(cs, i);
      assert !SameContents(RecordAll(map[], cs), RecordAll(map[], ds));
    }
  }

  // Two contents of one weather observation, which carries no source revision.
  function Observation(json: string): LedgerRecord {
    var identity := Identity("open-meteo", WeatherObservation, "station", 0);
    LedgerRecord(DigestOf(identity), Fingerprint(identity, Payload(json, Neither)), None, 0)
  }

  // Whichever is delivered first stays.
  lemma ObservationsDependOnOrder()
    ensures
      var a, b := Observation("a"), Observation("b");
      && AllGenuine([a, b]) && a.fingerprint != b.fingerprint
      && RecordAll(map[], [a, b]) == map[a.key := a] && RecordAll(map[], [b, a]) == map[a.key := b]
  {
    var a, b := Observation("a"), Observation("b");
    assert a.fingerprint.payload.json[0] != b.fingerprint.payload.json[0];
    RecordTwo(a, b);
    RecordTwo(b, a);
  }

  lemma RecordTwo(a: LedgerRecord, b: LedgerRecord)
    ensures RecordAll(map[], [a, b]) == Record(Record(map[], a), b)
  {
    var one, two := [a], [a, b];
    assert two[..|two| - 1] == one && one[..|one| - 1] == [];
    assert RecordAll(map[], one) == Record(map[], a);
  }
}
