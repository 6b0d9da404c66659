// The bounded CORE read that feeds a risk batch (warehouse/bigquery.py), and exactly when it
// leaves every assessment as it would be over all CORE events.
module RiskInputs {
  import opened Wrappers
  import opened Events
  import opened RiskModels
  import opened RiskEngine
  import opened RiskProperties

  // max(weather_lookback, seismic_lookback)
  function Horizon(c: RiskConfig): int {
    if c.weatherLookback >= c.seismicLookback then c.weatherLookback else c.seismicLookback
  }

  // The WHERE clause.
  predicate Selected(reader: RiskConfig, at: Instant, e: CanonicalEvent) {
    && e.eventType in {WeatherObservation, SeismicDetection}
    && at - Horizon(reader) <= e.eventTime <= at
  }

  function Select(reader: RiskConfig, at: Instant, core: seq<CanonicalEvent>): seq<CanonicalEvent> {
    if core == [] then []
    else
      var before := Select(reader, at, core[..|core| - 1]);
      if Selected(reader, at, core[|core| - 1]) then before + [core[|core| - 1]] else before
  }

  // The ORDER BY clause.
  predicate ReadOrder(rows: seq<CanonicalEvent>) {
    forall i, j | 0 <= i < j < |rows| ::
      rows[i].eventTime < rows[j].eventTime
      || (rows[i].eventTime == rows[j].eventTime && rows[i].deduplicationKey <= rows[j].deduplicationKey)
  }

  // rows is an answer to the bounded query over core.
  ghost predicate Answers(reader: RiskConfig, at: Instant, core: seq<CanonicalEvent>, rows: seq<CanonicalEvent>) {
    multiset(rows) == multiset(Select(reader, at, core)) && ReadOrder(rows)
  }

  // The event is weather or seismic, no later than the assessment, and no earlier than the
  // longer of the two lookbacks before it.
  predicate ToBeRead(reader: RiskConfig, at: Instant, e: CanonicalEvent) {
    && (e.eventType.WeatherObservation? || e.eventType.SeismicDetection?)
    && e.eventTime <= at
    && (e.eventTime >= at - reader.weatherLookback || e.eventTime >= at - reader.seismicLookback)
  }

  // The query reads exactly those events of CORE, each as often as CORE has it, ordered by time
  // and key.
  lemma {:induction false} SelectMultiplicity(reader: RiskConfig, at: Instant, core: seq<CanonicalEvent>, e: CanonicalEvent)
    ensures multiset(Select(reader, at, core))[e] == if ToBeRead(reader, at, e) then multiset(core)[e] else 0
  {
    if core != [] {
      SelectMultiplicity(reader, at, core[..|core| - 1], e);
      assert core == core[..|core| - 1] + [core[|core| - 1]];
    }
  }

  lemma ReadIsExact(reader: RiskConfig, at: Instant, core: seq<CanonicalEvent>, rows: seq<CanonicalEvent>)
    requires Answers(reader, at, core, rows)
    ensures forall e :: multiset(rows)[e] == if ToBeRead(reader, at, e) then multiset(core)[e] else 0
    ensures forall i, j | 0 <= i < j < |rows| ::
      rows[i].eventTime < rows[j].eventTime
      || (rows[i].eventTime == rows[j].eventTime && rows[i].deduplicationKey <= rows[j].deduplicationKey)
  {
    forall e ensures multiset(rows)[e] == if ToBeRead(reader, at, e) then multiset(core)[e] else 0 {
      SelectMultiplicity(reader, at, core, e);
    }
  }

  // The selection drops only events the engine would pass over.
  lemma {:induction false} SelectKeepsHits(reader: RiskConfig, c: RiskConfig, f: Family, s: Supplier, at: Instant, core: seq<CanonicalEvent>)
    requires Horizon(reader) >= Horizon(c)
    ensures Hits(c, f, s, at, Select(reader, at, core)) == Hits(c, f, s, at, core)
    ensures FirstFault(c, f, s, at, Select(reader, at, core)) == FirstFault(c, f, s, at, core)
  {
    if core != [] {
      var before, e := core[..|core| - 1], core[|core| - 1];
      SelectKeepsHits(reader, c, f, s, at, before);
      var kept := Select(reader, at, before);
      assert (kept + [e])[..|kept|] == kept;
    }
  }

  // A reader looking back at least as far as the engine changes no assessment and hides no
  // failure. Which of several failures escapes can change only over a zero threshold, since
  // the query fixes the order of the events.
  lemma BoundedReadIsTransparent(reader: RiskConfig, c: RiskConfig, s: Supplier, at: Instant,
                                 core: seq<CanonicalEvent>, rows: seq<CanonicalEvent>)
    requires ConfigAccepted(c) && Horizon(reader) >= Horizon(c) && Answers(reader, at, core, rows)
    ensures SameUpToFailure(Assess(c, s, rows, at), Assess(c, s, core, at))
    ensures Divisible(c) ==> Assess(c, s, rows, at) == Assess(c, s, core, at)
  {
    var kept := Select(reader, at, core);
    OrderDoesNotMatter(c, s, rows, kept, at);
    SelectKeepsHits(reader, c, WeatherFamily, s, at, core);
    SelectKeepsHits(reader, c, SeismicFamily, s, at, core);
    assert ScoreFamily(c, WeatherFamily, s, kept, at) == ScoreFamily(c, WeatherFamily, s, core, at);
    assert ScoreFamily(c, SeismicFamily, s, kept, at) == ScoreFamily(c, SeismicFamily, s, core, at);
  }

  ghost predicate Transparent(reader: RiskConfig, c: RiskConfig, s: Supplier, at: Instant,
                              core: seq<CanonicalEvent>, rows: seq<CanonicalEvent>)
    requires ConfigAccepted(c)
  {
    Answers(reader, at, core, rows) ==> Assess(c, s, rows, at) == Assess(c, s, core, at)
  }

  // An event the engine would read and the reader leaves out.
  function MissedEvent(c: RiskConfig, at: Instant): CanonicalEvent {
    var f := if c.weatherLookback >= c.seismicLookback then WeatherFamily else SeismicFamily;
    CanonicalEvent(0, FamilyType(f), at - Horizon(c), at, Source("x", "x"), None, Payload("{}", Neither), 0)
  }

  lemma ShorterReaderMisses(reader: RiskConfig, c: RiskConfig, s: Supplier, at: Instant)
    requires ConfigAccepted(c) && UnitComponents(BreakdownOf(c, s)) && Horizon(reader) < Horizon(c)
    ensures !Transparent(reader, c, s, at, [MissedEvent(c, at)], [])
  {
    var e := MissedEvent(c, at);
    var f := if c.weatherLookback >= c.seismicLookback then WeatherFamily else SeismicFamily;
    assert [e][..0] == [];
    assert Select(reader, at, [e]) == [];
    assert Fault(c, f, s, at, e) == Some(InvalidPayload(f));
    assert FirstFault(c, WeatherFamily, s, at, [e]) == Fault(c, WeatherFamily, s, at, e);
    assert FirstFault(c, SeismicFamily, s, at, [e]) == Fault(c, SeismicFamily, s, at, e);
    assert Assess(c, s, [e], at).Err? && Assess(c, s, [e], at).error.InvalidPayload?;
    assert FirstFault(c, WeatherFamily, s, at, []) == None && FirstFault(c, SeismicFamily, s, at, []) == None;
  }

  // Over a zero threshold the query's order can put another failure first than CORE's.
  lemma ReorderedReadFailsDifferently(reader: RiskConfig, c: RiskConfig, s: Supplier, at: Instant)
    requires ConfigAccepted(reader) && ConfigAccepted(c) && !Divisible(c) && UnitComponents(BreakdownOf(c, s))
    ensures !Transparent(reader, c, s, at, [CalmWeather(s, at), MalformedWeather(at)], [MalformedWeather(at), CalmWeather(s, at)])
  {
    var core: seq<CanonicalEvent> := [CalmWeather(s, at), MalformedWeather(at)];
    var rows: seq<CanonicalEvent> := [MalformedWeather(at), CalmWeather(s, at)];
    assert core[..1] == [CalmWeather(s, at)] && core[..1][..0] == [];
    assert Select(reader, at, core[..1]) == [CalmWeather(s, at)];
    assert Select(reader, at, core) == core;
    assert multiset(rows) == multiset(core);
    FailureFollowsOrder(c, s, at);
  }

  // The bounded read is transparent, failures included, for every supplier, time and CORE
  // content if and only if the reader looks back at least as far as the engine and no
  // threshold is zero (or the configuration fails every assessment alike).
  lemma TransparentIff(reader: RiskConfig, c: RiskConfig)
    requires ConfigAccepted(reader) && ConfigAccepted(c)
    ensures (Horizon(reader) >= Horizon(c) && Divisible(c)) || !SomeUnitCriticality(c) <==>
      forall s: Supplier, at, core, rows :: Transparent(reader, c, s, at, core, rows)
  {
    if !SomeUnitCriticality(c) {
      forall s: Supplier, at, core, rows ensures Transparent(reader, c, s, at, core, rows) {
        assert !UnitComponents(BreakdownOf(c, s));
      }
    } else if Horizon(reader) >= Horizon(c) && Divisible(c) {
      forall s: Supplier, at, core, rows ensures Transparent(reader, c, s, at, core, rows) {
        if Answers(reader, at, core, rows) {
          BoundedReadIsTransparent(reader, c, s, at, core, rows);
        }
      }
    } else {
      var k :| 0.0 <= CriticalityValue(c, k) <= 1.0;
      var s: Supplier := SupplierFields("SUP-000001", k, 0.0, 0.0, 1, 0.0, false);
      if Horizon(reader) < Horizon(c) {
        ShorterReaderMisses(reader, c, s, 0);
      } else {
        ReorderedReadFailsDifferently(reader, c, s, 0);
      }
    }
  }
}
