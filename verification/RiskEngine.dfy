// The deterministic supplier risk engine (risk/engine.py).
module RiskEngine {
  import opened Wrappers
  import opened SortedKeys
  import opened Events
  import opened RiskModels

  type Distance = d: real | d >= 0.0

  // Great-circle distance in kilometres: an arbitrary non-negative function of two positions.
  const HaversineKm: (real, real, real, real) -> Distance

  datatype Breakdown = Breakdown(criticality: real, dependency: real, singleSource: real, leadTime: real)

  datatype FamilyScore = FamilyScore(score: int, keys: seq<Key>, count: nat)

  datatype Assessment = Assessment(
    modelVersion: string, supplierId: string, assessedAt: Instant,
    riskScore: int, riskLevel: RiskLevel,
    structuralScore: int, weatherScore: int, seismicScore: int,
    breakdown: Breakdown,
    weatherCount: nat, seismicCount: nat,
    evidenceKeys: seq<Key>, dominantFactor: Factor)

  datatype AssessmentError = InvalidPayload(family: Family) | DivisionByZero | ComponentOutOfRange | ScoreOutOfRange

  function Clamp(value: real): real {
    if value < 0.0 then 0.0 else if value > 1.0 then 1.0 else value
  }

  // ---------- Structural risk ----------

  function BreakdownOf(c: RiskConfig, s: Supplier): Breakdown {
    Breakdown(
      CriticalityValue(c, s.criticality),
      s.dependencyScore,
      if s.singleSource then 1.0 else 0.0,
      Clamp(s.leadTimeDays as real / 365.0))
  }

  function StructuralSum(c: RiskConfig, b: Breakdown): real {
    Weighted(c.weightCriticality, b.criticality) + Weighted(c.weightDependency, b.dependency)
    + Weighted(c.weightSingleSource, b.singleSource) + Weighted(c.weightLeadTime, b.leadTime)
  }

  // ---------- Events of one family ----------

  function Lookback(c: RiskConfig, f: Family): int {
    if f.WeatherFamily? then c.weatherLookback else c.seismicLookback
  }

  function FamilyType(f: Family): EventType {
    if f.WeatherFamily? then WeatherObservation else SeismicDetection
  }

  predicate InWindow(c: RiskConfig, f: Family, at: Instant, e: CanonicalEvent) {
    at - Lookback(c, f) <= e.eventTime <= at
  }

  // The events whose payload the family reads.
  predicate Considered(c: RiskConfig, f: Family, at: Instant, e: CanonicalEvent) {
    e.eventType == FamilyType(f) && InWindow(c, f, at, e)
  }

  predicate Readable(f: Family, e: CanonicalEvent) {
    if f.WeatherFamily? then e.payload.reading.Weather? else e.payload.reading.Seismic?
  }

  function DistanceTo(f: Family, s: Supplier, e: CanonicalEvent): Distance
    requires Readable(f, e)
  {
    match e.payload.reading
    case Weather(w) => HaversineKm(s.latitude, s.longitude, w.latitude, w.longitude)
    case Seismic(q) => HaversineKm(s.latitude, s.longitude, q.latitude, q.longitude)
  }

  predicate ConcernsSupplier(s: Supplier, e: CanonicalEvent) {
    e.entity.Some? && e.entity.value.kind == "supplier" && e.entity.value.id == s.supplierId
  }

  predicate Relevant(c: RiskConfig, f: Family, s: Supplier, e: CanonicalEvent)
    requires Readable(f, e)
  {
    if f.WeatherFamily?
    then ConcernsSupplier(s, e) || DistanceTo(f, s, e) <= c.weatherRadiusKm
    else DistanceTo(f, s, e) <= c.seismicRadiusKm
  }

  // A measurement's clamped share of its threshold. The loop raises before it would divide
  // by a zero threshold.
  function Share(measured: real, threshold: real): real {
    if threshold == 0.0 then 0.0 else Clamp(measured / threshold)
  }

  function WeatherHazard(c: RiskConfig, w: WeatherReading): real {
    Weighted(c.weightWindSpeed, Share(w.windSpeedKmh, c.windSpeedThreshold))
    + Weighted(c.weightWindGust, Share(w.windGustsKmh, c.windGustThreshold))
    + Weighted(c.weightPrecipitation, Share(w.precipitationMm, c.precipitationThreshold))
    + Weighted(c.weightSnowfall, Share(w.snowfallCm, c.snowfallThreshold))
  }

  function SeismicHazard(c: RiskConfig, q: SeismicReading, distance: Distance): real
    requires c.seismicRadiusKm > 0.0
  {
    Weighted(Clamp((q.magnitude - 3.0) / 4.0), Clamp(1.0 - distance / c.seismicRadiusKm))
  }

  function Hazard(c: RiskConfig, f: Family, s: Supplier, e: CanonicalEvent): real
    requires ConfigAccepted(c) && Readable(f, e)
  {
    match e.payload.reading
    case Weather(w) => WeatherHazard(c, w)
    case Seismic(q) => SeismicHazard(c, q, DistanceTo(f, s, e))
  }

  // ---------- What one family amounts to ----------

  predicate Hit(c: RiskConfig, f: Family, s: Supplier, at: Instant, e: CanonicalEvent) {
    Considered(c, f, at, e) && Readable(f, e) && Relevant(c, f, s, e)
  }

  // What reading this event raises: a payload outside its contract, or a zero threshold
  // reached by a relevant weather event.
  function Fault(c: RiskConfig, f: Family, s: Supplier, at: Instant, e: CanonicalEvent): Option<AssessmentError> {
    if !Considered(c, f, at, e) then None
    else if !Readable(f, e) then Some(InvalidPayload(f))
    else if f.WeatherFamily? && Relevant(c, f, s, e) && !Divisible(c) then Some(DivisionByZero)
    else None
  }

  // The first event that raises decides.
  function FirstFault(c: RiskConfig, f: Family, s: Supplier, at: Instant, es: seq<CanonicalEvent>): Option<AssessmentError> {
    if es == [] then None
    else
      var before := FirstFault(c, f, s, at, es[..|es| - 1]);
      if before.Some? then before else Fault(c, f, s, at, es[|es| - 1])
  }

  lemma {:induction false} FirstFaultIsFirst(c: RiskConfig, f: Family, s: Supplier, at: Instant, es: seq<CanonicalEvent>)
    ensures
      match FirstFault(c, f, s, at, es)
      case None => forall e | e in es :: Fault(c, f, s, at, e).None?
      case Some(x) =>
        exists i: nat ::
          && i < |es| && Fault(c, f, s, at, es[i]) == Some(x)
          && forall j | 0 <= j < i :: Fault(c, f, s, at, es[j]).None?
  {
    if es != [] {
      var before, last := es[..|es| - 1], es[|es| - 1];
      FirstFaultIsFirst(c, f, s, at, before);
      assert es == before + [last];
      if FirstFault(c, f, s, at, before).Some? {
        var i: nat :| i < |before| && Fault(c, f, s, at, before[i]) == FirstFault(c, f, s, at, before)
          && forall j | 0 <= j < i :: Fault(c, f, s, at, before[j]).None?;
        assert es[i] == before[i] && forall j | 0 <= j < i :: es[j] == before[j];
      } else {
        assert es[|es| - 1] == last;
        assert forall j | 0 <= j < |es| - 1 :: es[j] == before[j] && before[j] in before;
      }
    }
  }

  // Later events cannot change the first fault.
  lemma {:induction false} FirstFaultOfPrefix(c: RiskConfig, f: Family, s: Supplier, at: Instant, es: seq<CanonicalEvent>, n: nat)
    requires n <= |es| && FirstFault(c, f, s, at, es[..n]).Some?
    ensures FirstFault(c, f, s, at, es) == FirstFault(c, f, s, at, es[..n])
    decreases |es|
  {
    if n == |es| {
      assert es[..n] == es;
    } else {
      assert es[..|es| - 1][..n] == es[..n];
      FirstFaultOfPrefix(c, f, s, at, es[..|es| - 1], n);
    }
  }

  function Hits(c: RiskConfig, f: Family, s: Supplier, at: Instant, es: seq<CanonicalEvent>): (r: seq<CanonicalEvent>)
    ensures forall e :: e in r <==> e in es && Hit(c, f, s, at, e)
  {
    if es == [] then []
    else
      var before := Hits(c, f, s, at, es[..|es| - 1]);
      assert es == es[..|es| - 1] + [es[|es| - 1]];
      if Hit(c, f, s, at, es[|es| - 1]) then before + [es[|es| - 1]] else before
  }

  // max(hazards, default=0.0)
  function Greatest(hazards: seq<real>): (m: real)
    ensures hazards == [] ==> m == 0.0
    ensures hazards != [] ==> m in hazards && forall h | h in hazards :: h <= m
  {
    if hazards == [] then 0.0
    else
      var last := hazards[|hazards| - 1];
      var before := hazards[..|hazards| - 1];
      assert hazards == before + [last];
      if before == [] || Greatest(before) <= last then last else Greatest(before)
  }

  function Hazards(c: RiskConfig, f: Family, s: Supplier, hits: seq<CanonicalEvent>): (r: seq<real>)
    requires ConfigAccepted(c) && forall e | e in hits :: Readable(f, e)
    ensures |r| == |hits| && forall i | 0 <= i < |r| :: r[i] == Hazard(c, f, s, hits[i])
  {
    seq(|hits|, i requires 0 <= i < |hits| => Hazard(c, f, s, hits[i]))
  }

  function Keys(hits: seq<CanonicalEvent>): seq<Key> {
    seq(|hits|, i requires 0 <= i < |hits| => hits[i].deduplicationKey)
  }

  function Summary(hazards: seq<real>, keys: seq<Key>): FamilyScore {
    FamilyScore(RoundScore(100.0 * Greatest(hazards)), Sorted(Elements(keys)), |keys|)
  }

  function ScoreFamily(c: RiskConfig, f: Family, s: Supplier, es: seq<CanonicalEvent>, at: Instant)
    : Result<FamilyScore, AssessmentError>
    requires ConfigAccepted(c)
  {
    match FirstFault(c, f, s, at, es)
    case Some(fault) => Err(fault)
    case None =>
      var hits := Hits(c, f, s, at, es);
      Ok(Summary(Hazards(c, f, s, hits), Keys(hits)))
  }

  // max(DOMINANT_FACTOR_ORDER, key=(contribution, -index))
  function DominantFactor(c: RiskConfig, structural: int, weather: int, seismic: int): Factor {
    var st := Weighted(c.weightStructural, Points(structural));
    var we := Weighted(c.weightWeather, Points(weather));
    var se := Weighted(c.weightSeismic, Points(seismic));
    if st >= we && st >= se then StructuralFactor
    else if we >= se then WeatherFactor
    else SeismicFactor
  }

  predicate UnitComponents(b: Breakdown) {
    && 0.0 <= b.criticality <= 1.0 && 0.0 <= b.dependency <= 1.0
    && 0.0 <= b.singleSource <= 1.0 && 0.0 <= b.leadTime <= 1.0
  }

  function OverallSum(c: RiskConfig, structural: real, weather: real, seismic: real): real {
    Weighted(c.weightStructural, structural) + Weighted(c.weightWeather, weather) + Weighted(c.weightSeismic, seismic)
  }

  function OverallScore(c: RiskConfig, structural: int, weather: int, seismic: int): int {
    RoundScore(OverallSum(c, Points(structural), Points(weather), Points(seismic)))
  }

  function Assess(c: RiskConfig, s: Supplier, es: seq<CanonicalEvent>, at: Instant): Result<Assessment, AssessmentError>
    requires ConfigAccepted(c)
  {
    Combine(c, s, at, ScoreFamily(c, WeatherFamily, s, es, at), ScoreFamily(c, SeismicFamily, s, es, at))
  }

  // The contracts reject components outside 0..1 first and scores outside 0..100 last.
  function Combine(c: RiskConfig, s: Supplier, at: Instant,
                   weather: Result<FamilyScore, AssessmentError>, seismic: Result<FamilyScore, AssessmentError>)
    : Result<Assessment, AssessmentError>
  {
    var breakdown := BreakdownOf(c, s);
    if !UnitComponents(breakdown) then Err(ComponentOutOfRange)
    else
      var w :- weather;
      var q :- seismic;
      Assemble(c, s, at, breakdown, RoundScore(100.0 * StructuralSum(c, breakdown)), w, q)
  }

  function Assemble(c: RiskConfig, s: Supplier, at: Instant, breakdown: Breakdown,
                    structural: int, weather: FamilyScore, seismic: FamilyScore): Result<Assessment, AssessmentError>
  {
    var score := OverallScore(c, structural, weather.score, seismic.score);
    if !InRange(score) || !InRange(structural) || !InRange(weather.score) || !InRange(seismic.score)
    then Err(ScoreOutOfRange)
    else Ok(Assessment(
      c.modelVersion, s.supplierId, at,
      score, LevelForPoints(Points(score)),
      structural, weather.score, seismic.score,
      breakdown, weather.count, seismic.count,
      Sorted(Elements(weather.keys) + Elements(seismic.keys)),
      DominantFactor(c, structural, weather.score, seismic.score)))
  }

  // ---------- The loops ----------

  // What a family's loop has accumulated after the events es, or what it raised.
  function Collect(c: RiskConfig, f: Family, s: Supplier, at: Instant, es: seq<CanonicalEvent>)
    : Result<(seq<real>, seq<Key>), AssessmentError>
    requires ConfigAccepted(c)
  {
    if es == [] then Ok(([], []))
    else
      var e := es[|es| - 1];
      match Collect(c, f, s, at, es[..|es| - 1])
      case Err(x) => Err(x)
      case Ok((hazards, keys)) =>
        if Fault(c, f, s, at, e).Some? then Err(Fault(c, f, s, at, e).value)
        else if Hit(c, f, s, at, e) then Ok((hazards + [Hazard(c, f, s, e)], keys + [e.deduplicationKey]))
        else Ok((hazards, keys))
  }

  lemma {:induction false} CollectIsHits(c: RiskConfig, f: Family, s: Supplier, at: Instant, es: seq<CanonicalEvent>)
    requires ConfigAccepted(c)
    ensures
      match Collect(c, f, s, at, es)
      case Err(x) => FirstFault(c, f, s, at, es) == Some(x)
      case Ok((hazards, keys)) =>
        var hits := Hits(c, f, s, at, es);
        FirstFault(c, f, s, at, es) == None && hazards == Hazards(c, f, s, hits) && keys == Keys(hits)
  {
    if es != [] {
      var before, e := es[..|es| - 1], es[|es| - 1];
      CollectIsHits(c, f, s, at, before);
      var hits := Hits(c, f, s, at, before);
      if Hit(c, f, s, at, e) {
        assert Hazards(c, f, s, hits + [e]) == Hazards(c, f, s, hits) + [Hazard(c, f, s, e)];
        assert Keys(hits + [e]) == Keys(hits) + [e.deduplicationKey];
      }
    }
  }

  lemma CollectedAll(c: RiskConfig, f: Family, s: Supplier, at: Instant, es: seq<CanonicalEvent>)
    requires ConfigAccepted(c)
    ensures
      match Collect(c, f, s, at, es)
      case Err(x) => ScoreFamily(c, f, s, es, at) == Err(x)
      case Ok((hazards, keys)) => ScoreFamily(c, f, s, es, at) == Ok(Summary(hazards, keys))
  {
    CollectIsHits(c, f, s, at, es);
  }

  // The loop raises at event n.
  lemma RaisesAt(c: RiskConfig, f: Family, s: Supplier, at: Instant, es: seq<CanonicalEvent>, n: nat)
    requires ConfigAccepted(c) && n < |es|
    requires Collect(c, f, s, at, es[..n]).Ok? && Fault(c, f, s, at, es[n]).Some?
    ensures ScoreFamily(c, f, s, es, at) == Err(Fault(c, f, s, at, es[n]).value)
  {
    CollectIsHits(c, f, s, at, es[..n]);
    assert es[..n + 1][..n] == es[..n];
    FirstFaultOfPrefix(c, f, s, at, es, n + 1);
  }

  class SupplierRiskEngine {
    const config: RiskConfig

    constructor (config: RiskConfig)
      requires ConfigAccepted(config)
      ensures this.config == config
    {
      this.config := config;
    }

    method WeatherScore(s: Supplier, es: seq<CanonicalEvent>, at: Instant) returns (r: Result<FamilyScore, AssessmentError>)
      requires ConfigAccepted(config)
      ensures r == ScoreFamily(config, WeatherFamily, s, es, at)
    {
      var hazards: seq<real>, keys: seq<Key> := [], [];
      var windowStart := at - config.weatherLookback;
      for n := 0 to |es|
        invariant Collect(config, WeatherFamily, s, at, es[..n]) == Ok((hazards, keys))
      {
        var e := es[n];
        assert es[..n + 1][..n] == es[..n];
        if e.eventType != WeatherObservation {
          continue;
        }
        if !(windowStart <= e.eventTime <= at) {
          continue;
        }
        if !e.payload.reading.Weather? {
          RaisesAt(config, WeatherFamily, s, at, es, n);
          return Err(InvalidPayload(WeatherFamily));
        }
        if !Relevant(config, WeatherFamily, s, e) {
          continue;
        }
        if !Divisible(config) {
          RaisesAt(config, WeatherFamily, s, at, es, n);
          return Err(DivisionByZero);
        }
        hazards := hazards + [WeatherHazard(config, e.payload.reading.weather)];
        keys := keys + [e.deduplicationKey];
      }
      assert es[..|es|] == es;
      CollectedAll(config, WeatherFamily, s, at, es);
      return Ok(Summary(hazards, keys));
    }

    method SeismicScore(s: Supplier, es: seq<CanonicalEvent>, at: Instant) returns (r: Result<FamilyScore, AssessmentError>)
      requires ConfigAccepted(config)
      ensures r == ScoreFamily(config, SeismicFamily, s, es, at)
    {
      var hazards: seq<real>, keys: seq<Key> := [], [];
      var windowStart := at - config.seismicLookback;
      for n := 0 to |es|
        invariant Collect(config, SeismicFamily, s, at, es[..n]) == Ok((hazards, keys))
      {
        var e := es[n];
        assert es[..n + 1][..n] == es[..n];
        if e.eventType != SeismicDetection {
          continue;
        }
        if !(windowStart <= e.eventTime <= at) {
          continue;
        }
        if !e.payload.reading.Seismic? {
          RaisesAt(config, SeismicFamily, s, at, es, n);
          return Err(InvalidPayload(SeismicFamily));
        }
        var distance := DistanceTo(SeismicFamily, s, e);
        if distance > config.seismicRadiusKm {
          continue;
        }
        hazards := hazards + [SeismicHazard(config, e.payload.reading.seismic, distance)];
        keys := keys + [e.deduplicationKey];
      }
      assert es[..|es|] == es;
      CollectedAll(config, SeismicFamily, s, at, es);
      return Ok(Summary(hazards, keys));
    }

    method AssessSupplier(s: Supplier, es: seq<CanonicalEvent>, at: Instant) returns (r: Result<Assessment, AssessmentError>)
      requires ConfigAccepted(config)
      ensures r == Assess(config, s, es, at)
    {
      if !UnitComponents(BreakdownOf(config, s)) {
        return Err(ComponentOutOfRange);
      }
      var weather := WeatherScore(s, es, at);
      if weather.Err? {
        return Err(weather.error);
      }
      var seismic := SeismicScore(s, es, at);
      return Combine(config, s, at, weather, seismic);
    }
  }
}
