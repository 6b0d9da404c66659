// What the risk score guarantees: range, independence of event order and repetition,
// monotonicity, and closeness to the unrounded weighted sum.
module RiskProperties {
  import opened Wrappers
  import opened SortedKeys
  import opened Events
  import opened RiskModels
  import opened RiskEngine

  // ---------- Range ----------

  lemma StructuralSumInRange(c: RiskConfig, b: Breakdown)
    requires ConfigAccepted(c) && NonNegativeWeights(c) && UnitComponents(b)
    ensures 0.0 <= StructuralSum(c, b) <= StructuralWeights(c)
  {
    WeightedUnit(c.weightCriticality, b.criticality);
    WeightedUnit(c.weightDependency, b.dependency);
    WeightedUnit(c.weightSingleSource, b.singleSource);
    WeightedUnit(c.weightLeadTime, b.leadTime);
  }

  lemma HazardInRange(c: RiskConfig, f: Family, s: Supplier, e: CanonicalEvent)
    requires ConfigAccepted(c) && NonNegativeWeights(c) && Readable(f, e)
    ensures 0.0 <= Hazard(c, f, s, e) <= 1.000001
  {
    match e.payload.reading
    case Weather(w) =>
      WeightedUnit(c.weightWindSpeed, Share(w.windSpeedKmh, c.windSpeedThreshold));
      WeightedUnit(c.weightWindGust, Share(w.windGustsKmh, c.windGustThreshold));
      WeightedUnit(c.weightPrecipitation, Share(w.precipitationMm, c.precipitationThreshold));
      WeightedUnit(c.weightSnowfall, Share(w.snowfallCm, c.snowfallThreshold));
    case Seismic(q) =>
      WeightedUnit(Clamp((q.magnitude - 3.0) / 4.0), Clamp(1.0 - DistanceTo(f, s, e) / c.seismicRadiusKm));
  }

  // The greatest hazard among a family's hits.
  function FamilyHazard(c: RiskConfig, f: Family, s: Supplier, es: seq<CanonicalEvent>, at: Instant): real
    requires ConfigAccepted(c)
  {
    Greatest(Hazards(c, f, s, Hits(c, f, s, at, es)))
  }

  lemma FamilyHazardInRange(c: RiskConfig, f: Family, s: Supplier, es: seq<CanonicalEvent>, at: Instant)
    requires ConfigAccepted(c) && NonNegativeWeights(c)
    ensures 0.0 <= FamilyHazard(c, f, s, es, at) <= 1.000001
  {
    var hits := Hits(c, f, s, at, es);
    var hazards := Hazards(c, f, s, hits);
    if hazards != [] {
      var i :| 0 <= i < |hazards| && hazards[i] == Greatest(hazards);
      HazardInRange(c, f, s, hits[i]);
    }
  }

  // Three family scores in range combine into an overall score in range.
  lemma OverallScoreInRange(c: RiskConfig, structural: int, weather: int, seismic: int)
    requires ConfigAccepted(c) && NonNegativeWeights(c)
    requires InRange(structural) && InRange(weather) && InRange(seismic)
    ensures InRange(OverallScore(c, structural, weather, seismic))
  {
    WeightedUpTo(c.weightStructural, Points(structural), 100.0);
    WeightedUpTo(c.weightWeather, Points(weather), 100.0);
    WeightedUpTo(c.weightSeismic, Points(seismic), 100.0);
    RoundingAbsorbsTolerance(OverallSum(c, Points(structural), Points(weather), Points(seismic)));
  }

  function StructuralScoreOf(c: RiskConfig, s: Supplier): int {
    RoundScore(100.0 * StructuralSum(c, BreakdownOf(c, s)))
  }

  function FamilyScoreOf(c: RiskConfig, f: Family, s: Supplier, es: seq<CanonicalEvent>, at: Instant): int
    requires ConfigAccepted(c)
  {
    RoundScore(100.0 * FamilyHazard(c, f, s, es, at))
  }

  lemma FamilyScoresInRange(c: RiskConfig, s: Supplier, es: seq<CanonicalEvent>, at: Instant)
    requires ConfigAccepted(c) && NonNegativeWeights(c) && UnitCriticality(c)
    ensures UnitComponents(BreakdownOf(c, s)) && InRange(StructuralScoreOf(c, s))
    ensures InRange(FamilyScoreOf(c, WeatherFamily, s, es, at)) && InRange(FamilyScoreOf(c, SeismicFamily, s, es, at))
  {
    StructuralSumInRange(c, BreakdownOf(c, s));
    RoundingAbsorbsTolerance(100.0 * StructuralSum(c, BreakdownOf(c, s)));
    FamilyHazardInRange(c, WeatherFamily, s, es, at);
    RoundingAbsorbsTolerance(100.0 * FamilyHazard(c, WeatherFamily, s, es, at));
    FamilyHazardInRange(c, SeismicFamily, s, es, at);
    RoundingAbsorbsTolerance(100.0 * FamilyHazard(c, SeismicFamily, s, es, at));
  }

  predicate AllInRange(a: Assessment) {
    InRange(a.riskScore) && InRange(a.structuralScore) && InRange(a.weatherScore) && InRange(a.seismicScore)
  }

  lemma AssemblyInRange(c: RiskConfig, s: Supplier, at: Instant, weather: FamilyScore, seismic: FamilyScore)
    requires ConfigAccepted(c) && NonNegativeWeights(c) && UnitComponents(BreakdownOf(c, s))
    requires InRange(StructuralScoreOf(c, s)) && InRange(weather.score) && InRange(seismic.score)
    ensures Combine(c, s, at, Ok(weather), Ok(seismic)).Ok?
    ensures AllInRange(Combine(c, s, at, Ok(weather), Ok(seismic)).value)
  {
    OverallScoreInRange(c, StructuralScoreOf(c, s), weather.score, seismic.score);
  }

  // A considered event of the family is outside its contract.
  ghost predicate AnyMalformed(c: RiskConfig, f: Family, at: Instant, es: seq<CanonicalEvent>) {
    exists e :: e in es && Considered(c, f, at, e) && !Readable(f, e)
  }

  // The family's loop completes exactly when no considered payload is malformed and it never
  // divides by a zero threshold.
  lemma LoopCompletesIff(c: RiskConfig, f: Family, s: Supplier, at: Instant, es: seq<CanonicalEvent>)
    ensures FirstFault(c, f, s, at, es).None? <==>
      !AnyMalformed(c, f, at, es) && (f.WeatherFamily? ==> Divisible(c) || Hits(c, f, s, at, es) == [])
    ensures FirstFault(c, f, s, at, es).Some? ==>
      || FirstFault(c, f, s, at, es) == Some(InvalidPayload(f))
      || (f.WeatherFamily? && !Divisible(c) && FirstFault(c, f, s, at, es) == Some(DivisionByZero))
  {
    FirstFaultIsFirst(c, f, s, at, es);
    var hits := Hits(c, f, s, at, es);
    if FirstFault(c, f, s, at, es).None? {
      assert hits != [] ==> hits[0] in es;
    } else {
      var i: nat :| i < |es| && Fault(c, f, s, at, es[i]) == FirstFault(c, f, s, at, es);
      assert es[i] in es;
    }
  }

  // For every accepted configuration with non-negative weights and unit criticalities, an
  // assessment fails exactly on a malformed payload or a division by a zero threshold, and
  // every score lies in 0..100.
  lemma AssessmentStaysInRange(c: RiskConfig, s: Supplier, es: seq<CanonicalEvent>, at: Instant)
    requires ConfigAccepted(c) && NonNegativeWeights(c) && UnitCriticality(c)
    ensures Assess(c, s, es, at).Ok? <==>
      && !AnyMalformed(c, WeatherFamily, at, es) && !AnyMalformed(c, SeismicFamily, at, es)
      && (Divisible(c) || Hits(c, WeatherFamily, s, at, es) == [])
    ensures Assess(c, s, es, at).Err? ==>
      Assess(c, s, es, at).error.InvalidPayload? || (Assess(c, s, es, at).error.DivisionByZero? && !Divisible(c))
    ensures Assess(c, s, es, at).Ok? ==> AllInRange(Assess(c, s, es, at).value)
  {
    FamilyScoresInRange(c, s, es, at);
    LoopCompletesIff(c, WeatherFamily, s, at, es);
    LoopCompletesIff(c, SeismicFamily, s, at, es);
    var weather, seismic := ScoreFamily(c, WeatherFamily, s, es, at), ScoreFamily(c, SeismicFamily, s, es, at);
    if weather.Ok? && seismic.Ok? {
      AssemblyInRange(c, s, at, weather.value, seismic.value);
    }
  }

  // ---------- What the formulas measure ----------

  predicate PositiveWeather(c: RiskConfig) {
    && c.windSpeedThreshold > 0.0 && c.windGustThreshold > 0.0
    && c.precipitationThreshold > 0.0 && c.snowfallThreshold > 0.0
    && c.weightWindSpeed > 0.0 && c.weightWindGust > 0.0
    && c.weightPrecipitation > 0.0 && c.weightSnowfall > 0.0
  }

  lemma ShareIsFullIff(weight: real, measured: real, threshold: real)
    requires weight > 0.0 && threshold > 0.0 && measured >= 0.0
    ensures Weighted(weight, Share(measured, threshold)) <= weight
    ensures Weighted(weight, Share(measured, threshold)) == weight <==> measured >= threshold
    ensures measured == 0.0 ==> Weighted(weight, Share(measured, threshold)) == 0.0
  {
    if measured < threshold {
      assert measured / threshold < 1.0;
      assert Weighted(weight, Share(measured, threshold)) < weight;
    } else {
      assert measured / threshold >= 1.0;
    }
  }

  // A weather hazard is the full weight if and only if every measurement reaches its own
  // threshold, and a single measurement at its threshold contributes exactly its own weight.
  lemma WeatherHazardIsFullIff(c: RiskConfig, w: WeatherReading)
    requires ConfigAccepted(c) && PositiveWeather(c)
    ensures WeatherHazard(c, w) == WeatherWeights(c) <==>
      && w.windSpeedKmh >= c.windSpeedThreshold && w.windGustsKmh >= c.windGustThreshold
      && w.precipitationMm >= c.precipitationThreshold && w.snowfallCm >= c.snowfallThreshold
    ensures
      var wind, gust := w.windSpeedKmh, w.windGustsKmh;
      var rain, snow := w.precipitationMm, w.snowfallCm;
      && (wind == c.windSpeedThreshold && gust == rain == snow == 0.0 ==> WeatherHazard(c, w) == c.weightWindSpeed)
      && (gust == c.windGustThreshold && wind == rain == snow == 0.0 ==> WeatherHazard(c, w) == c.weightWindGust)
      && (rain == c.precipitationThreshold && wind == gust == snow == 0.0 ==> WeatherHazard(c, w) == c.weightPrecipitation)
      && (snow == c.snowfallThreshold && wind == gust == rain == 0.0 ==> WeatherHazard(c, w) == c.weightSnowfall)
  {
    ShareIsFullIff(c.weightWindSpeed, w.windSpeedKmh, c.windSpeedThreshold);
    ShareIsFullIff(c.weightWindGust, w.windGustsKmh, c.windGustThreshold);
    ShareIsFullIff(c.weightPrecipitation, w.precipitationMm, c.precipitationThreshold);
    ShareIsFullIff(c.weightSnowfall, w.snowfallCm, c.snowfallThreshold);
  }

  // A seismic event counts for something if and only if it is above magnitude 3 and strictly
  // inside the radius, and fully if and only if it is of magnitude 7 or more and on the spot.
  lemma SeismicHazardIff(c: RiskConfig, q: SeismicReading, distance: Distance)
    requires ConfigAccepted(c)
    ensures SeismicHazard(c, q, distance) > 0.0 <==> q.magnitude > 3.0 && distance < c.seismicRadiusKm
    ensures SeismicHazard(c, q, distance) == 1.0 <==> q.magnitude >= 7.0 && distance == 0.0
  {
    var strength, nearness := Clamp((q.magnitude - 3.0) / 4.0), Clamp(1.0 - distance / c.seismicRadiusKm);
    NearnessIff(distance, c.seismicRadiusKm);
    UnitProduct(strength, nearness);
  }

  lemma NearnessIff(distance: Distance, radius: real)
    requires radius > 0.0
    ensures Clamp(1.0 - distance / radius) > 0.0 <==> distance < radius
    ensures Clamp(1.0 - distance / radius) == 1.0 <==> distance == 0.0
  {
    var share := distance / radius;
    assert share * radius == distance;
    assert share >= 1.0 ==> share * radius >= radius;
    assert share < 1.0 ==> share * radius < radius;
    assert share > 0.0 ==> share * radius > 0.0;
  }

  lemma UnitProduct(x: real, y: real)
    requires 0.0 <= x <= 1.0 && 0.0 <= y <= 1.0
    ensures Weighted(x, y) > 0.0 <==> x > 0.0 && y > 0.0
    ensures Weighted(x, y) == 1.0 <==> x == 1.0 && y == 1.0
  {
    if x < 1.0 {
      WeightedUnit(x, y);
    } else {
      assert Weighted(x, y) == y;
    }
  }

  lemma WeightedDifference(w: real, x: real, y: real)
    ensures Weighted(w, y) - Weighted(w, x) == Weighted(w, y - x)
  {
  }

  // Changing one exposure of a supplier moves its structural sum by exactly that exposure's
  // weight times the change, and by nothing else.
  lemma StructuralSensitivity(c: RiskConfig, s: Supplier, criticality: Criticality, dependency: real, days: int)
    requires 0.0 <= dependency <= 1.0 && 0 < days <= 365
    ensures
      StructuralSum(c, BreakdownOf(c, s.(criticality := criticality))) - StructuralSum(c, BreakdownOf(c, s))
      == Weighted(c.weightCriticality, CriticalityValue(c, criticality) - CriticalityValue(c, s.criticality))
    ensures
      StructuralSum(c, BreakdownOf(c, s.(dependencyScore := dependency))) - StructuralSum(c, BreakdownOf(c, s))
      == Weighted(c.weightDependency, dependency - s.dependencyScore)
    ensures
      StructuralSum(c, BreakdownOf(c, s.(singleSource := true)))
      - StructuralSum(c, BreakdownOf(c, s.(singleSource := false)))
      == c.weightSingleSource
    ensures
      StructuralSum(c, BreakdownOf(c, s.(leadTimeDays := days))) - StructuralSum(c, BreakdownOf(c, s))
      == Weighted(c.weightLeadTime, (days - s.leadTimeDays) as real / 365.0)
  {
    WeightedDifference(c.weightCriticality, CriticalityValue(c, s.criticality), CriticalityValue(c, criticality));
    WeightedDifference(c.weightDependency, s.dependencyScore, dependency);
    WeightedDifference(c.weightLeadTime, s.leadTimeDays as real / 365.0, days as real / 365.0);
    assert Weighted(c.weightSingleSource, 1.0) - Weighted(c.weightSingleSource, 0.0) == c.weightSingleSource;
  }

  // ---------- Evidence ----------

  lemma KeysOfFamily(c: RiskConfig, f: Family, s: Supplier, es: seq<CanonicalEvent>, at: Instant, k: Key)
    requires ConfigAccepted(c) && ScoreFamily(c, f, s, es, at).Ok?
    ensures k in Elements(ScoreFamily(c, f, s, es, at).value.keys) <==>
      exists e :: e in es && Hit(c, f, s, at, e) && e.deduplicationKey == k
  {
    var hits := Hits(c, f, s, at, es);
    assert k in Elements(Keys(hits)) <==> k in Keys(hits);
    if k in Keys(hits) {
      var i :| 0 <= i < |hits| && Keys(hits)[i] == k;
      assert hits[i] in es && hits[i].deduplicationKey == k;
    }
    if e :| e in es && Hit(c, f, s, at, e) && e.deduplicationKey == k {
      var i :| 0 <= i < |hits| && hits[i] == e;
      assert Keys(hits)[i] == k;
    }
  }

  // Some relevant event of the family carries the key.
  ghost predicate IsEvidence(c: RiskConfig, f: Family, s: Supplier, es: seq<CanonicalEvent>, at: Instant, k: Key) {
    exists e :: e in es && Hit(c, f, s, at, e) && e.deduplicationKey == k
  }

  // The evidence keys are the sorted, duplicate-free keys of the relevant events of both
  // families; the counts are the numbers of relevant events.
  lemma EvidenceIsExact(c: RiskConfig, s: Supplier, es: seq<CanonicalEvent>, at: Instant)
    requires ConfigAccepted(c)
    ensures
      match Assess(c, s, es, at)
      case Err(_) => true
      case Ok(a) =>
        && StrictlyIncreasing(a.evidenceKeys)
        && (forall k :: k in a.evidenceKeys <==>
              IsEvidence(c, WeatherFamily, s, es, at, k) || IsEvidence(c, SeismicFamily, s, es, at, k))
        && a.weatherCount == |Hits(c, WeatherFamily, s, at, es)|
        && a.seismicCount == |Hits(c, SeismicFamily, s, at, es)|
  {
    match Assess(c, s, es, at)
    case Err(_) =>
    case Ok(a) =>
      forall k
        ensures k in a.evidenceKeys <==>
          IsEvidence(c, WeatherFamily, s, es, at, k) || IsEvidence(c, SeismicFamily, s, es, at, k)
      {
        assert k in a.evidenceKeys <==> k in Elements(a.evidenceKeys);
        KeysOfFamily(c, WeatherFamily, s, es, at, k);
        KeysOfFamily(c, SeismicFamily, s, es, at, k);
      }
  }

  // ---------- More events, worse supplier ----------

  // Every event of es also occurs in fs.
  ghost predicate Within(es: seq<CanonicalEvent>, fs: seq<CanonicalEvent>) {
    forall e | e in es :: e in fs
  }

  lemma MoreEventsMoreHazard(c: RiskConfig, f: Family, s: Supplier, es: seq<CanonicalEvent>, fs: seq<CanonicalEvent>, at: Instant)
    requires ConfigAccepted(c) && NonNegativeWeights(c) && Within(es, fs)
    ensures FamilyHazard(c, f, s, es, at) <= FamilyHazard(c, f, s, fs, at)
  {
    var small, large := Hits(c, f, s, at, es), Hits(c, f, s, at, fs);
    FamilyHazardInRange(c, f, s, fs, at);
    if small != [] {
      var hazards := Hazards(c, f, s, small);
      var i :| 0 <= i < |hazards| && hazards[i] == Greatest(hazards);
      assert small[i] in large;
      var j :| 0 <= j < |large| && large[j] == small[i];
      assert Hazards(c, f, s, large)[j] in Hazards(c, f, s, large);
    }
  }

  function CriticalityRank(k: Criticality): nat {
    match k
    case Low => 0
    case Medium => 1
    case High => 2
    case Critical => 3
  }

  predicate OrderedCriticality(c: RiskConfig) {
    c.criticalityLow <= c.criticalityMedium <= c.criticalityHigh <= c.criticalityCritical
  }

  // t is the same supplier as s, exposed at least as much in every structural respect.
  predicate AtLeastAsExposed(s: Supplier, t: Supplier) {
    && s.supplierId == t.supplierId && s.latitude == t.latitude && s.longitude == t.longitude
    && CriticalityRank(s.criticality) <= CriticalityRank(t.criticality)
    && s.dependencyScore <= t.dependencyScore
    && s.leadTimeDays <= t.leadTimeDays
    && (s.singleSource ==> t.singleSource)
  }

  lemma MoreExposedMoreStructural(c: RiskConfig, s: Supplier, t: Supplier)
    requires ConfigAccepted(c) && NonNegativeWeights(c) && OrderedCriticality(c) && AtLeastAsExposed(s, t)
    ensures StructuralSum(c, BreakdownOf(c, s)) <= StructuralSum(c, BreakdownOf(c, t))
  {
    var a, b := BreakdownOf(c, s), BreakdownOf(c, t);
    WeightedIsMonotone(c.weightCriticality, a.criticality, b.criticality);
    WeightedIsMonotone(c.weightDependency, a.dependency, b.dependency);
    WeightedIsMonotone(c.weightSingleSource, a.singleSource, b.singleSource);
    WeightedIsMonotone(c.weightLeadTime, a.leadTime, b.leadTime);
  }

  // Where the supplier is, and who it is, decide relevance and hazard; nothing else does.
  lemma {:induction false} ExposureDoesNotChangeHits(c: RiskConfig, f: Family, s: Supplier, t: Supplier, es: seq<CanonicalEvent>, at: Instant)
    requires AtLeastAsExposed(s, t)
    ensures Hits(c, f, s, at, es) == Hits(c, f, t, at, es)
  {
    if es != [] {
      ExposureDoesNotChangeHits(c, f, s, t, es[..|es| - 1], at);
    }
  }

  lemma ExposureDoesNotChangeHazard(c: RiskConfig, f: Family, s: Supplier, t: Supplier, es: seq<CanonicalEvent>, at: Instant)
    requires ConfigAccepted(c) && AtLeastAsExposed(s, t)
    ensures FamilyHazard(c, f, s, es, at) == FamilyHazard(c, f, t, es, at)
  {
    ExposureDoesNotChangeHits(c, f, s, t, es, at);
    var hits := Hits(c, f, s, at, es);
    assert Hazards(c, f, s, hits) == Hazards(c, f, t, hits);
  }

  lemma OverallScoreIsMonotone(c: RiskConfig, st: int, we: int, se: int, st': int, we': int, se': int)
    requires NonNegativeWeights(c) && st <= st' && we <= we' && se <= se'
    ensures OverallScore(c, st, we, se) <= OverallScore(c, st', we', se')
  {
    WeightedIsMonotone(c.weightStructural, Points(st), Points(st'));
    WeightedIsMonotone(c.weightWeather, Points(we), Points(we'));
    WeightedIsMonotone(c.weightSeismic, Points(se), Points(se'));
    RoundingIsMonotone(
      OverallSum(c, Points(st), Points(we), Points(se)),
      OverallSum(c, Points(st'), Points(we'), Points(se')));
  }

  lemma FamilyScoreIsMonotone(c: RiskConfig, f: Family, s: Supplier, t: Supplier, es: seq<CanonicalEvent>, fs: seq<CanonicalEvent>, at: Instant)
    requires ConfigAccepted(c) && NonNegativeWeights(c) && AtLeastAsExposed(s, t) && Within(es, fs)
    ensures FamilyScoreOf(c, f, s, es, at) <= FamilyScoreOf(c, f, t, fs, at)
  {
    MoreEventsMoreHazard(c, f, s, es, fs, at);
    ExposureDoesNotChangeHazard(c, f, s, t, fs, at);
    RoundingIsMonotone(100.0 * FamilyHazard(c, f, s, es, at), 100.0 * FamilyHazard(c, f, t, fs, at));
  }

  // a carries the scores of this supplier and these events.
  predicate ScoredBy(c: RiskConfig, s: Supplier, es: seq<CanonicalEvent>, at: Instant, a: Assessment)
    requires ConfigAccepted(c)
  {
    && a.structuralScore == StructuralScoreOf(c, s)
    && a.weatherScore == FamilyScoreOf(c, WeatherFamily, s, es, at)
    && a.seismicScore == FamilyScoreOf(c, SeismicFamily, s, es, at)
    && a.riskScore == OverallScore(c, a.structuralScore, a.weatherScore, a.seismicScore)
    && a.riskLevel == LevelForPoints(Points(a.riskScore))
  }

  lemma AssessmentScores(c: RiskConfig, s: Supplier, es: seq<CanonicalEvent>, at: Instant)
    requires ConfigAccepted(c)
    ensures Assess(c, s, es, at).Ok? ==> ScoredBy(c, s, es, at, Assess(c, s, es, at).value)
  {
  }

  lemma StructuralScoreIsMonotone(c: RiskConfig, s: Supplier, t: Supplier)
    requires ConfigAccepted(c) && NonNegativeWeights(c) && OrderedCriticality(c) && AtLeastAsExposed(s, t)
    ensures StructuralScoreOf(c, s) <= StructuralScoreOf(c, t)
  {
    MoreExposedMoreStructural(c, s, t);
    RoundingIsMonotone(100.0 * StructuralSum(c, BreakdownOf(c, s)), 100.0 * StructuralSum(c, BreakdownOf(c, t)));
  }

  // No score and no level of b is below that of a.
  predicate NoLower(a: Assessment, b: Assessment) {
    && a.structuralScore <= b.structuralScore && a.weatherScore <= b.weatherScore
    && a.seismicScore <= b.seismicScore && a.riskScore <= b.riskScore
    && LevelRank(a.riskLevel) <= LevelRank(b.riskLevel)
  }

  lemma ScoresAreMonotone(c: RiskConfig, s: Supplier, t: Supplier, es: seq<CanonicalEvent>, fs: seq<CanonicalEvent>,
                          at: Instant, a: Assessment, b: Assessment)
    requires ConfigAccepted(c) && NonNegativeWeights(c) && OrderedCriticality(c)
    requires AtLeastAsExposed(s, t) && Within(es, fs)
    requires ScoredBy(c, s, es, at, a) && ScoredBy(c, t, fs, at, b)
    ensures NoLower(a, b)
  {
    StructuralScoreIsMonotone(c, s, t);
    FamilyScoreIsMonotone(c, WeatherFamily, s, t, es, fs, at);
    FamilyScoreIsMonotone(c, SeismicFamily, s, t, es, fs, at);
    OverallScoreIsMonotone(c, a.structuralScore, a.weatherScore, a.seismicScore,
                           b.structuralScore, b.weatherScore, b.seismicScore);
    LevelIsMonotone(Points(a.riskScore), Points(b.riskScore));
  }

  // Raising a supplier's exposure and adding events, in any combination, never lowers any
  // score or the risk level, through clamping and both rounding stages.
  lemma RiskIsMonotone(c: RiskConfig, s: Supplier, t: Supplier, es: seq<CanonicalEvent>, fs: seq<CanonicalEvent>, at: Instant)
    requires ConfigAccepted(c) && NonNegativeWeights(c) && OrderedCriticality(c)
    requires AtLeastAsExposed(s, t) && Within(es, fs)
    ensures Assess(c, s, es, at).Ok? && Assess(c, t, fs, at).Ok? ==>
      NoLower(Assess(c, s, es, at).value, Assess(c, t, fs, at).value)
  {
    AssessmentScores(c, s, es, at);
    AssessmentScores(c, t, fs, at);
    if Assess(c, s, es, at).Ok? && Assess(c, t, fs, at).Ok? {
      ScoresAreMonotone(c, s, t, es, fs, at, Assess(c, s, es, at).value, Assess(c, t, fs, at).value);
    }
  }

  // The shipped configuration meets every hypothesis used in this module.
  lemma DefaultConfigQualifies()
    ensures ConfigAccepted(DEFAULT_CONFIG) && NonNegativeWeights(DEFAULT_CONFIG)
    ensures UnitCriticality(DEFAULT_CONFIG) && OrderedCriticality(DEFAULT_CONFIG)
  {
  }

  // ---------- Order and repetition of events ----------

  ghost predicate SameEvents(es: seq<CanonicalEvent>, fs: seq<CanonicalEvent>) {
    forall e :: e in es <==> e in fs
  }

  lemma SameEventsSameHazard(c: RiskConfig, f: Family, s: Supplier, es: seq<CanonicalEvent>, fs: seq<CanonicalEvent>, at: Instant)
    requires ConfigAccepted(c) && SameEvents(es, fs)
    ensures FamilyHazard(c, f, s, es, at) == FamilyHazard(c, f, s, fs, at)
  {
    var a, b := Hits(c, f, s, at, es), Hits(c, f, s, at, fs);
    HazardIsAttained(c, f, s, a, b);
    HazardIsAttained(c, f, s, b, a);
    assert a == [] <==> b == [] by {
      assert a != [] ==> a[0] in b;
      assert b != [] ==> b[0] in a;
    }
  }

  lemma HazardIsAttained(c: RiskConfig, f: Family, s: Supplier, a: seq<CanonicalEvent>, b: seq<CanonicalEvent>)
    requires ConfigAccepted(c) && (forall e | e in a :: e in b && Readable(f, e)) && (forall e | e in b :: Readable(f, e))
    ensures a != [] ==> Greatest(Hazards(c, f, s, a)) <= Greatest(Hazards(c, f, s, b))
  {
    if a != [] {
      var hazards := Hazards(c, f, s, a);
      var i :| 0 <= i < |hazards| && hazards[i] == Greatest(hazards);
      assert a[i] in b;
      var j :| 0 <= j < |b| && b[j] == a[i];
      assert Hazards(c, f, s, b)[j] in Hazards(c, f, s, b);
    }
  }

  // The same events raise or do not raise; what they raise can differ only for weather over a
  // zero threshold.
  lemma SameEventsSameFault(c: RiskConfig, f: Family, s: Supplier, es: seq<CanonicalEvent>, fs: seq<CanonicalEvent>, at: Instant)
    requires SameEvents(es, fs)
    ensures FirstFault(c, f, s, at, es).Some? <==> FirstFault(c, f, s, at, fs).Some?
    ensures f.SeismicFamily? || Divisible(c) ==> FirstFault(c, f, s, at, es) == FirstFault(c, f, s, at, fs)
  {
    LoopCompletesIff(c, f, s, at, es);
    LoopCompletesIff(c, f, s, at, fs);
    var a, b := Hits(c, f, s, at, es), Hits(c, f, s, at, fs);
    assert a != [] ==> a[0] in b;
    assert b != [] ==> b[0] in a;
  }

  lemma SameEventsSameFamilyScore(c: RiskConfig, f: Family, s: Supplier, es: seq<CanonicalEvent>, fs: seq<CanonicalEvent>, at: Instant)
    requires ConfigAccepted(c) && SameEvents(es, fs)
    ensures
      match (ScoreFamily(c, f, s, es, at), ScoreFamily(c, f, s, fs, at))
      case (Ok(a), Ok(b)) => a.score == b.score && a.keys == b.keys
      case (Err(x), Err(y)) => f.SeismicFamily? || Divisible(c) ==> x == y
      case _ => false
  {
    SameEventsSameHazard(c, f, s, es, fs, at);
    SameEventsSameFault(c, f, s, es, fs, at);
    if FirstFault(c, f, s, at, es).None? {
      forall k ensures k in Elements(ScoreFamily(c, f, s, es, at).value.keys)
                  <==> k in Elements(ScoreFamily(c, f, s, fs, at).value.keys) {
        KeysOfFamily(c, f, s, es, at, k);
        KeysOfFamily(c, f, s, fs, at, k);
      }
      SortedIsUnique(ScoreFamily(c, f, s, es, at).value.keys, ScoreFamily(c, f, s, fs, at).value.keys);
    }
  }

  // Repeating events, or dropping repetitions, changes nothing but the two counts, and over
  // a zero threshold perhaps the kind of failure.
  lemma RepetitionOnlyChangesCounts(c: RiskConfig, s: Supplier, es: seq<CanonicalEvent>, fs: seq<CanonicalEvent>, at: Instant)
    requires ConfigAccepted(c) && SameEvents(es, fs)
    ensures
      match (Assess(c, s, es, at), Assess(c, s, fs, at))
      case (Ok(a), Ok(b)) => a == b.(weatherCount := a.weatherCount, seismicCount := a.seismicCount)
      case (Err(x), Err(y)) => Divisible(c) ==> x == y
      case _ => false
  {
    SameEventsSameFamilyScore(c, WeatherFamily, s, es, fs, at);
    SameEventsSameFamilyScore(c, SeismicFamily, s, es, fs, at);
  }

  lemma {:induction false} HitsMultiset(c: RiskConfig, f: Family, s: Supplier, es: seq<CanonicalEvent>, at: Instant, e: CanonicalEvent)
    ensures multiset(Hits(c, f, s, at, es))[e] == if Hit(c, f, s, at, e) then multiset(es)[e] else 0
  {
    if es != [] {
      var before, last := es[..|es| - 1], es[|es| - 1];
      HitsMultiset(c, f, s, before, at, e);
      assert es == before + [last];
    }
  }

  lemma PermutationKeepsCount(c: RiskConfig, f: Family, s: Supplier, es: seq<CanonicalEvent>, fs: seq<CanonicalEvent>, at: Instant)
    requires multiset(es) == multiset(fs)
    ensures |Hits(c, f, s, at, es)| == |Hits(c, f, s, at, fs)|
  {
    forall e ensures multiset(Hits(c, f, s, at, es))[e] == multiset(Hits(c, f, s, at, fs))[e] {
      HitsMultiset(c, f, s, es, at, e);
      HitsMultiset(c, f, s, fs, at, e);
    }
    assert multiset(Hits(c, f, s, at, es)) == multiset(Hits(c, f, s, at, fs));
    assert |multiset(Hits(c, f, s, at, es))| == |Hits(c, f, s, at, es)|;
  }

  // Equal assessments, or a failure on both sides.
  predicate SameUpToFailure(x: Result<Assessment, AssessmentError>, y: Result<Assessment, AssessmentError>) {
    x == y || (x.Err? && y.Err?)
  }

  // The assessment does not depend on the order of the events, and neither does its failure
  // unless a threshold is zero.
  lemma OrderDoesNotMatter(c: RiskConfig, s: Supplier, es: seq<CanonicalEvent>, fs: seq<CanonicalEvent>, at: Instant)
    requires ConfigAccepted(c) && multiset(es) == multiset(fs)
    ensures SameUpToFailure(Assess(c, s, es, at), Assess(c, s, fs, at))
    ensures Divisible(c) ==> Assess(c, s, es, at) == Assess(c, s, fs, at)
  {
    assert SameEvents(es, fs) by {
      forall e ensures e in es <==> e in fs {
        assert e in es <==> e in multiset(es);
        assert e in fs <==> e in multiset(fs);
      }
    }
    RepetitionOnlyChangesCounts(c, s, es, fs, at);
    PermutationKeepsCount(c, WeatherFamily, s, es, fs, at);
    PermutationKeepsCount(c, SeismicFamily, s, es, fs, at);
  }

  // A weather event that no contract admits, and a calm one about the supplier itself.
  function MalformedWeather(at: Instant): CanonicalEvent {
    CanonicalEvent(0, WeatherObservation, at, at, Source("x", "x"), None, Payload("{}", Neither), 0)
  }

  function CalmWeather(s: Supplier, at: Instant): CanonicalEvent {
    CanonicalEvent(1, WeatherObservation, at, at, Source("x", "y"), Some(Entity("supplier", s.supplierId)),
                   Payload("{}", Weather(WeatherFields(0.0, 0.0, 0.0, 0.0, 0.0, 0.0))), 1)
  }

  // Over a zero threshold, whichever of the two comes first decides what escapes.
  lemma FailureFollowsOrder(c: RiskConfig, s: Supplier, at: Instant)
    requires ConfigAccepted(c) && !Divisible(c) && UnitComponents(BreakdownOf(c, s))
    ensures Assess(c, s, [MalformedWeather(at), CalmWeather(s, at)], at) == Err(InvalidPayload(WeatherFamily))
    ensures Assess(c, s, [CalmWeather(s, at), MalformedWeather(at)], at) == Err(DivisionByZero)
  {
    var malformed, calm := MalformedWeather(at), CalmWeather(s, at);
    assert Fault(c, WeatherFamily, s, at, malformed) == Some(InvalidPayload(WeatherFamily));
    assert Fault(c, WeatherFamily, s, at, calm) == Some(DivisionByZero);
    FirstOfTwo(c, s, at, malformed, calm);
    FirstOfTwo(c, s, at, calm, malformed);
  }

  lemma FirstOfTwo(c: RiskConfig, s: Supplier, at: Instant, e: CanonicalEvent, next: CanonicalEvent)
    requires Fault(c, WeatherFamily, s, at, e).Some?
    ensures FirstFault(c, WeatherFamily, s, at, [e, next]) == Fault(c, WeatherFamily, s, at, e)
  {
    assert [e, next][..1] == [e] && [e][..0] == [];
    assert FirstFault(c, WeatherFamily, s, at, [e]) == Fault(c, WeatherFamily, s, at, e);
    FirstFaultOfPrefix(c, WeatherFamily, s, at, [e, next], 1);
  }

  ghost predicate SomeUnitCriticality(c: RiskConfig) {
    exists k :: 0.0 <= CriticalityValue(c, k) <= 1.0
  }

  // An accepted configuration gives the same assessment or failure for every order of every
  // events exactly when no threshold is zero, or when it has no usable criticality at all.
  lemma OrderIndependentIff(c: RiskConfig)
    requires ConfigAccepted(c)
    ensures Divisible(c) || !SomeUnitCriticality(c) <==>
      forall s: Supplier, es, fs, at | multiset(es) == multiset(fs) :: Assess(c, s, es, at) == Assess(c, s, fs, at)
  {
    if Divisible(c) {
      forall s: Supplier, es, fs, at | multiset(es) == multiset(fs)
        ensures Assess(c, s, es, at) == Assess(c, s, fs, at)
      {
        OrderDoesNotMatter(c, s, es, fs, at);
      }
    } else if SomeUnitCriticality(c) {
      var k :| 0.0 <= CriticalityValue(c, k) <= 1.0;
      var s: Supplier := SupplierFields("SUP-000001", k, 0.0, 0.0, 1, 0.0, false);
      var es: seq<CanonicalEvent> := [MalformedWeather(0), CalmWeather(s, 0)];
      var fs: seq<CanonicalEvent> := [CalmWeather(s, 0), MalformedWeather(0)];
      FailureFollowsOrder(c, s, 0);
      assert multiset(es) == multiset(fs);
    }
  }

  // ---------- Rounding ----------

  // The weighted sum without any rounding.
  function ExactPoints(c: RiskConfig, s: Supplier, es: seq<CanonicalEvent>, at: Instant): real
    requires ConfigAccepted(c)
  {
    OverallSum(c,
      100.0 * StructuralSum(c, BreakdownOf(c, s)),
      100.0 * FamilyHazard(c, WeatherFamily, s, es, at),
      100.0 * FamilyHazard(c, SeismicFamily, s, es, at))
  }

  // Half a hundredth from the final rounding, and as much again for each unit of weight.
  predicate WithinError(c: RiskConfig, reported: real, exact: real) {
    -0.005 * (1.0 + OverallWeights(c)) <= reported - exact <= 0.005 * (1.0 + OverallWeights(c))
  }

  lemma RoundedSumError(c: RiskConfig, st: real, we: real, se: real)
    requires NonNegativeWeights(c)
    ensures WithinError(c, Points(OverallScore(c, RoundScore(st), RoundScore(we), RoundScore(se))), OverallSum(c, st, we, se))
  {
    RoundingIsWithinHalfAHundredth(st);
    RoundingIsWithinHalfAHundredth(we);
    RoundingIsWithinHalfAHundredth(se);
    var st', we', se' := Points(RoundScore(st)), Points(RoundScore(we)), Points(RoundScore(se));
    WeightedError(c.weightStructural, st', st, 0.005);
    WeightedError(c.weightWeather, we', we, 0.005);
    WeightedError(c.weightSeismic, se', se, 0.005);
    RoundingIsWithinHalfAHundredth(OverallSum(c, st', we', se'));
  }

  lemma ExactError(c: RiskConfig, s: Supplier, es: seq<CanonicalEvent>, at: Instant)
    requires ConfigAccepted(c) && NonNegativeWeights(c)
    ensures
      var score := OverallScore(c, StructuralScoreOf(c, s), FamilyScoreOf(c, WeatherFamily, s, es, at),
                                FamilyScoreOf(c, SeismicFamily, s, es, at));
      WithinError(c, Points(score), ExactPoints(c, s, es, at))
  {
    RoundedSumError(c,
      100.0 * StructuralSum(c, BreakdownOf(c, s)),
      100.0 * FamilyHazard(c, WeatherFamily, s, es, at),
      100.0 * FamilyHazard(c, SeismicFamily, s, es, at));
  }

  // Distance of the reported score from the exact one, for every accepted configuration.
  lemma ReportedIsNearExact(c: RiskConfig, s: Supplier, es: seq<CanonicalEvent>, at: Instant)
    requires ConfigAccepted(c) && NonNegativeWeights(c)
    ensures Assess(c, s, es, at).Ok? ==>
      WithinError(c, Points(Assess(c, s, es, at).value.riskScore), ExactPoints(c, s, es, at))
  {
    AssessmentScores(c, s, es, at);
    ExactError(c, s, es, at);
  }

  predicate NearThreshold(points: real, d: real) {
    -d <= points - 25.0 <= d || -d <= points - 50.0 <= d || -d <= points - 75.0 <= d
  }

  lemma NearbyLevels(reported: real, exact: real, d: real)
    requires -d <= reported - exact <= d
    ensures LevelForPoints(reported) == LevelForPoints(exact) || NearThreshold(exact, d)
  {
  }

  // The reported level is the exact level, except within the rounding error of a threshold.
  lemma LevelDiffersOnlyNearThreshold(c: RiskConfig, s: Supplier, es: seq<CanonicalEvent>, at: Instant)
    requires ConfigAccepted(c) && NonNegativeWeights(c)
    ensures Assess(c, s, es, at).Ok? ==>
      || Assess(c, s, es, at).value.riskLevel == LevelForPoints(ExactPoints(c, s, es, at))
      || NearThreshold(ExactPoints(c, s, es, at), 0.005 * (1.0 + OverallWeights(c)))
  {
    AssessmentScores(c, s, es, at);
    ReportedIsNearExact(c, s, es, at);
    if Assess(c, s, es, at).Ok? {
      NearbyLevels(Points(Assess(c, s, es, at).value.riskScore), ExactPoints(c, s, es, at), 0.005 * (1.0 + OverallWeights(c)));
    }
  }

  predicate WithinAHundredth(c: RiskConfig, s: Supplier, es: seq<CanonicalEvent>, at: Instant)
    requires ConfigAccepted(c)
  {
    Assess(c, s, es, at).Ok? ==>
      -0.01 <= Points(Assess(c, s, es, at).value.riskScore) - ExactPoints(c, s, es, at) <= 0.01
  }

  // ---- The rounding error can exceed a hundredth when the weights exceed one ----

  // Every rounding of this case is a half rounded up, for any total weight the tolerance allows.
  function TightConfig(total: real): RiskConfig {
    DEFAULT_CONFIG.(
      criticalityLow := 0.0,
      weightCriticality := 0.0, weightDependency := 1.0, weightSingleSource := 0.0, weightLeadTime := 0.0,
      weightWindSpeed := 1.0, weightWindGust := 0.0, weightPrecipitation := 0.0, weightSnowfall := 0.0,
      weightStructural := 1.5 - total, weightWeather := 2.0 * total - 1.5, weightSeismic := 0.0)
  }

  const TIGHT_SUPPLIER: Supplier := SupplierFields("SUP-000001", Low, 0.0, 0.0, 1, 0.00015, false)

  const TIGHT_READING: WeatherReading := WeatherFields(0.0, 0.0, 0.005, 0.0, 0.0, 0.0)

  const TIGHT_EVENT :=
    CanonicalEvent(0, WeatherObservation, 0, 0, Source("x", "x"), Some(Entity("supplier", "SUP-000001")),
                   Payload("{}", Weather(TIGHT_READING)), 0)

  lemma TightConfigQualifies(total: real)
    requires SumsToOne(total)
    ensures ConfigAccepted(TightConfig(total)) && NonNegativeWeights(TightConfig(total)) && UnitCriticality(TightConfig(total))
    ensures OverallWeights(TightConfig(total)) == total
  {
  }

  lemma TightComponents(c: RiskConfig, total: real)
    requires SumsToOne(total) && c == TightConfig(total) && ConfigAccepted(c)
    ensures StructuralSum(c, BreakdownOf(c, TIGHT_SUPPLIER)) == 0.00015
    ensures WeatherHazard(c, TIGHT_READING) == 0.00005
  {
    assert Share(0.005, 100.0) == 0.00005;
    assert Weighted(1.0, 0.00015) == 0.00015 && Weighted(1.0, 0.00005) == 0.00005;
    assert forall x {:trigger Weighted(0.0, x)} :: Weighted(0.0, x) == 0.0;
  }

  lemma TightHits(c: RiskConfig, total: real)
    requires SumsToOne(total) && c == TightConfig(total) && ConfigAccepted(c)
    ensures Hits(c, WeatherFamily, TIGHT_SUPPLIER, 0, [TIGHT_EVENT]) == [TIGHT_EVENT]
    ensures Hits(c, SeismicFamily, TIGHT_SUPPLIER, 0, [TIGHT_EVENT]) == []
    ensures !AnyMalformed(c, WeatherFamily, 0, [TIGHT_EVENT]) && !AnyMalformed(c, SeismicFamily, 0, [TIGHT_EVENT])
    ensures Divisible(c)
  {
    assert [TIGHT_EVENT][..0] == [];
    assert c.weatherLookback > 0;
  }

  lemma TightHazards(c: RiskConfig, total: real)
    requires SumsToOne(total) && c == TightConfig(total) && ConfigAccepted(c)
    ensures FamilyHazard(c, WeatherFamily, TIGHT_SUPPLIER, [TIGHT_EVENT], 0) == 0.00005
    ensures FamilyHazard(c, SeismicFamily, TIGHT_SUPPLIER, [TIGHT_EVENT], 0) == 0.0
  {
    TightHits(c, total);
    TightComponents(c, total);
    var hazards := Hazards(c, WeatherFamily, TIGHT_SUPPLIER, [TIGHT_EVENT]);
    assert hazards == [0.00005] && Greatest(hazards) in hazards;
  }

  lemma TightSums(total: real)
    ensures OverallScore(TightConfig(total), RoundScore(0.015), RoundScore(0.005), RoundScore(0.0)) == 2
    ensures OverallSum(TightConfig(total), 0.015, 0.005, 0.0) == 0.015 - 0.005 * total
  {
    assert RoundScore(0.015) == 2 && RoundScore(0.005) == 1 && RoundScore(0.0) == 0;
    assert OverallSum(TightConfig(total), Points(2), Points(1), Points(0)) == 0.015;
  }

  lemma TightCaseExceedsAHundredth(total: real)
    requires SumsToOne(total) && total > 1.0
    ensures ConfigAccepted(TightConfig(total)) && OverallWeights(TightConfig(total)) == total
    ensures !WithinAHundredth(TightConfig(total), TIGHT_SUPPLIER, [TIGHT_EVENT], 0)
  {
    var c := TightConfig(total);
    TightConfigQualifies(total);
    TightComponents(c, total);
    TightHits(c, total);
    TightHazards(c, total);
    AssessmentStaysInRange(c, TIGHT_SUPPLIER, [TIGHT_EVENT], 0);
    AssessmentScores(c, TIGHT_SUPPLIER, [TIGHT_EVENT], 0);
    TightSums(total);
  }

  // The error stays within a hundredth of a point for every supplier and event list exactly
  // when the overall weights, within their tolerance, do not exceed one.
  lemma WithinAHundredthIff(total: real)
    requires SumsToOne(total)
    ensures total <= 1.0 <==>
      forall c, s: Supplier, es, at
        | ConfigAccepted(c) && NonNegativeWeights(c) && OverallWeights(c) == total :: WithinAHundredth(c, s, es, at)
  {
    if total <= 1.0 {
      forall c, s: Supplier, es, at | ConfigAccepted(c) && NonNegativeWeights(c) && OverallWeights(c) == total
        ensures WithinAHundredth(c, s, es, at)
      {
        ReportedIsNearExact(c, s, es, at);
      }
    } else {
      TightConfigQualifies(total);
      TightCaseExceedsAHundredth(total);
    }
  }

  // ---------- Dominant factor ----------

  function Contribution(c: RiskConfig, a: Assessment, f: Factor): real {
    match f
    case StructuralFactor => Weighted(c.weightStructural, Points(a.structuralScore))
    case WeatherFactor => Weighted(c.weightWeather, Points(a.weatherScore))
    case SeismicFactor => Weighted(c.weightSeismic, Points(a.seismicScore))
  }

  function FactorIndex(f: Factor): nat {
    match f
    case StructuralFactor => 0
    case WeatherFactor => 1
    case SeismicFactor => 2
  }

  // The dominant factor has the greatest weighted contribution and precedes its ties.
  lemma DominantFactorIsFirstGreatest(c: RiskConfig, s: Supplier, es: seq<CanonicalEvent>, at: Instant, f: Factor)
    requires ConfigAccepted(c)
    ensures
      match Assess(c, s, es, at)
      case Err(_) => true
      case Ok(a) =>
        || Contribution(c, a, f) < Contribution(c, a, a.dominantFactor)
        || (Contribution(c, a, f) == Contribution(c, a, a.dominantFactor)
            && FactorIndex(a.dominantFactor) <= FactorIndex(f))
  {
  }
}
