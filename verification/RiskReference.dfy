// The risk model as its documentation writes it (docs/risk/risk-model-v1.md), in the
// configuration's own fields, and what every assessment says in those terms. Nothing here is
// used by the engine.
module RiskReference {
  import opened Wrappers
  import opened SortedKeys
  import opened Events
  import opened RiskModels
  import opened RiskEngine
  import opened RiskProperties

  // ---------- Reference definitions ----------

  // n is the nearest integer to x, a half going away from zero.
  predicate NearestTo(n: int, x: real) {
    && -0.5 <= n as real - x <= 0.5
    && (n as real - x == 0.5 ==> x >= 0.0)
    && (n as real - x == -0.5 ==> x < 0.0)
  }

  predicate IsWeatherEvidence(c: RiskConfig, s: Supplier, at: Instant, e: CanonicalEvent) {
    && e.eventType == WeatherObservation
    && at - c.weatherLookback <= e.eventTime && e.eventTime <= at
    && e.payload.reading.Weather?
    && (|| (e.entity.Some? && e.entity.value.kind == "supplier" && e.entity.value.id == s.supplierId)
        || HaversineKm(s.latitude, s.longitude, e.payload.reading.weather.latitude, e.payload.reading.weather.longitude)
           <= c.weatherRadiusKm)
  }

  predicate IsSeismicEvidence(c: RiskConfig, s: Supplier, at: Instant, e: CanonicalEvent) {
    && e.eventType == SeismicDetection
    && at - c.seismicLookback <= e.eventTime && e.eventTime <= at
    && e.payload.reading.Seismic?
    && HaversineKm(s.latitude, s.longitude, e.payload.reading.seismic.latitude, e.payload.reading.seismic.longitude)
       <= c.seismicRadiusKm
  }

  predicate InEvidence(c: RiskConfig, f: Family, s: Supplier, at: Instant, e: CanonicalEvent) {
    match f
    case WeatherFamily => IsWeatherEvidence(c, s, at, e)
    case SeismicFamily => IsSeismicEvidence(c, s, at, e)
  }

  function Product(x: real, y: real): real {
    x * y
  }

  // A measurement counts in proportion up to its threshold and fully from there on.
  function Part(weight: real, measured: real, threshold: real): real {
    if threshold <= 0.0 || measured <= 0.0 then 0.0
    else if measured >= threshold then weight
    else Product(weight, measured / threshold)
  }

  function WeatherMeasure(c: RiskConfig, w: WeatherReading): real {
    Part(c.weightWindSpeed, w.windSpeedKmh, c.windSpeedThreshold)
    + Part(c.weightWindGust, w.windGustsKmh, c.windGustThreshold)
    + Part(c.weightPrecipitation, w.precipitationMm, c.precipitationThreshold)
    + Part(c.weightSnowfall, w.snowfallCm, c.snowfallThreshold)
  }

  // Nothing up to magnitude 3 or from the radius on; in proportion to both in between; the
  // magnitude counts fully from 7 on.
  function SeismicMeasure(radius: real, magnitude: real, distance: real): real
    requires radius > 0.0
  {
    if magnitude <= 3.0 || distance >= radius then 0.0
    else if magnitude >= 7.0 then 1.0 - distance / radius
    else Product((magnitude - 3.0) / 4.0, 1.0 - distance / radius)
  }

  // ---------- Formulas ----------

  lemma RoundingIsNearest(value: real)
    ensures NearestTo(RoundScore(value), 100.0 * value)
  {
  }

  lemma ShareIsPart(weight: real, measured: real, threshold: real)
    requires measured >= 0.0 && threshold != 0.0
    ensures Weighted(weight, Share(measured, threshold)) == Part(weight, measured, threshold)
  {
    var ratio := measured / threshold;
    assert ratio * threshold == measured;
    if threshold < 0.0 {
      assert ratio > 0.0 ==> ratio * threshold < 0.0;
    } else if measured >= threshold {
      assert ratio < 1.0 ==> ratio * threshold < threshold;
    } else {
      assert ratio >= 1.0 ==> ratio * threshold >= threshold;
      assert ratio < 0.0 ==> ratio * threshold < 0.0;
    }
  }

  // With no threshold at zero, the weather hazard is the documented sum of parts.
  lemma WeatherHazardIsMeasure(c: RiskConfig, w: WeatherReading)
    requires Divisible(c)
    ensures WeatherHazard(c, w) == WeatherMeasure(c, w)
  {
    ShareIsPart(c.weightWindSpeed, w.windSpeedKmh, c.windSpeedThreshold);
    ShareIsPart(c.weightWindGust, w.windGustsKmh, c.windGustThreshold);
    ShareIsPart(c.weightPrecipitation, w.precipitationMm, c.precipitationThreshold);
    ShareIsPart(c.weightSnowfall, w.snowfallCm, c.snowfallThreshold);
  }

  lemma NearnessIs(distance: Distance, radius: real)
    requires radius > 0.0
    ensures Clamp(1.0 - distance / radius) == if distance >= radius then 0.0 else 1.0 - distance / radius
  {
    var ratio := distance / radius;
    assert ratio * radius == distance;
    assert ratio < 1.0 ==> ratio * radius < radius;
    assert ratio >= 1.0 ==> ratio * radius >= radius;
    assert ratio < 0.0 ==> ratio * radius < 0.0;
  }

  // Over all magnitudes and distances the seismic hazard is the documented product.
  lemma SeismicHazardIsMeasure(c: RiskConfig, q: SeismicReading, distance: Distance)
    requires c.seismicRadiusKm > 0.0
    ensures SeismicHazard(c, q, distance) == SeismicMeasure(c.seismicRadiusKm, q.magnitude, distance)
  {
    NearnessIs(distance, c.seismicRadiusKm);
    var strength, nearness := Clamp((q.magnitude - 3.0) / 4.0), Clamp(1.0 - distance / c.seismicRadiusKm);
    assert strength == if q.magnitude <= 3.0 then 0.0 else if q.magnitude >= 7.0 then 1.0 else (q.magnitude - 3.0) / 4.0;
    assert Weighted(strength, nearness) == Product(strength, nearness);
  }

  // ---------- Where an assessment comes from ----------

  lemma AssessmentParts(c: RiskConfig, s: Supplier, es: seq<CanonicalEvent>, at: Instant)
    requires ConfigAccepted(c)
    ensures
      var weather, seismic := ScoreFamily(c, WeatherFamily, s, es, at), ScoreFamily(c, SeismicFamily, s, es, at);
      match Assess(c, s, es, at)
      case Err(_) => true
      case Ok(a) =>
        && FirstFault(c, WeatherFamily, s, at, es).None? && FirstFault(c, SeismicFamily, s, at, es).None?
        && weather.Ok? && seismic.Ok?
        && a.weatherScore == weather.value.score && a.weatherCount == weather.value.count
        && a.seismicScore == seismic.value.score && a.seismicCount == seismic.value.count
  {
  }

  // The assessment names its model, supplier and time, and carries the supplier's components.
  lemma AssessmentNamesItsSubject(c: RiskConfig, s: Supplier, es: seq<CanonicalEvent>, at: Instant)
    requires ConfigAccepted(c)
    ensures
      match Assess(c, s, es, at)
      case Err(_) => true
      case Ok(a) =>
        && a.modelVersion == "1.0.0" && a.supplierId == s.supplierId && a.assessedAt == at
        && (s.criticality.Low? ==> a.breakdown.criticality == c.criticalityLow)
        && (s.criticality.Medium? ==> a.breakdown.criticality == c.criticalityMedium)
        && (s.criticality.High? ==> a.breakdown.criticality == c.criticalityHigh)
        && (s.criticality.Critical? ==> a.breakdown.criticality == c.criticalityCritical)
        && a.breakdown.dependency == s.dependencyScore
        && a.breakdown.singleSource == (if s.singleSource then 1.0 else 0.0)
        && a.breakdown.leadTime == s.leadTimeDays as real / 365.0
  {
  }

  // The documented structural sum, in hundredths.
  function StructuralReference(c: RiskConfig, b: Breakdown): real {
    10000.0 * (Product(c.weightCriticality, b.criticality) + Product(c.weightDependency, b.dependency)
               + Product(c.weightSingleSource, b.singleSource) + Product(c.weightLeadTime, b.leadTime))
  }

  // The documented overall sum of family scores, all in hundredths.
  function OverallReference(c: RiskConfig, structural: int, weather: int, seismic: int): real {
    Product(c.weightStructural, structural as real) + Product(c.weightWeather, weather as real)
    + Product(c.weightSeismic, seismic as real)
  }

  lemma WeightedIsProduct(w: real, x: real)
    ensures Weighted(w, x) == Product(w, x)
  {
  }

  lemma PointsOfHundredths(w: real, n: int)
    ensures 100.0 * Weighted(w, Points(n)) == Product(w, n as real)
  {
  }

  lemma StructuralIsNearest(c: RiskConfig, b: Breakdown)
    ensures NearestTo(RoundScore(100.0 * StructuralSum(c, b)), StructuralReference(c, b))
  {
    WeightedIsProduct(c.weightCriticality, b.criticality);
    WeightedIsProduct(c.weightDependency, b.dependency);
    WeightedIsProduct(c.weightSingleSource, b.singleSource);
    WeightedIsProduct(c.weightLeadTime, b.leadTime);
    RoundingIsNearest(100.0 * StructuralSum(c, b));
  }

  lemma OverallIsNearest(c: RiskConfig, structural: int, weather: int, seismic: int)
    ensures NearestTo(OverallScore(c, structural, weather, seismic), OverallReference(c, structural, weather, seismic))
  {
    PointsOfHundredths(c.weightStructural, structural);
    PointsOfHundredths(c.weightWeather, weather);
    PointsOfHundredths(c.weightSeismic, seismic);
    RoundingIsNearest(OverallSum(c, Points(structural), Points(weather), Points(seismic)));
  }

  lemma AssessmentNumbers(c: RiskConfig, s: Supplier, es: seq<CanonicalEvent>, at: Instant)
    requires ConfigAccepted(c)
    ensures
      match Assess(c, s, es, at)
      case Err(_) => true
      case Ok(a) =>
        && a.structuralScore == RoundScore(100.0 * StructuralSum(c, a.breakdown))
        && a.riskScore == OverallScore(c, a.structuralScore, a.weatherScore, a.seismicScore)
        && a.dominantFactor == DominantFactor(c, a.structuralScore, a.weatherScore, a.seismicScore)
  {
  }

  // The structural and the overall score are the documented weighted sums, rounded.
  lemma ScoresAreRoundedSums(c: RiskConfig, s: Supplier, es: seq<CanonicalEvent>, at: Instant)
    requires ConfigAccepted(c)
    ensures
      match Assess(c, s, es, at)
      case Err(_) => true
      case Ok(a) =>
        && NearestTo(a.structuralScore, StructuralReference(c, a.breakdown))
        && NearestTo(a.riskScore, OverallReference(c, a.structuralScore, a.weatherScore, a.seismicScore))
  {
    AssessmentNumbers(c, s, es, at);
    if Assess(c, s, es, at).Ok? {
      var a := Assess(c, s, es, at).value;
      StructuralIsNearest(c, a.breakdown);
      OverallIsNearest(c, a.structuralScore, a.weatherScore, a.seismicScore);
    }
  }

  // The level is read off the reported score, in hundredths, at 25, 50 and 75 points.
  lemma LevelIff(c: RiskConfig, s: Supplier, es: seq<CanonicalEvent>, at: Instant)
    requires ConfigAccepted(c)
    ensures
      match Assess(c, s, es, at)
      case Err(_) => true
      case Ok(a) =>
        && 0 <= a.riskScore <= 10000
        && (a.riskLevel == LowRisk <==> a.riskScore < 2500)
        && (a.riskLevel == MediumRisk <==> 2500 <= a.riskScore < 5000)
        && (a.riskLevel == HighRisk <==> 5000 <= a.riskScore < 7500)
        && (a.riskLevel == CriticalRisk <==> 7500 <= a.riskScore)
  {
    match Assess(c, s, es, at)
    case Err(_) =>
    case Ok(a) =>
      LevelOfHundredths(a.riskScore);
  }

  lemma LevelOfHundredths(n: int)
    ensures LevelForPoints(Points(n)) ==
      if n < 2500 then LowRisk else if n < 5000 then MediumRisk else if n < 7500 then HighRisk else CriticalRisk
  {
  }

  // ---------- Evidence ----------

  lemma HitIsEvidence(c: RiskConfig, s: Supplier, at: Instant, e: CanonicalEvent)
    ensures Hit(c, WeatherFamily, s, at, e) <==> IsWeatherEvidence(c, s, at, e)
    ensures Hit(c, SeismicFamily, s, at, e) <==> IsSeismicEvidence(c, s, at, e)
  {
  }

  ghost function EvidencePositions(c: RiskConfig, f: Family, s: Supplier, es: seq<CanonicalEvent>, at: Instant): set<int> {
    set i | 0 <= i < |es| && InEvidence(c, f, s, at, es[i])
  }

  lemma PositionsStep(c: RiskConfig, f: Family, s: Supplier, before: seq<CanonicalEvent>, at: Instant, last: CanonicalEvent)
    ensures |EvidencePositions(c, f, s, before + [last], at)| ==
      |EvidencePositions(c, f, s, before, at)| + if InEvidence(c, f, s, at, last) then 1 else 0
  {
    var all := before + [last];
    var own: set<int> := if InEvidence(c, f, s, at, last) then {|before|} else {};
    assert EvidencePositions(c, f, s, all, at) == EvidencePositions(c, f, s, before, at) + own by {
      forall i ensures i in EvidencePositions(c, f, s, all, at) <==> i in EvidencePositions(c, f, s, before, at) + own {
        if 0 <= i < |before| {
          assert all[i] == before[i];
        }
      }
    }
  }

  lemma {:induction false} HitsAreCounted(c: RiskConfig, f: Family, s: Supplier, at: Instant, es: seq<CanonicalEvent>)
    ensures |Hits(c, f, s, at, es)| == |EvidencePositions(c, f, s, es, at)|
  {
    if es == [] {
      assert EvidencePositions(c, f, s, es, at) == {};
    } else {
      var before, last := es[..|es| - 1], es[|es| - 1];
      HitsAreCounted(c, f, s, at, before);
      HitIsEvidence(c, s, at, last);
      PositionsStep(c, f, s, before, at, last);
      assert es == before + [last];
    }
  }

  lemma CountsAreExact(c: RiskConfig, s: Supplier, es: seq<CanonicalEvent>, at: Instant)
    requires ConfigAccepted(c)
    ensures
      match Assess(c, s, es, at)
      case Err(_) => true
      case Ok(a) =>
        && a.weatherCount == |EvidencePositions(c, WeatherFamily, s, es, at)|
        && a.seismicCount == |EvidencePositions(c, SeismicFamily, s, es, at)|
  {
    AssessmentParts(c, s, es, at);
    HitsAreCounted(c, WeatherFamily, s, at, es);
    HitsAreCounted(c, SeismicFamily, s, at, es);
  }

  ghost predicate KeyInEvidence(c: RiskConfig, s: Supplier, es: seq<CanonicalEvent>, at: Instant, k: Key) {
    exists e :: e in es && e.deduplicationKey == k && (IsWeatherEvidence(c, s, at, e) || IsSeismicEvidence(c, s, at, e))
  }

  lemma KeyInEvidenceIff(c: RiskConfig, s: Supplier, es: seq<CanonicalEvent>, at: Instant, k: Key)
    ensures
      IsEvidence(c, WeatherFamily, s, es, at, k) || IsEvidence(c, SeismicFamily, s, es, at, k) <==>
      KeyInEvidence(c, s, es, at, k)
  {
    forall e ensures Hit(c, WeatherFamily, s, at, e) <==> IsWeatherEvidence(c, s, at, e)
             ensures Hit(c, SeismicFamily, s, at, e) <==> IsSeismicEvidence(c, s, at, e)
    {
      HitIsEvidence(c, s, at, e);
    }
  }

  // The evidence is every event of its family's type, in its window and relevant by its own
  // rule; keys sorted and each once, counts with repetition.
  lemma EvidenceWrittenOut(c: RiskConfig, s: Supplier, es: seq<CanonicalEvent>, at: Instant)
    requires ConfigAccepted(c)
    ensures
      match Assess(c, s, es, at)
      case Err(_) => true
      case Ok(a) =>
        && (forall i, j | 0 <= i < j < |a.evidenceKeys| :: a.evidenceKeys[i] < a.evidenceKeys[j])
        && (forall k :: k in a.evidenceKeys <==> KeyInEvidence(c, s, es, at, k))
        && a.weatherCount == |EvidencePositions(c, WeatherFamily, s, es, at)|
        && a.seismicCount == |EvidencePositions(c, SeismicFamily, s, es, at)|
  {
    EvidenceIsExact(c, s, es, at);
    CountsAreExact(c, s, es, at);
    forall k {
      KeyInEvidenceIff(c, s, es, at, k);
    }
  }

  // ---------- Family scores ----------

  function Measure(c: RiskConfig, s: Supplier, e: CanonicalEvent): real
    requires c.seismicRadiusKm > 0.0
  {
    match e.payload.reading
    case Weather(w) => WeatherMeasure(c, w)
    case Seismic(q) =>
      SeismicMeasure(c.seismicRadiusKm, q.magnitude, HaversineKm(s.latitude, s.longitude, q.latitude, q.longitude))
    case Neither => 0.0
  }

  // Either there is no evidence and the score is zero, or the score is the rounded measure of
  // an event of the evidence that no other exceeds.
  ghost predicate ScoredByGreatest(c: RiskConfig, f: Family, s: Supplier, es: seq<CanonicalEvent>, at: Instant, score: int)
    requires c.seismicRadiusKm > 0.0
  {
    if forall e | e in es :: !InEvidence(c, f, s, at, e) then score == 0
    else exists top :: TopEvidence(c, f, s, es, at, top) && NearestTo(score, 10000.0 * Measure(c, s, top))
  }

  ghost predicate TopEvidence(c: RiskConfig, f: Family, s: Supplier, es: seq<CanonicalEvent>, at: Instant, top: CanonicalEvent)
    requires c.seismicRadiusKm > 0.0
  {
    && top in es && InEvidence(c, f, s, at, top)
    && forall e | e in es && InEvidence(c, f, s, at, e) :: Measure(c, s, e) <= Measure(c, s, top)
  }

  lemma GreatestAt(hazards: seq<real>) returns (i: nat)
    requires hazards != []
    ensures i < |hazards| && hazards[i] == Greatest(hazards)
  {
    i :| 0 <= i < |hazards| && hazards[i] == Greatest(hazards);
  }

  lemma AtMostGreatest(hazards: seq<real>, j: nat)
    requires j < |hazards|
    ensures hazards[j] <= Greatest(hazards)
  {
    assert hazards[j] in hazards;
  }

  lemma HitAtMost(c: RiskConfig, f: Family, s: Supplier, es: seq<CanonicalEvent>, at: Instant, e: CanonicalEvent)
    requires ConfigAccepted(c) && e in es && Hit(c, f, s, at, e)
    ensures Hazard(c, f, s, e) <= Greatest(Hazards(c, f, s, Hits(c, f, s, at, es)))
  {
    var hits := Hits(c, f, s, at, es);
    assert e in hits;
    var j: nat :| j < |hits| && hits[j] == e;
    AtMostGreatest(Hazards(c, f, s, hits), j);
  }

  lemma TopHit(c: RiskConfig, f: Family, s: Supplier, es: seq<CanonicalEvent>, at: Instant) returns (top: CanonicalEvent)
    requires ConfigAccepted(c) && Hits(c, f, s, at, es) != []
    ensures top in es && Hit(c, f, s, at, top)
    ensures Hazard(c, f, s, top) == Greatest(Hazards(c, f, s, Hits(c, f, s, at, es)))
  {
    var hits := Hits(c, f, s, at, es);
    var i := GreatestAt(Hazards(c, f, s, hits));
    top := hits[i];
    assert top in hits;
  }

  // A hit is evidence, and its hazard is the documented measure.
  lemma HitIsMeasured(c: RiskConfig, f: Family, s: Supplier, es: seq<CanonicalEvent>, at: Instant, e: CanonicalEvent)
    requires ConfigAccepted(c) && FirstFault(c, f, s, at, es).None? && e in es
    ensures Hit(c, f, s, at, e) <==> InEvidence(c, f, s, at, e)
    ensures Hit(c, f, s, at, e) ==> Measure(c, s, e) == Hazard(c, f, s, e)
  {
    HitIsEvidence(c, s, at, e);
    if Hit(c, f, s, at, e) {
      match e.payload.reading
      case Weather(w) =>
        LoopCompletesIff(c, f, s, at, es);
        assert e in Hits(c, f, s, at, es);
        WeatherHazardIsMeasure(c, w);
      case Seismic(q) =>
        SeismicHazardIsMeasure(c, q, DistanceTo(f, s, e));
    }
  }

  lemma TopHitIsTopEvidence(c: RiskConfig, f: Family, s: Supplier, es: seq<CanonicalEvent>, at: Instant)
    returns (top: CanonicalEvent)
    requires ConfigAccepted(c) && FirstFault(c, f, s, at, es).None? && Hits(c, f, s, at, es) != []
    ensures TopEvidence(c, f, s, es, at, top)
    ensures Measure(c, s, top) == FamilyHazard(c, f, s, es, at)
  {
    top := TopHit(c, f, s, es, at);
    HitIsMeasured(c, f, s, es, at, top);
    forall e | e in es && InEvidence(c, f, s, at, e) ensures Measure(c, s, e) <= Measure(c, s, top) {
      HitIsMeasured(c, f, s, es, at, e);
      HitAtMost(c, f, s, es, at, e);
    }
  }

  lemma NoHitsNoEvidence(c: RiskConfig, f: Family, s: Supplier, es: seq<CanonicalEvent>, at: Instant)
    ensures Hits(c, f, s, at, es) == [] <==> forall e | e in es :: !InEvidence(c, f, s, at, e)
  {
    var hits := Hits(c, f, s, at, es);
    forall e | e in es ensures InEvidence(c, f, s, at, e) <==> e in hits {
      HitIsEvidence(c, s, at, e);
    }
    assert hits != [] ==> hits[0] in hits && hits[0] in es;
  }

  lemma FamilyIsScored(c: RiskConfig, f: Family, s: Supplier, es: seq<CanonicalEvent>, at: Instant)
    requires ConfigAccepted(c) && FirstFault(c, f, s, at, es).None?
    ensures ScoredByGreatest(c, f, s, es, at, FamilyScoreOf(c, f, s, es, at))
  {
    NoHitsNoEvidence(c, f, s, es, at);
    if Hits(c, f, s, at, es) != [] {
      var top := TopHitIsTopEvidence(c, f, s, es, at);
      RoundingIsNearest(100.0 * Measure(c, s, top));
    }
  }

  // The weather and the seismic score are the rounded greatest documented hazard among the
  // evidence, and zero without any.
  lemma FamilyScoresWrittenOut(c: RiskConfig, s: Supplier, es: seq<CanonicalEvent>, at: Instant)
    requires ConfigAccepted(c)
    ensures
      match Assess(c, s, es, at)
      case Err(_) => true
      case Ok(a) =>
        && ScoredByGreatest(c, WeatherFamily, s, es, at, a.weatherScore)
        && ScoredByGreatest(c, SeismicFamily, s, es, at, a.seismicScore)
  {
    AssessmentParts(c, s, es, at);
    AssessmentScores(c, s, es, at);
    if Assess(c, s, es, at).Ok? {
      FamilyIsScored(c, WeatherFamily, s, es, at);
      FamilyIsScored(c, SeismicFamily, s, es, at);
    }
  }

  // ---------- Dominant factor and failures ----------

  // The factor of the greatest weighted contribution; exact ties go to structural risk, then
  // to weather.
  predicate Dominates(f: Factor, structural: real, weather: real, seismic: real) {
    && (f == StructuralFactor <==> structural >= weather && structural >= seismic)
    && (f == WeatherFactor <==> weather > structural && weather >= seismic)
    && (f == SeismicFactor <==> seismic > structural && seismic > weather)
  }

  lemma DominantFactorDominates(c: RiskConfig, structural: int, weather: int, seismic: int)
    ensures Dominates(
      DominantFactor(c, structural, weather, seismic),
      Product(c.weightStructural, structural as real), Product(c.weightWeather, weather as real),
      Product(c.weightSeismic, seismic as real))
  {
    PointsOfHundredths(c.weightStructural, structural);
    PointsOfHundredths(c.weightWeather, weather);
    PointsOfHundredths(c.weightSeismic, seismic);
  }

  lemma DominantFactorIff(c: RiskConfig, s: Supplier, es: seq<CanonicalEvent>, at: Instant)
    requires ConfigAccepted(c)
    ensures
      match Assess(c, s, es, at)
      case Err(_) => true
      case Ok(a) =>
        Dominates(
          a.dominantFactor,
          Product(c.weightStructural, a.structuralScore as real), Product(c.weightWeather, a.weatherScore as real),
          Product(c.weightSeismic, a.seismicScore as real))
  {
    AssessmentNumbers(c, s, es, at);
    if Assess(c, s, es, at).Ok? {
      var a := Assess(c, s, es, at).value;
      DominantFactorDominates(c, a.structuralScore, a.weatherScore, a.seismicScore);
    }
  }

  predicate InWeatherWindow(c: RiskConfig, at: Instant, e: CanonicalEvent) {
    e.eventType == WeatherObservation && at - c.weatherLookback <= e.eventTime <= at
  }

  predicate InSeismicWindow(c: RiskConfig, at: Instant, e: CanonicalEvent) {
    e.eventType == SeismicDetection && at - c.seismicLookback <= e.eventTime <= at
  }

  predicate SomeZeroThreshold(c: RiskConfig) {
    || c.windSpeedThreshold == 0.0 || c.windGustThreshold == 0.0
    || c.precipitationThreshold == 0.0 || c.snowfallThreshold == 0.0
  }

  // What one event makes its loop raise.
  lemma FaultIff(c: RiskConfig, s: Supplier, at: Instant, e: CanonicalEvent)
    ensures Fault(c, WeatherFamily, s, at, e) ==
      if InWeatherWindow(c, at, e) && !e.payload.reading.Weather? then Some(InvalidPayload(WeatherFamily))
      else if IsWeatherEvidence(c, s, at, e) && SomeZeroThreshold(c) then Some(DivisionByZero)
      else None
    ensures Fault(c, SeismicFamily, s, at, e) ==
      if InSeismicWindow(c, at, e) && !e.payload.reading.Seismic? then Some(InvalidPayload(SeismicFamily)) else None
  {
  }

  // Which failure escapes: a component outside 0..1, then the first weather fault, then the
  // first seismic fault, then a score outside 0..100.
  lemma FailuresInOrder(c: RiskConfig, s: Supplier, es: seq<CanonicalEvent>, at: Instant)
    requires ConfigAccepted(c)
    ensures
      var level := match s.criticality
        case Low => c.criticalityLow
        case Medium => c.criticalityMedium
        case High => c.criticalityHigh
        case Critical => c.criticalityCritical;
      var weather, seismic := FirstFault(c, WeatherFamily, s, at, es), FirstFault(c, SeismicFamily, s, at, es);
      var answer := Assess(c, s, es, at);
      if level < 0.0 || level > 1.0 then answer == Err(ComponentOutOfRange)
      else if weather.Some? then answer == Err(weather.value)
      else if seismic.Some? then answer == Err(seismic.value)
      else answer.Err? ==> answer.error == ScoreOutOfRange
  {
  }

  // What the configuration's validation accepts, written out.
  lemma ConfigurationAcceptedIff(c: RiskConfig)
    ensures ConfigAccepted(c) <==>
      var structural := c.weightCriticality + c.weightDependency + c.weightSingleSource + c.weightLeadTime - 1.0;
      var weather := c.weightWindSpeed + c.weightWindGust + c.weightPrecipitation + c.weightSnowfall - 1.0;
      var overall := c.weightStructural + c.weightWeather + c.weightSeismic - 1.0;
      && structural <= 0.000001 && -structural <= 0.000001
      && weather <= 0.000001 && -weather <= 0.000001
      && overall <= 0.000001 && -overall <= 0.000001
      && c.modelVersion == "1.0.0"
      && c.weatherLookback > 0 && c.seismicLookback > 0 && c.weatherRadiusKm > 0.0 && c.seismicRadiusKm > 0.0
  {
  }

  // ---------- The shipped configuration ----------

  const MICROSECONDS_IN_AN_HOUR := 3_600_000_000

  // The documented constants, seen in what they do.
  lemma ShippedConfigurationBehaves(at: Instant, w: WeatherReading, e: CanonicalEvent, b: Breakdown, structural: int, weather: int, seismic: int)
    ensures StructuralReference(DEFAULT_CONFIG, b) ==
      3000.0 * b.criticality + 3500.0 * b.dependency + 2000.0 * b.singleSource + 1500.0 * b.leadTime
    ensures OverallReference(DEFAULT_CONFIG, structural, weather, seismic) ==
      0.5 * structural as real + 0.3 * weather as real + 0.2 * seismic as real
    ensures
      && CriticalityValue(DEFAULT_CONFIG, Low) == 0.25 && CriticalityValue(DEFAULT_CONFIG, Medium) == 0.5
      && CriticalityValue(DEFAULT_CONFIG, High) == 0.75 && CriticalityValue(DEFAULT_CONFIG, Critical) == 1.0
    ensures WeatherMeasure(DEFAULT_CONFIG, w) ==
      Part(0.25, w.windSpeedKmh, 100.0) + Part(0.35, w.windGustsKmh, 140.0)
      + Part(0.25, w.precipitationMm, 50.0) + Part(0.15, w.snowfallCm, 30.0)
    ensures InWeatherWindow(DEFAULT_CONFIG, at, e) <==>
      e.eventType == WeatherObservation && at - 24 * MICROSECONDS_IN_AN_HOUR <= e.eventTime <= at
    ensures InSeismicWindow(DEFAULT_CONFIG, at, e) <==>
      e.eventType == SeismicDetection && at - 168 * MICROSECONDS_IN_AN_HOUR <= e.eventTime <= at
    ensures DEFAULT_CONFIG.weatherRadiusKm == 50.0 && DEFAULT_CONFIG.seismicRadiusKm == 1000.0
  {
  }

  // A supplier of high criticality, dependency 0.74, single-sourced with 28 days of lead time:
  // 69.55 structural points, 34.78 points in all without events, a medium risk.
  lemma ShippedExample(s: Supplier, at: Instant)
    requires s.criticality == High && s.dependencyScore == 0.74 && s.singleSource && s.leadTimeDays == 28
    ensures
      var answer := Assess(DEFAULT_CONFIG, s, [], at);
      && answer.Ok? && answer.value.structuralScore == 6955 && answer.value.weatherScore == 0
      && answer.value.seismicScore == 0 && answer.value.riskScore == 3478
      && answer.value.riskLevel == MediumRisk && answer.value.dominantFactor == StructuralFactor
  {
    DefaultConfigQualifies();
    AssessmentStaysInRange(DEFAULT_CONFIG, s, [], at);
    AssessmentNamesItsSubject(DEFAULT_CONFIG, s, [], at);
    ScoresAreRoundedSums(DEFAULT_CONFIG, s, [], at);
    FamilyScoresWrittenOut(DEFAULT_CONFIG, s, [], at);
    LevelIff(DEFAULT_CONFIG, s, [], at);
    DominantFactorIff(DEFAULT_CONFIG, s, [], at);
  }
}
