// Configuration, rounding and levels of Supplier Risk Model v1 (risk/models.py).
module RiskModels {
  datatype Criticality = Low | Medium | High | Critical

  datatype SupplierFields = SupplierFields(
    supplierId: string, criticality: Criticality, latitude: real, longitude: real,
    leadTimeDays: int, dependencyScore: real, singleSource: bool)

  // What the supplier contract guarantees of every supplier.
  type Supplier = s: SupplierFields | 0 < s.leadTimeDays <= 365 && 0.0 <= s.dependencyScore <= 1.0
    witness SupplierFields("SUP-000001", Low, 0.0, 0.0, 1, 0.0, false)

  datatype RiskLevel = LowRisk | MediumRisk | HighRisk | CriticalRisk

  // The two families of events; structural risk is the third factor.
  datatype Family = WeatherFamily | SeismicFamily

  datatype Factor = StructuralFactor | WeatherFactor | SeismicFactor

  datatype RiskConfig = RiskConfig(
    modelVersion: string,
    criticalityLow: real, criticalityMedium: real, criticalityHigh: real, criticalityCritical: real,
    weightCriticality: real, weightDependency: real, weightSingleSource: real, weightLeadTime: real,
    weatherLookback: int, weatherRadiusKm: real,
    windSpeedThreshold: real, windGustThreshold: real, precipitationThreshold: real, snowfallThreshold: real,
    weightWindSpeed: real, weightWindGust: real, weightPrecipitation: real, weightSnowfall: real,
    seismicLookback: int, seismicRadiusKm: real,
    weightStructural: real, weightWeather: real, weightSeismic: real)

  const HOURS := 3_600_000_000

  const DEFAULT_CONFIG := RiskConfig(
    "1.0.0",
    0.25, 0.50, 0.75, 1.00,
    0.30, 0.35, 0.20, 0.15,
    24 * HOURS, 50.0,
    100.0, 140.0, 50.0, 30.0,
    0.25, 0.35, 0.25, 0.15,
    7 * 24 * HOURS, 1000.0,
    0.50, 0.30, 0.20)

  function StructuralWeights(c: RiskConfig): real {
    c.weightCriticality + c.weightDependency + c.weightSingleSource + c.weightLeadTime
  }

  function WeatherWeights(c: RiskConfig): real {
    c.weightWindSpeed + c.weightWindGust + c.weightPrecipitation + c.weightSnowfall
  }

  function OverallWeights(c: RiskConfig): real {
    c.weightStructural + c.weightWeather + c.weightSeismic
  }

  predicate SumsToOne(total: real) {
    -0.000001 <= total - 1.0 <= 0.000001
  }

  // What the configuration's own validation accepts.
  predicate ConfigAccepted(c: RiskConfig) {
    && SumsToOne(StructuralWeights(c)) && SumsToOne(WeatherWeights(c)) && SumsToOne(OverallWeights(c))
    && c.modelVersion == "1.0.0"
    && c.weatherLookback > 0 && c.seismicLookback > 0
    && c.weatherRadiusKm > 0.0 && c.seismicRadiusKm > 0.0
  }

  // No hazard threshold is zero; the configuration's validation does not ask for it.
  predicate Divisible(c: RiskConfig) {
    && c.windSpeedThreshold != 0.0 && c.windGustThreshold != 0.0
    && c.precipitationThreshold != 0.0 && c.snowfallThreshold != 0.0
  }

  predicate NonNegativeWeights(c: RiskConfig) {
    && c.weightCriticality >= 0.0 && c.weightDependency >= 0.0
    && c.weightSingleSource >= 0.0 && c.weightLeadTime >= 0.0
    && c.weightWindSpeed >= 0.0 && c.weightWindGust >= 0.0
    && c.weightPrecipitation >= 0.0 && c.weightSnowfall >= 0.0
    && c.weightStructural >= 0.0 && c.weightWeather >= 0.0 && c.weightSeismic >= 0.0
  }

  predicate UnitCriticality(c: RiskConfig) {
    && 0.0 <= c.criticalityLow <= 1.0 && 0.0 <= c.criticalityMedium <= 1.0
    && 0.0 <= c.criticalityHigh <= 1.0 && 0.0 <= c.criticalityCritical <= 1.0
  }

  function CriticalityValue(c: RiskConfig, k: Criticality): real {
    match k
    case Low => c.criticalityLow
    case Medium => c.criticalityMedium
    case High => c.criticalityHigh
    case Critical => c.criticalityCritical
  }

  // Scores are kept in hundredths of a point. ROUND_HALF_UP rounds halves away from zero.
  function RoundScore(value: real): int {
    if value >= 0.0 then (100.0 * value + 0.5).Floor else -((-100.0 * value + 0.5).Floor)
  }

  function Points(hundredths: int): real {
    hundredths as real / 100.0
  }

  const MAX_SCORE := 10000

  predicate InRange(hundredths: int) {
    0 <= hundredths <= MAX_SCORE
  }

  function LevelForPoints(points: real): RiskLevel {
    if points < 25.0 then LowRisk
    else if points < 50.0 then MediumRisk
    else if points < 75.0 then HighRisk
    else CriticalRisk
  }

  function LevelRank(l: RiskLevel): nat {
    match l
    case LowRisk => 0
    case MediumRisk => 1
    case HighRisk => 2
    case CriticalRisk => 3
  }

  // A component's share of a weighted sum.
  function Weighted(weight: real, value: real): real {
    weight * value
  }

  lemma WeightedIsMonotone(w: real, x: real, y: real)
    requires w >= 0.0 && x <= y
    ensures Weighted(w, x) <= Weighted(w, y)
  {
  }

  lemma WeightedUpTo(w: real, x: real, max: real)
    requires w >= 0.0 && 0.0 <= x <= max
    ensures 0.0 <= Weighted(w, x) <= Weighted(w, max)
  {
    WeightedIsMonotone(w, 0.0, x);
    WeightedIsMonotone(w, x, max);
  }

  lemma WeightedUnit(w: real, x: real)
    requires w >= 0.0 && 0.0 <= x <= 1.0
    ensures 0.0 <= Weighted(w, x) <= w
  {
    WeightedUpTo(w, x, 1.0);
  }

  lemma WeightedError(w: real, x: real, y: real, d: real)
    requires w >= 0.0 && -d <= x - y <= d
    ensures -Weighted(w, d) <= Weighted(w, x) - Weighted(w, y) <= Weighted(w, d)
  {
    WeightedIsMonotone(w, x, y + d);
    WeightedIsMonotone(w, y - d, x);
  }

  // ---------- Rounding ----------

  lemma RoundingIsWithinHalfAHundredth(value: real)
    ensures -0.005 <= Points(RoundScore(value)) - value <= 0.005
  {
  }

  // Exactly which values round to n hundredths: halves go away from zero.
  lemma RoundsHalfAwayFromZero(value: real, n: int)
    ensures value >= 0.0 ==> (RoundScore(value) == n <==> n as real - 0.5 <= 100.0 * value < n as real + 0.5)
    ensures RoundScore(-value) == -RoundScore(value)
  {
  }

  lemma RoundingIsMonotone(a: real, b: real)
    requires a <= b
    ensures RoundScore(a) <= RoundScore(b)
  {
  }

  // The sum tolerance is absorbed: anything up to 100.0001 points still rounds into range.
  lemma RoundingAbsorbsTolerance(value: real)
    requires 0.0 <= value <= 100.0001
    ensures InRange(RoundScore(value))
  {
  }

  lemma LevelIsMonotone(a: real, b: real)
    requires a <= b
    ensures LevelRank(LevelForPoints(a)) <= LevelRank(LevelForPoints(b))
  {
  }
}
