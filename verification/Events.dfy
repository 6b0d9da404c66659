// Canonical events, their logical identity, their content fingerprint and their source
// revision (contracts/events.py, processing/fingerprints.py, processing/revisions.py).
module Events {
  import opened Wrappers
  import opened SortedKeys

  // UTC instants and durations, in some fixed unit.
  type Instant = int

  datatype EventType = WeatherObservation | SeismicDetection | SupplierSnapshot

  datatype Source = Source(provider: string, sourceEventId: string)

  datatype Entity = Entity(kind: string, id: string)

  // The measurements a payload must satisfy to pass the weather contract.
  datatype WeatherFields = WeatherFields(
    latitude: real, longitude: real,
    windSpeedKmh: real, windGustsKmh: real, precipitationMm: real, snowfallCm: real)

  type WeatherReading = w: WeatherFields |
    && -90.0 <= w.latitude <= 90.0 && -180.0 <= w.longitude <= 180.0
    && w.windSpeedKmh >= 0.0 && w.windGustsKmh >= 0.0
    && w.precipitationMm >= 0.0 && w.snowfallCm >= 0.0
    witness WeatherFields(0.0, 0.0, 0.0, 0.0, 0.0, 0.0)

  // The measurements a payload must satisfy to pass the seismic contract.
  datatype SeismicFields = SeismicFields(
    latitude: real, longitude: real, magnitude: real, sourceUpdatedAt: Instant)

  type SeismicReading = s: SeismicFields |
    && -90.0 <= s.latitude <= 90.0 && -180.0 <= s.longitude <= 180.0
    && -10.0 <= s.magnitude <= 10.0
    witness SeismicFields(0.0, 0.0, 0.0, 0)

  // What contract validation makes of a payload; no payload satisfies both contracts,
  // since each forbids fields the other requires.
  datatype Reading = Weather(weather: WeatherReading) | Seismic(seismic: SeismicReading) | Neither

  // The canonical JSON text of a payload together with what validation reads from it.
  datatype Payload = Payload(json: string, reading: Reading)

  datatype CanonicalEvent = CanonicalEvent(
    eventId: nat,
    eventType: EventType,
    eventTime: Instant,
    ingestedAt: Instant,
    source: Source,
    entity: Option<Entity>,
    payload: Payload,
    deduplicationKey: Key)

  // The identity inputs of the deduplication key.
  datatype Identity = Identity(provider: string, eventType: EventType, sourceEventId: string, eventTime: Instant)

  // SHA-256 over the identity: an arbitrary function of it.
  const DigestOf: Identity -> Key

  function IdentityOf(e: CanonicalEvent): Identity {
    Identity(e.source.provider, e.eventType, e.source.sourceEventId, e.eventTime)
  }

  // SHA-256 over identity and payload, treated as injective.
  datatype Fingerprint = Fingerprint(identity: Identity, payload: Payload)

  function FingerprintOf(e: CanonicalEvent): Fingerprint {
    Fingerprint(IdentityOf(e), e.payload)
  }

  datatype ProcessingError = InconsistentKey | RevisionContract | InconsistentAssessment

  // Only USGS seismic content carries a comparable revision; its payload must then validate.
  // Everything the extraction looks at is covered by the fingerprint.
  function SourceRevision(f: Fingerprint): Result<Option<Instant>, ProcessingError> {
    if f.identity.provider == "usgs" && f.identity.eventType.SeismicDetection? then
      match f.payload.reading
      case Seismic(s) => Ok(Some(s.sourceUpdatedAt))
      case _ => Err(RevisionContract)
    else Ok(None)
  }
}
