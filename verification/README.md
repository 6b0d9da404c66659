# Verified model of the supply-chain intelligence platform

This Dafny project models the three state machines and the arithmetic core of the platform and
proves what they promise over every run.

1. **Event processing.** The revision-aware ledger keeps one row per deduplication key. The
   coordinator assesses, handles, records and acknowledges; the runtime coordinator turns
   failures into redelivery requests. `Pipeline` interleaves any number of coordinators over one
   ledger and one RAW log; `SerialRuns` is one coordinator; the classes in `Ledger`,
   `Coordinator` and `Disposition` are proved to be exactly its steps. `CoreSelection` is the
   independent definition of the current CORE view, and the ledger is proved to agree with it.
2. **Supplier risk.** `RiskEngine` is the deterministic engine with its loops; `RiskProperties`
   proves range, monotonicity, independence of order and repetition, and closeness to the
   unrounded sum. `RiskInputs` is the bounded reader, `MartTables` and `RiskMart` the batch
   writer over the history and current tables.
   `RiskReference` restates the documented model in the configuration's own fields and proves that
   every assessment says that.
3. **Investigation and human review.** `Investigation` holds the workflow nodes,
   `InvestigationRuns` the checkpointed executions of the graph with crashes and arbitrary
   resumes, `ReviewService` the service boundary over all threads. `RunOutcomes` and
   `ServiceAnswers` write out what runs and service calls end with, `RuntimeAnswers` what the two
   coordinators answer. The data service, the model and the resume value are arbitrary inputs.

`dafny verify dfyconfig.toml` checks everything.

## Conventions

- The deduplication key is an arbitrary function of the identity inputs (`DigestOf`); only
  `Pipeline.NoMixedRows` needs it to be injective. The content fingerprint is the pair of
  identity and payload, so it is injective.
- Instants are integers, measured values are reals, scores are integer hundredths. Distance is an
  arbitrary non-negative function of two positions.
- A failing boundary is a value in the input of the call: an exception object, a load job that
  fails before or after writing its rows, a store that stops after some nodes.
- `records`, `raw` and `workers` in `Pipeline.State` are the system; the other fields are history.

## Where the plain statement is false

Each of these is proved false at a concrete input and then stated with the exact condition under
which the code meets it.

- *CORE shows what the ledger recorded.* For a recorded key, exactly when the ledger accounts for
  every RAW row of the key (`CoreSelection.AgreementIff`). A newer revision whose recording is rolled
  back hides the recorded one (`SerialRuns.RolledBackRecordingHidesTheRecord`).
- *The delivery order does not matter.* Exactly when no key has two contents that could win: the
  unversioned ones and those of its greatest revision (`LedgerRuns.OrderIndependentIff`, at the two
  weather contents of `LedgerRuns.ObservationsDependOnOrder`).
- *Each content is handled once.* False even of one coordinator
  (`SerialRuns.RolledBackRecordingHandlesTwice`): after a delivery the handler is called again exactly
  when that delivery stopped before a committed recording (`SerialRuns.HandledAgainIff`). With one
  coordinator no handler call follows a recording of its content
  (`SerialRuns.SerialHandlesAgainOnlyAfterFailure`); with two it can
  (`SerialRuns.ConcurrentCoordinatorsMayHandleTwice`).
- *A delivery is acknowledged or redelivered, never both.* Both happen exactly when the
  acknowledger raises the very exception object the wrapper kept from an earlier handler failure
  (`Disposition.BothActionsIff`, at the deliveries of `Disposition.OneCallActsTwice`): the wrapper's
  error is cleared only by its next handler call.
- *An assessment does not depend on the order of the events.* Its values never do; which failure
  escapes does when a hazard threshold is zero, which the configuration accepts
  (`RiskProperties.OrderIndependentIff`, at the two events of `RiskProperties.FailureFollowsOrder`).
- *The bounded read does not change an assessment.* Exactly when the reader looks back at least as
  far as the engine and, for the kind of failure, no threshold is zero (`RiskInputs.TransparentIff`,
  at `RiskInputs.ShorterReaderMisses` and `RiskInputs.ReorderedReadFailsDifferently`).
- *Rounding moves the score by at most a hundredth of a point.* Exactly when the overall weights,
  which may be off by a millionth, do not exceed one (`RiskProperties.WithinAHundredthIff`, at
  `RiskProperties.TightCaseExceedsAHundredth`).

## Model

| member | source | states |
|---|---|---|
| `RuntimeAnswers.RecordMatchesEvent` | src/supplychain/processing/ledger.py:260-273 | Which events have a ledger record, which error the others raise, and what is in the record: the event's key and identifier, and its source revision exactly for USGS seismic content. |
| `RuntimeAnswers.SameFingerprintIff` | src/supplychain/processing/fingerprints.py:14-38 | Two events have the same content if and only if provider, type, source identifier, time and payload agree. |
| `RuntimeAnswers.RowMatchesEvent` | src/supplychain/warehouse/rows.py:21-48 | The RAW row of an event carries its identifier, key, ingestion time, content and source revision, and cannot be built only for unreadable USGS seismic content. |
| `RuntimeAnswers.VerdictByCase` | src/supplychain/processing/ledger.py:276-321 | The five resolutions, written out over the stored row. |
| `Ledger.AssessmentIsVerdict` | src/supplychain/processing/ledger.py:276-321 | The two-stage decision over the stored row never takes its inconsistency branch and yields the documented taxonomy: new, duplicate, newer, stale or conflict by content and revision. |
| `Ledger.SettledIsDuplicateOrStale` | src/supplychain/processing/ledger.py:287-320 | An event resolves to duplicate or stale if and only if the stored row already carries its content or a strictly newer revision. |
| `Ledger.RecordSettles` | src/supplychain/processing/ledger.py:122-143 | A recording settles its content if and only if it is not a conflict, and never unsettles any other content. |
| `Ledger.SqliteProcessingLedger.Assess` | src/supplychain/processing/ledger.py:110-120 | Read-only; fails on an inconsistent event or a storage fault, otherwise returns the taxonomy verdict of the current rows. |
| `Ledger.SqliteProcessingLedger.RecordSuccess` | src/supplychain/processing/ledger.py:122-143 | Atomic: the row of the key changes only when the call returns with new or newer revision; every failure leaves the table as it was; the returned verdict is the one of the rows before the call. |
| `LedgerRuns.RowsOnlyAdvance` | src/supplychain/processing/ledger.py:135-138 | Over any recordings a stored row stays, or is replaced by one of a strictly greater revision. |
| `LedgerRuns.SettledStaysSettled` | src/supplychain/processing/ledger.py:308-321 | An event that resolves to duplicate or stale resolves to one of the two after any further recordings. |
| `LedgerRuns.ConflictsNeverResolve` | src/supplychain/processing/ledger.py:308-321 | A conflict stays a conflict, or turns stale exactly when the stored revision overtakes it; an unversioned conflict is permanent. |
| `LedgerRuns.LedgerHoldsTheWinner` | src/supplychain/processing/ledger.py:122-143 | After any sequence of recordings of any keys, a key has a row if and only if it was delivered, and the row is its unversioned first delivery or else the first delivery of its greatest revision. |
| `LedgerRuns.StoredIsGreatest` | src/supplychain/processing/ledger.py:122-143 | Folding revisioned deliveries of one key stores a delivered record of the maximum revision. |
| `LedgerRuns.OrderDoesNotMatter` | src/supplychain/processing/ledger.py:122-143 | If no key has two contents that could win, every permutation and repetition of any deliveries of any keys leaves the same contents and revisions in the ledger. |
| `LedgerRuns.FirstDeliveredWins` | src/supplychain/processing/ledger.py:122-143 | Every content that could win is the stored one for some reordering of the deliveries. |
| `LedgerRuns.ObservationsDependOnOrder` | src/supplychain/processing/ledger.py:315-316 | Of two contents of one weather observation the ledger keeps whichever is delivered first. |
| `LedgerRuns.OrderIndependentIff` | src/supplychain/processing/ledger.py:308-321 | For any deliveries of any keys, versioned or not: all reorderings leave the same contents if and only if no key has two contents that could win, being unversioned or of the key's greatest revision. |
| `CoreSelection.SelectForKey` | tests/test_bigquery_warehouse.py:205-222 | One turn of the selection loop: the current row of the key if it has one, otherwise nothing. |
| `CoreSelection.SelectAuthoritativeCurrent` | tests/test_bigquery_warehouse.py:201-223 | The selection returns, in key order, exactly the rows that are current: unmixed key, greatest revision, one content there, earliest ingested. |
| `CoreSelection.OneFingerprint` | tests/test_bigquery_warehouse.py:212-221 | The test for a single fingerprint passes if and only if all rows have the same content. |
| `CoreSelection.CurrentIff` | tests/test_bigquery_warehouse.py:207-222 | A row is current if and only if no row of its key differs in being versioned or has a later revision, and none of its own revision has other content, an earlier ingestion time, or the same time and a smaller event identifier. |
| `CoreSelection.AgreementIff` | tests/test_bigquery_warehouse.py:201-223 | CORE shows a key's ledger record, content and revision, if and only if the ledger accounts for every RAW row of the key. |
| `CoreSelection.CoreAgreesIff` | tests/test_bigquery_warehouse.py:201-223 | CORE is the ledger, one row per ledger key with its content and revision and no other row, if and only if the ledger accounts for the rows of all its keys and CORE shows no key the ledger lacks. |
| `Pipeline.StepKeepsInv` | src/supplychain/processing/coordinator.py:112-159 | Any step of any coordinator, failing or not, keeps the invariant that ties ledger, RAW log, workers, acknowledgements and recordings together. |
| `Pipeline.RunKeepsInv` | src/supplychain/processing/coordinator.py:112-159 | The invariant holds after every interleaving of any number of coordinators, with faults and crashes. |
| `Pipeline.RunKeepsSettled` | src/supplychain/processing/coordinator.py:112-159 | Content the shared ledger accounts for stays accounted for over every further interleaving. |
| `Pipeline.AcknowledgementsAreSafe` | src/supplychain/processing/coordinator.py:118-153 | Whenever an acknowledgement is due or was attempted, the shared ledger holds that content or a strictly newer revision of its key, now and for the rest of the run. |
| `Pipeline.ConflictsAreNeverAcknowledged` | src/supplychain/processing/coordinator.py:134-153 | In every interleaving, the ledger's verdict on an acknowledged content is duplicate or stale, never a conflict, now and after any further steps. |
| `Pipeline.UnacknowledgedIffConflict` | src/supplychain/processing/coordinator.py:134-159 | A call returns unacknowledged if and only if the shared ledger is in conflict with its content at that moment; that content is never accepted afterwards. |
| `Pipeline.RunKeepsRejected` | src/supplychain/processing/ledger.py:308-321 | A content the ledger rejects as conflicting or stale stays so over every further interleaving. |
| `Pipeline.EachContentIsAcceptedOnce` | src/supplychain/processing/ledger.py:135-138 | In every interleaving the ledger accepts each content at most once. |
| `Pipeline.CoreFollowsLedger` | tests/test_bigquery_warehouse.py:201-223 | In every interleaving CORE shows a key's record exactly when the ledger accounts for the key's RAW rows; when it accounts for every row CORE is the ledger, and it does when nothing awaits its recording. |
| `Pipeline.NoMixedRows` | tests/test_bigquery_warehouse.py:207-211 | With an injective key, no key ever has both versioned and unversioned RAW rows. |
| `SerialRuns.SerialIsInterleaved` | src/supplychain/processing/coordinator.py:112-159 | Serial processing of any deliveries is one of the interleavings, so every result about them applies. |
| `SerialRuns.DeliverIsOrdered` | src/supplychain/processing/coordinator.py:117-159 | One delivery is assess, then handle, then record, then acknowledge, each reached only if the step before allows it. |
| `SerialRuns.DeliverKeepsSerialInv` | src/supplychain/processing/coordinator.py:112-159 | One delivery keeps the serial invariant and ends idle; without a fault between append and recording it leaves nothing awaiting its recording. |
| `SerialRuns.SerialCompletesOnce` | src/supplychain/processing/coordinator.py:142-159 | Over any serial deliveries with arbitrary redelivery and failures, no two recordings carry the same content. |
| `SerialRuns.SerialHandlesAgainOnlyAfterFailure` | src/supplychain/processing/coordinator.py:142-159 | With one coordinator the handler is never called on a content that was already recorded. |
| `SerialRuns.HandledAgainIff` | src/supplychain/processing/coordinator.py:117-143 | After a delivery of an acceptable event the next one calls the handler on it again if and only if the delivery stopped before a committed recording. |
| `SerialRuns.RolledBackRecordingHandlesTwice` | src/supplychain/processing/coordinator.py:142-143 | For every recordable event, two deliveries with rolled-back recordings to one coordinator handle it twice and leave two RAW rows. |
| `SerialRuns.SerialCoreAgrees` | tests/test_bigquery_warehouse.py:201-223 | After any serial deliveries CORE equals the ledger whenever the ledger accounts for every RAW row, which holds if no delivery failed between append and recording. |
| `SerialRuns.RolledBackRecordingHidesTheRecord` | src/supplychain/processing/coordinator.py:142-143 | Two revisions of one earthquake, the second appended and its recording rolled back: CORE no longer shows what the ledger recorded. |
| `SerialRuns.ConcurrentCoordinatorsMayHandleTwice` | src/supplychain/processing/coordinator.py:117-143 | For every new event there is a run of two coordinators that handles it twice, the second time after it was recorded; CORE still agrees. |
| `Coordinator.RawEventSink.Append` | src/supplychain/warehouse/bigquery.py:203-223 | The batch is appended once unless it is empty or the job failed before writing; only a submitted job can raise. |
| `Coordinator.ClassifyingHandler.Handle` | src/supplychain/processing/disposition.py:140-154 | One RAW row is appended unless the event cannot be mapped or the job failed before writing, and the wrapper keeps exactly the raised exception and its class, or nothing. |
| `Coordinator.ProcessingCoordinator.Process` | src/supplychain/processing/coordinator.py:112-159 | The call changes ledger, RAW log and acknowledgements exactly as one delivery of the step machine, keeps its invariant, and returns or raises what the boundaries decide. |
| `Coordinator.ProcessingCoordinator.HandleAndRecord` | src/supplychain/processing/coordinator.py:142-159 | From an acceptable event: one RAW row unless the handler raised before it, a recording and an acknowledgement exactly if handler and recording succeed, and the result or exception that follows. |
| `RuntimeAnswers.CoordinatorAnswers` | src/supplychain/processing/coordinator.py:112-205 | By verdict, what the call returns or raises: outcome, resolution, event identifier, key and acknowledgement flag of each result, and which boundary's exception otherwise. |
| `Disposition.RequestIsLabelled` | src/supplychain/processing/disposition.py:157-192 | A returned redelivery request is labelled for redelivery if and only if the failure is retryable or unexpected and the attempt budget is not known to be used up, and for dead-lettering otherwise; it reports a conflict if and only if the ledger found one. |
| `RuntimeAnswers.HandlerFailureIsClassified` | src/supplychain/processing/failures.py:46-64 | A retryable handler exception is reported as retryable and an unknown one as unexpected, both redelivered exactly within the attempt budget and dead-lettered beyond it; a non-retryable one is reported so and dead-lettered; one request for this very event, none for an invalid attempt. |
| `RuntimeAnswers.KeptErrorIsClassified` | src/supplychain/processing/disposition.py:83-89 | A kept handler exception that another boundary raises again is treated in the same way. |
| `RuntimeAnswers.ConflictIsDeadLettered` | src/supplychain/processing/disposition.py:99-104 | A conflict is requested as a dead letter, with the coordinator's result. |
| `RuntimeAnswers.OtherOutcomesPassThrough` | src/supplychain/processing/disposition.py:82-112 | Every other exception passes through unchanged and every acknowledged result is returned as it is, without a request. |
| `Disposition.ProcessingRuntimeCoordinator.ProcessReceived` | src/supplychain/processing/disposition.py:78-112 | The call's effect on the coordinator, the kept handler error and the redelivery requests, and its result or exception. |
| `Disposition.ProcessingRuntimeCoordinator.ApplyFailure` | src/supplychain/processing/disposition.py:114-134 | One redelivery request for a valid attempt, none for an invalid one; a failing request raises. |
| `Disposition.ReturningCallActsOnce` | src/supplychain/processing/disposition.py:78-112 | A returning call acknowledges or requests a redelivery, both if and only if its acknowledgement raised the kept handler error; it reports whether it requested, and its unacknowledged results are revision conflicts. |
| `Disposition.BothActionsIff` | src/supplychain/processing/disposition.py:83-89 | A call performs both actions if and only if acknowledging settled content raises the handler error object kept from an earlier delivery. |
| `Disposition.OneCallActsTwice` | src/supplychain/processing/disposition.py:83-89 | After a processed revision and a handler failure on the next one, redelivering the first to an acknowledger that raises the same exception object performs both actions. |
| `Disposition.RedeliversIff` | src/supplychain/processing/disposition.py:83-104 | A redelivery is requested if and only if this call's handler failed, a conflict was met, or a kept error object was raised again. |
| `Disposition.KeptErrorIsFromEarlierHandler` | src/supplychain/processing/disposition.py:146-154 | After any deliveries the kept error is one that an earlier delivery's handler raised. |
| `Disposition.EveryDeliveryActsOnce` | src/supplychain/processing/disposition.py:78-134 | With distinct exception objects, after any deliveries the next one performs at most one transport action, exactly one if it returns, and requests redelivery only for its own handler failure or a conflict. |
| `RiskModels.RoundsHalfAwayFromZero` | src/supplychain/risk/models.py:145-149 | Exactly which values round to a given number of hundredths, halves going away from zero; rounding commutes with negation. |
| `RiskModels.RoundingAbsorbsTolerance` | src/supplychain/risk/models.py:145-149 | Any sum the weight tolerance allows rounds into 0..100. |
| `RiskReference.ConfigurationAcceptedIff` | src/supplychain/risk/models.py:119-142 | Exactly which configurations are accepted. |
| `RiskReference.ShippedConfigurationBehaves` | src/supplychain/risk/models.py:89-111 | The shipped weights, criticalities, weather parts, windows and radii are the documented ones. |
| `RiskReference.ShippedExample` | src/supplychain/risk/engine.py:48-88 | The documented example supplier scores 69.55 structural and 34.78 overall points, a medium risk. |
| `RiskEngine.FirstFaultIsFirst` | src/supplychain/risk/engine.py:120-147 | A family fails with what its first raising event raises: a considered malformed payload, or a relevant weather event over a zero threshold. |
| `RiskEngine.CollectIsHits` | src/supplychain/risk/engine.py:120-129 | The loop's hazard and key lists after any events are those of the relevant events in order, or it has raised the first fault. |
| `RiskEngine.SupplierRiskEngine.WeatherScore` | src/supplychain/risk/engine.py:111-146 | For every accepted configuration the loop returns the rounded greatest hazard, sorted distinct keys and count of the relevant weather events, or the first event's payload or division failure. |
| `RiskEngine.SupplierRiskEngine.SeismicScore` | src/supplychain/risk/engine.py:148-177 | The same for seismic events within the radius. |
| `RiskEngine.SupplierRiskEngine.AssessSupplier` | src/supplychain/risk/engine.py:48-88 | The assessment is the specified combination of the three family scores, with the original's order of failures. |
| `RiskReference.WeatherHazardIsMeasure` | src/supplychain/risk/engine.py:136-146 | Over every accepted threshold but zero, each measurement counts in proportion up to its own threshold and with its full weight from there on. |
| `RiskReference.SeismicHazardIsMeasure` | src/supplychain/risk/engine.py:179-182 | For every magnitude and distance the hazard is nothing up to magnitude 3 or from the radius on, and otherwise the product of the two documented proportions. |
| `RiskProperties.WeatherHazardIsFullIff` | src/supplychain/risk/engine.py:136-146 | The weather hazard is the full weight if and only if every measurement reaches its own threshold; one measurement at its threshold contributes exactly its own weight. |
| `RiskProperties.SeismicHazardIff` | src/supplychain/risk/engine.py:179-182 | A seismic hazard is positive if and only if the magnitude exceeds 3 strictly inside the radius, and 1 if and only if the magnitude is at least 7 at distance 0. |
| `RiskProperties.StructuralSensitivity` | src/supplychain/risk/engine.py:97-108 | Changing a supplier's criticality, dependency, single-source flag or lead time moves its structural sum by exactly that exposure's weight times the change. |
| `RiskProperties.LoopCompletesIff` | src/supplychain/risk/engine.py:120-146 | A family's loop completes if and only if no considered payload is malformed and, for weather, no threshold is zero or no event is relevant. |
| `RiskReference.AssessmentNamesItsSubject` | src/supplychain/risk/engine.py:70-79 | An assessment names model version, supplier and time, and its four components are the supplier's. |
| `RiskReference.ScoresAreRoundedSums` | src/supplychain/risk/engine.py:64-109 | Structural and overall score are the documented weighted sums, rounded to the nearest hundredth, halves away from zero. |
| `RiskReference.FamilyScoresWrittenOut` | src/supplychain/risk/engine.py:111-182 | The weather and the seismic score are the rounded documented hazard of an event of the evidence that no other exceeds, and zero without evidence. |
| `RiskReference.LevelIff` | src/supplychain/risk/models.py:152-163 | The level is low below 25 points, medium below 50, high below 75 and critical from 75 on, read off the reported score. |
| `RiskReference.FaultIff` | src/supplychain/risk/engine.py:120-146 | What one event makes its loop raise. |
| `RiskReference.FailuresInOrder` | src/supplychain/risk/engine.py:57-88 | Which failure escapes: a component outside 0..1, then the first weather fault, then the first seismic fault, then a score outside 0..100. |
| `RiskProperties.AssessmentStaysInRange` | src/supplychain/risk/models.py:119-142 | For every accepted configuration with non-negative weights and unit criticalities, assessing fails if and only if a considered payload is malformed, or a threshold is zero and a weather event is relevant; otherwise all four scores lie in 0..100. |
| `RiskProperties.OverallScoreInRange` | src/supplychain/risk/engine.py:64-68 | Three family scores in range combine into a rounded overall score in range. |
| `RiskProperties.EvidenceIsExact` | src/supplychain/risk/engine.py:69-88 | The evidence keys are strictly increasing and are exactly the keys of the relevant events of both families; the counts are the numbers of those events. |
| `RiskReference.EvidenceWrittenOut` | src/supplychain/risk/engine.py:120-134 | The evidence is every event of the right type inside the closed window of its own lookback that concerns the supplier or lies within the weather radius, or lies within the seismic radius; keys sorted and once each, counts with repetition. |
| `RiskProperties.RiskIsMonotone` | src/supplychain/risk/engine.py:57-68 | Raising criticality, dependency, lead time or the single-source flag, and adding events, in any combination, lowers neither any score nor the level, through clamping and both roundings. |
| `RiskProperties.DefaultConfigQualifies` | src/supplychain/risk/models.py:89-117 | The shipped configuration meets every hypothesis of these results. |
| `RiskProperties.RepetitionOnlyChangesCounts` | src/supplychain/risk/engine.py:111-134 | Two event lists with the same events both fail, or give the same assessment except for the two counts; the failure is the same too unless a threshold is zero. |
| `RiskProperties.OrderDoesNotMatter` | src/supplychain/risk/engine.py:48-88 | Every permutation of the events gives the same assessment, or a failure on both sides, which is the same failure unless a threshold is zero. |
| `RiskProperties.FailureFollowsOrder` | src/supplychain/risk/engine.py:120-146 | Over a zero threshold, a malformed and a relevant weather event fail with the payload error in one order and with the division error in the other. |
| `RiskProperties.OrderIndependentIff` | src/supplychain/risk/engine.py:48-88 | An accepted configuration gives the same assessment or failure for every order of every events if and only if no threshold is zero (or no criticality lies in 0..1, when every assessment fails alike). |
| `RiskProperties.ReportedIsNearExact` | src/supplychain/risk/models.py:145-149 | The reported score differs from the unrounded weighted sum of unrounded family scores by at most half a hundredth plus half a hundredth per unit of overall weight. |
| `RiskProperties.WithinAHundredthIff` | src/supplychain/risk/models.py:145-168 | That difference is within 0.01 for all configurations, suppliers and events of a given total overall weight if and only if the total does not exceed one. |
| `RiskProperties.TightCaseExceedsAHundredth` | src/supplychain/risk/models.py:166-168 | A concrete configuration, supplier and event whose score is off by more than 0.01, for every tolerated total above one. |
| `RiskProperties.LevelDiffersOnlyNearThreshold` | src/supplychain/risk/models.py:152-163 | The reported level is the level of the exact sum, except within the rounding error of a threshold. |
| `RiskProperties.DominantFactorIsFirstGreatest` | src/supplychain/risk/engine.py:184-199 | The dominant factor has the greatest weighted contribution and precedes every factor it ties with. |
| `RiskReference.DominantFactorIff` | src/supplychain/risk/engine.py:184-199 | The factor for every order of the three weighted contributions, exact ties going to structural risk and then to weather. |
| `RiskInputs.ReadIsExact` | src/supplychain/warehouse/bigquery.py:355-398 | An answer holds exactly the CORE events of the two types no later than the assessment and within the longer lookback, each as often as CORE does, ordered by time and key. |
| `RiskInputs.SelectKeepsHits` | src/supplychain/warehouse/bigquery.py:352-405 | A reader that looks back far enough keeps every relevant event and the first fault of both families. |
| `RiskInputs.BoundedReadIsTransparent` | src/supplychain/warehouse/bigquery.py:352-405 | Assessing over any answer to the bounded query gives the same assessment as over all CORE events, or fails where that fails, with the same failure unless a threshold is zero. |
| `RiskInputs.ReorderedReadFailsDifferently` | src/supplychain/warehouse/bigquery.py:381-384 | Over a zero threshold the query's order can let another failure escape than CORE's order does. |
| `RiskInputs.TransparentIff` | src/supplychain/warehouse/bigquery.py:355-384 | Assessments and failures are the same for all suppliers, times and CORE contents if and only if the reader's horizon is at least the engine's and no threshold is zero (or every assessment fails alike). |
| `MartTables.HistoryIsAllAppended` | src/supplychain/warehouse/bigquery.py:437-444 | Over any loads the history table is exactly the appended batches in order. |
| `MartTables.LoadEffect` | src/supplychain/warehouse/bigquery.py:437-476 | What one load does to both tables, by how its two jobs end. |
| `MartTables.CurrentIsLastReplacement` | src/supplychain/warehouse/bigquery.py:446-453 | After any loads the current table is the batch of the last load that got past its append and whose replacement took effect, and empty if there was none. |
| `MartTables.CurrentIsOneWholeBatch` | src/supplychain/warehouse/bigquery.py:446-453 | Whichever loads failed before or after taking effect, the current table is empty or one whole batch of one load that is also in history. |
| `MartTables.CurrentIsInHistory` | src/supplychain/warehouse/bigquery.py:505-516 | Every current row is in history. |
| `RiskMart.RiskAssessmentMartLoader.AppendHistory` | src/supplychain/warehouse/bigquery.py:437-444 | Appends the batch unless empty or failed before writing; raises on failure. |
| `RiskMart.RiskAssessmentMartLoader.ReplaceCurrent` | src/supplychain/warehouse/bigquery.py:446-453 | Replaces the snapshot unless the batch is empty or failed before writing; raises on failure. |
| `RiskMart.SupplierRiskBatchService.Run` | src/supplychain/warehouse/bigquery.py:505-516 | One run changes the tables as one load of the batch it computed, or not at all if a read or an assessment failed. |
| `RiskMart.RunAnswers` | src/supplychain/warehouse/bigquery.py:505-516 | What a run returns or raises: the first read, supplier or load to fail decides. |
| `RiskMart.ReturningRunIsCurrent` | src/supplychain/warehouse/bigquery.py:514-516 | A run that returns has appended its batch to history and, unless the batch is empty, made it the current table. |
| `Wrappers.TraverseIsPointwise` | src/supplychain/warehouse/bigquery.py:511-513 | A batch either holds the assessment of every supplier in order, or fails with the failure of the first supplier that has one. |
| `RiskMart.BatchOverBoundedRead` | src/supplychain/warehouse/bigquery.py:509-513 | A batch over the bounded read is the batch over all CORE events, or fails where that fails. |
| `RiskMart.CurrentIsOneAssessment` | src/supplychain/warehouse/bigquery.py:505-516 | All current rows come from one run: one row per supplier, each the assessment of that supplier at one time over one set of events. |
| `InvestigationRuns.GateOutcome` | src/supplychain/agent/validation.py:27-131 | Over a report the workflow built, only the supplier and the evidence check can fail. |
| `RunOutcomes.GateObjectsIff` | src/supplychain/agent/validation.py:59-111 | Over any report, risk and evidence: exactly when each of the six failure codes is recorded, and passing means none is. |
| `RunOutcomes.MissingPiecesFail` | src/supplychain/agent/graph.py:333-392 | A missing profile, risk, report or validation result fails the node that needs it, with its code and message. |
| `RunOutcomes.UndecidedReviews` | src/supplychain/agent/graph.py:410-449 | A review node without a matching submission either has nothing to review or fails with its code and message. |
| `RunOutcomes.FirstNodesReset` | src/supplychain/agent/graph.py:134-189 | Initialising forgets everything but the request; preparing changes only status, key list and error fields. |
| `ServiceAnswers.FirstOccurrencesKeep` | src/supplychain/agent/graph.py:172-172 | Preparing keeps each evidence key once, in the order of first occurrence. |
| `InvestigationRuns.NodeKeepsInv` | src/supplychain/agent/graph.py:134-465 | Every node, on any answer of data service and model and any resume value, keeps the workflow invariant. |
| `InvestigationRuns.ExecuteKeepsInv` | src/supplychain/agent/graph.py:119-131 | So does every execution of the chain, cut short anywhere. |
| `InvestigationRuns.EveryExecutionIsSafe` | src/supplychain/agent/graph.py:353-404 | In every execution a failed state has no report and no final review; a pending or decided one is completed with a report that repeats the loaded risk, cites only loaded evidence and lists its sorted distinct keys; only supplier mismatch and unknown evidence are ever recorded as failures. |
| `InvestigationRuns.FailureIsAbsorbing` | src/supplychain/agent/graph.py:503-528 | No node and no resume value changes a failed state. |
| `InvestigationRuns.ModelIsCalledIff` | src/supplychain/agent/graph.py:277-304 | Wherever a run stops, between nodes or inside one, it called the model exactly once if it got into the analysis node, all four loads succeeded and the context could be built, and not at all otherwise. |
| `RunOutcomes.RunEndsAs` | src/supplychain/agent/graph.py:192-404 | Every complete run ends with what was read and either the code, message and provider details of the first step to fail, with the gate's objections, or a report copying every risk field and every analysis section and listing the evidence keys, pending review. |
| `InvestigationRuns.RunEndsPendingIff` | src/supplychain/agent/graph.py:119-130 | A complete run pauses for review, over the risk and evidence it read, if and only if all loads and the analysis succeed, the risk is the requested supplier's and every citation was loaded; otherwise it fails. |
| `InvestigationRuns.ReviewDecidedIff` | src/supplychain/agent/graph.py:407-456 | A waiting review is decided if and only if the resume value is a submission for this thread and investigation; anything else fails the investigation. |
| `ReviewService.InvestigationService.CreateInvestigation` | src/supplychain/agent/service.py:84-115 | Replaces the thread by the executed prefix of the two-node graph, or leaves all threads when the store is unavailable; answers with a state only if nothing failed. |
| `ReviewService.InvestigationService.RunInvestigation` | src/supplychain/agent/service.py:117-180 | The same for the full graph. |
| `ReviewService.InvestigationService.SubmitReview` | src/supplychain/agent/service.py:198-296 | Refuses, repeats or resumes by the stored state, with the original's order of checks and kinds of error; a refusal changes no thread. |
| `ServiceAnswers.RunAnswers` | src/supplychain/agent/service.py:117-170 | A run is answered with the stored state of the requested thread, which carries the request and ends as above; no other thread changes. |
| `ServiceAnswers.RunAnswersPendingIff` | src/supplychain/agent/service.py:146-170 | The answer is completed and pending over the risk and evidence that were read if and only if loads, analysis and gate succeed, and failed otherwise. |
| `ServiceAnswers.CreateAnswers` | src/supplychain/agent/service.py:84-115 | A creation is answered with the stored, ready and otherwise blank state of the requested thread; no other thread changes. |
| `ServiceAnswers.FaultedStart` | src/supplychain/agent/service.py:108-114 | An unavailable store changes nothing and a failing one leaves the thread where its last stored node did; both are persistence errors. |
| `ServiceAnswers.PermittedSubmissionIsAccepted` | src/supplychain/agent/service.py:275-286 | A submission to an open review is answered with the stored state, which has the decision, reviewer, time and reason of the request and is otherwise unchanged; no other thread changes. |
| `ServiceAnswers.PermittedSubmissionOverFault` | src/supplychain/agent/service.py:275-296 | Over a failing store it is a persistence error, and the decision is stored as soon as the review node was. |
| `ServiceAnswers.OtherSubmissionsAnswer` | src/supplychain/agent/service.py:222-274 | Every other submission changes nothing; which error each refused case gets, and that a final review accepts exactly the same decision, reviewer and reason at any time. |
| `ReviewService.PerformKeepsAllOk` | src/supplychain/agent/service.py:84-296 | Every service operation, with any fault, keeps the invariant of every stored thread. |
| `ReviewService.EveryStoredThreadIsSafe` | src/supplychain/agent/service.py:84-296 | After any operations a stored thread has its own identifier, is failed without a report or decision, or, when open or decided, holds a vetted report; an open review always has its validation result. |
| `ReviewService.PermittedResumeDecides` | src/supplychain/agent/graph.py:407-456 | A resume the guard permits sets the decided review and changes nothing else of the state; the missing-context and identity-mismatch failures cannot occur. |
| `ReviewService.OneOperation` | src/supplychain/agent/service.py:222-286 | An operation that starts no investigation on a thread decides its open review or leaves its state alone; which one is decided by the guard and the fault. |
| `ReviewService.FirstEffectiveSubmissionDecides` | src/supplychain/agent/service.py:242-286 | Over any operations that do not restart a thread, its state is the one its first effective submission decided if its review was open, and unchanged otherwise; so a failed thread never gets a decision and a decision is never revised. |
| `ReviewService.AcceptedIsRecorded` | src/supplychain/agent/service.py:242-286 | An accepted submission is answered with the stored state, which records its decision, reviewer and reason. |
| `ReviewService.AcceptedSubmissionsAgree` | src/supplychain/agent/service.py:344-359 | Any two accepted submissions to a thread that is not restarted are answered with the same state and agree on decision, reviewer and reason. |
| `ReviewService.FinalReviewAnswers` | src/supplychain/agent/service.py:242-264 | Once a review is final every submission changes nothing and is accepted if and only if it repeats the decision for this investigation. |

## Left out

- Database and messaging clients (BigQuery, SQLite, Pub/Sub, PostgreSQL) and SQL text: tables are maps and sequences, `BEGIN IMMEDIATE` to `COMMIT` is one step, a load job may fail before or after writing.
- SHA-256 and JSON encoding: a digest is an arbitrary function of its inputs and a fingerprint is its inputs; encoding and validating a model again is taken to give the same model.
- Ledger columns that the fingerprint determines or that no decision reads: provider, event type, source event ID, event time, schema version.
- Contract validation of texts, identifiers, timestamps and time zones: represented by subset types and integer instants.
- Floating point and the great-circle formula: numbers are exact reals and distance is an arbitrary non-negative function, so the results say nothing about floating-point error.
- Coordinator.ClassifyingHandler.Handle: wraps the RAW sink rather than an arbitrary handler.
- Coordinator.ProcessingCoordinator.Process: one coordinator object owns the ledger from its creation, so a conflict at recording time does not arise in the object; the interleaving of several coordinators, where it does, is proved on the step machine in `Pipeline`.
- Exceptions other than `Exception` subclasses and process kills inside a call: modelled as the crash action of `Pipeline` and the cut-short executions of `InvestigationRuns`, not in the classes.
- LangGraph internals: a checkpoint after each node, an input that replaces the thread, and a resume that reaches only the interrupted node are taken as given; concurrent submissions to one thread are not modelled.
- Prompt construction and context limits: building the context may fail with any code.
- Gemini client, HTTP adapters, retry client, observability, Streamlit pages, synthetic data, evaluation harness, emulator set-up and infrastructure files: plumbing, presentation or finite checks.
- Supplier snapshot loading and the remaining BigQuery readers: row mapping only.
- The approval gate never compares the loaded supplier profile's own identifier; the model keeps that and states no property of it.
