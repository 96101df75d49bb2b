# cemd e-mobility core, modelled in Dafny

This project models the e-mobility core of cemd, a Go library for a customer
energy manager (CEM) that talks EEBUS/SPINE to wallboxes (EVSE), electric
vehicles (EV) and smart-meter gateways. It covers these parts:

- **Electrical-connection readers** (`ElectricalConnection`, from
  `util/electricalconnection.go`). These fold the remote EV's description,
  parameter-description and permitted-value-set tables into indexes,
  per-phase current limits, the connected phase count and the list of
  electrical limits. Each reader is an imperative method with a loop. It is
  proved equal to a recursive specification function over the table rows,
  and lemmas state what that function means: which row wins, which keys
  appear, when the Go code panics.
- **The public e-mobility API** (`EMobility`, from `emobility/public.go`).
  This is the charge state, phases, per-phase currents and limits, and
  writing obligation and recommendation current limits. Writing searches for
  the matching load-control limit, clamps the value to the electrical limits
  and sends it. The rest is the support checks for communication standard,
  self-consumption optimisation, state of charge and coordinated charging.
  The feature-package getters it calls are inputs of type `Result` or
  `Answer`.
- **The e-mobility scenario** (`EMobilityScenario`, from
  `emobility/scenario.go`). This is a class holding the registry of
  per-device e-mobility records keyed by remote SKI, the service calls it
  issued, and the local features and use cases it declared. Its methods are
  proved against functions over the registry, and lemmas about those
  functions state idempotence, isolation and well-formedness.
- **Three SPINE event handlers** (`GridEvents` from `ucmgcp/events.go`,
  `EVSoCEvents` from `ucevsoc/events.go`, `MeasurementsEVEvents` from
  `usecases/measurementsev_events.go`). Each returns the ordered list of
  calls, callback events and table reads it would issue (`SpineEvents.Action`).
  The grid and state-of-charge handlers' lists are proved equal to a
  reference filter over the full cascade; the measurements handler is
  specified by which action each data shape leads to.

In the readers, the public API and the scenario, Go runtime panics become the
outcome `Err(Panic)`; no panic is excluded by a precondition. The event
handlers return action lists and do not model panics of the calls they make
(see "## Left out"). Panics come from a nil pointer dereference, from indexing
`phaseMapping` past its third slot, and from a failed type assertion. A
panic raised inside a callee passes through a caller's
`if err != nil { return ErrX }` guard unchanged (`Common.Replace`).

A remote table is a `FeatureData`: an untyped nil (no data stored), a typed
nil pointer, or rows. The readers treat the two nils differently, as the Go
code does. Where the code type-asserts first and then tests for nil, an
untyped nil panics in the assertion and a typed nil is the "not available"
error. Where it tests `rData == nil` before asserting
(util/electricalconnection.go:249-251), an untyped nil is the error and a
typed nil panics when the loop dereferences it.

## Model

| member | source | states |
|---|---|---|
| ElectricalConnection.GetElectricalParamDescriptionListData | util/electricalconnection.go:88-110 | An untyped nil table panics in the type assertion, a typed nil gives DataNotAvailable; otherwise the two indexes built by folding the rows in order (`ParamMapsOf`) |
| ElectricalConnection.ParamMapsPanicIff | util/electricalconnection.go:101-107 | The fold fails exactly when some row with measurement and connection IDs has no parameter ID (nil dereference), and the failure is a panic |
| ElectricalConnection.ParamMapsHoldRow | util/electricalconnection.go:101-107 | Every row with measurement and connection IDs is indexed under both IDs; a row not overwritten by a later row with the same ID is the stored value |
| ElectricalConnection.ParamMapsKeys | util/electricalconnection.go:99-107 | Every key of both indexes comes from an indexed row, and its value is that row |
| ElectricalConnection.ParamMapsErrPersists | util/electricalconnection.go:101-107 | Once a prefix of the rows panics, the whole table does, with the same outcome |
| ElectricalConnection.GetElectricalDescription | util/electricalconnection.go:113-148 | An untyped nil table panics in the type assertion, a typed nil gives MetadataNotAvailable; otherwise the descriptions of the rows with a connection ID, in order |
| ElectricalConnection.DescriptionsOfAppend | util/electricalconnection.go:125-145 | Row order is kept: the descriptions of `a + b` are those of `a` followed by those of `b` |
| ElectricalConnection.DescriptionsOfEntries | util/electricalconnection.go:125-145 | At most one entry per row, exactly one per row iff every row has a connection ID, each entry describes such a row, and the connection ID of every entry stays 0 |
| ElectricalConnection.GetElectricalConnectedPhases | util/electricalconnection.go:151-175 | An untyped nil table panics in the type assertion, a typed nil gives DataNotAvailable; otherwise the phase count of the first row with a connection ID and a phase count, or 3 if there is none |
| ElectricalConnection.GetElectricalCurrentsLimits | util/electricalconnection.go:181-237 | An untyped nil parameter table panics, a typed nil gives MetadataNotAvailable, a panic in the index passes through; an untyped nil value-set table panics, a typed nil gives DataNotAvailable; otherwise the fold `LimitMapsOf`, or DataNotAvailable when both the min and the max map are empty |
| ElectricalConnection.LimitMapsErrPersists | util/electricalconnection.go:201-230 | Once a prefix of the items panics, so do all the items, with the same outcome |
| ElectricalConnection.ApplySetsKeys | util/electricalconnection.go:215-229 | Applying one item's sets adds at most its own phase to the min, max and default maps |
| ElectricalConnection.ApplyRangesKeys | util/electricalconnection.go:219-228 | Range entries add at most their phase to the min and max maps and leave the defaults alone |
| ElectricalConnection.LimitMapsPanicIff | util/electricalconnection.go:201-213 | The fold fails exactly when some item with a connection ID and a permitted value set has no parameter ID (nil dereference), and the failure is a panic |
| ElectricalConnection.ApplyRangesFrame | util/electricalconnection.go:219-228 | Range entries for one phase leave every other phase's min, max and default entries as they were |
| ElectricalConnection.ApplySetsFrame | util/electricalconnection.go:215-229 | An item's sets for one phase leave every other phase's entries as they were |
| ElectricalConnection.LimitMapsFrame | util/electricalconnection.go:201-230 | Items that do not contribute to a phase leave that phase's entries as they were |
| ElectricalConnection.ApplyRangesPhase | util/electricalconnection.go:219-228 | Range entries set a phase's min to the Min of the last entry that has one, else keep the old min; the same for max |
| ElectricalConnection.ApplySetsPhase | util/electricalconnection.go:215-229 | An item's sets set the phase's min and max from the last range entry (across all sets, in order) that has each bound, and its default from the first value of the last set that has a value; otherwise the old entry stays |
| ElectricalConnection.LimitMapsPhase | util/electricalconnection.go:198-230 | For every phase, the fold's min, max and default are those of the last range entry or set with that bound among the items contributing to the phase, and absent when there is none |
| ElectricalConnection.LimitMapsKeys | util/electricalconnection.go:198-230 | Every phase in the min, max and default maps comes from an item that contributes to it |
| ElectricalConnection.LastEntryWins | util/electricalconnection.go:215-229 | After a contributing item followed by any items that do not contribute to its phase, the phase's min and max are those of the item's last range entry that has one (else the earlier entry), and its default is the first value of the item's last set with a value (else the earlier default) |
| ElectricalConnection.ParamsByIdContents | util/electricalconnection.go:254-260 | Every row with a parameter ID is in the index, every entry is such a row, and among rows sharing an ID the last one is the entry |
| ElectricalConnection.ScanSetsErrPersists | util/electricalconnection.go:286-298 | Once a set panics, the scan of all sets has the same outcome |
| ElectricalConnection.ScanSetsPanics | util/electricalconnection.go:293-297 | The scan panics exactly when some set has a first range entry without Min or Max |
| ElectricalConnection.ScanSetsValue | util/electricalconnection.go:286-291 | `hasValue` iff some set has a value; the value is the first value of the last such set |
| ElectricalConnection.ScanSetsHasRange | util/electricalconnection.go:292-297 | `hasRange` iff some set has a range |
| ElectricalConnection.ScanSetsRange | util/electricalconnection.go:292-297 | min and max are those of the first range entry of the last set with a range |
| ElectricalConnection.Classify | util/electricalconnection.go:300-322 | An item yields a limit iff it has a range and either an AC-power-total scope or a measured phase with a value; the limit takes the item's connection ID, min and max; with power-total scope it has no default and no phase, otherwise it is an AC-current limit with the value and the phase |
| ElectricalConnection.LimitsErrPersists | util/electricalconnection.go:269-323 | Once an item panics, the whole result is that panic |
| ElectricalConnection.LimitsOfAppend | util/electricalconnection.go:267-323 | Item order is kept: the limits of `a + b` are those of `a` followed by those of `b` |
| ElectricalConnection.LimitsOfShape | util/electricalconnection.go:267-323 | At most one limit per item; each is either a power-total limit without default or phase, or an AC-current limit whose phase a parameter description declares |
| ElectricalConnection.GetElectricalLimitValues | util/electricalconnection.go:242-326 | An untyped nil parameter table gives MetadataNotAvailable and a typed nil panics in the loop; an untyped nil value-set table panics in the type assertion, a typed nil gives DataNotAvailable; otherwise the ordered fold `LimitsOf` over the parameter-ID index |
| EMobility.EVCurrentChargeState | emobility/public.go:12-30 | A read error gives Unknown with that error; otherwise Active, Paused, Error and Finished exactly for NormalOperation, Standby, Failure and Finished, and Unknown with no error for every other state |
| EMobility.EVConnectedPhases | emobility/public.go:33-40 | The phase count and no error, or 0 with the read's error |
| EMobility.EVCurrents | emobility/public.go:47-64 | Exactly three values in a, b, c order, each the measured value of that phase or 0.0; a read error is returned instead |
| EMobility.EVCurrentLimits | emobility/public.go:71-100 | Three arrays of three values each, in a, b, c order, each the map's value or 0.0; a read error is returned instead |
| EMobility.PhaseArraysAgreeWithMap | emobility/public.go:79-97 | A slot holds the map's value whenever the phase is present, and a non-zero slot implies the phase is present |
| EMobility.FindLimitDescription | emobility/public.go:164-184 | None iff no description is an Obligation for a measurement whose connection has the phase; otherwise the limit ID and connection ID of the first such description |
| EMobility.FindCurrentLimit | emobility/public.go:190-199 | None iff no current limit has the ID; otherwise the first current limit in the list with that ID |
| EMobility.ClampedValue | emobility/public.go:204-218 | The sent value is the request or the min or max of an AC-current limit of the connection, and it is the request whenever the request lies within every such limit |
| EMobility.ClampToSingleLimit | emobility/public.go:205-218 | With one AC-current limit for the connection, the value is raised to its min, lowered to its max, or kept, and always ends up within [min, max] |
| EMobility.PhaseEntryMeaning | emobility/public.go:158-227 | A phase gets an entry exactly when the first matching Obligation description has a limit ID and the first current limit with that ID is changeable; the entry is then active, for that ID, and carries the clamped value |
| EMobility.PassEntriesSlots | emobility/public.go:158-227 | A pass writes at most one entry per value, one for every value exactly when every slot yields an entry; every slot's entry is written and every written entry comes from a slot |
| EMobility.PassEntriesInSlotOrder | emobility/public.go:152-227 | The entries of the first m values are a prefix of the pass's entries: entries come out in slot order |
| EMobility.PassEntriesMeaning | emobility/public.go:158-227 | One pass writes at most one entry per value, each active, for a limit ID described as an Obligation and changeable |
| EMobility.WrittenEntriesBound | emobility/public.go:150-228 | The written list holds at most one entry per value, starts with the obligation entries, and every entry is active and changeable |
| EMobility.RecommendationPassTargetsObligationLimits | emobility/public.go:152-184 | With equally many obligations and recommendations, both passes write to the same limit IDs in the same order, because both search only Obligation descriptions |
| EMobility.SearchLimitDescription | emobility/public.go:161-188 | The loop finds what `FindLimitDescription` specifies, and no limit ID without a connection ID |
| EMobility.SearchCurrentLimit | emobility/public.go:190-202 | `found` iff a current limit has the ID, and then the item is the one `FindCurrentLimit` picks |
| EMobility.ClampLimit | emobility/public.go:204-218 | The loop computes `ClampedValue` |
| EMobility.SlotEntry | emobility/public.go:159-226 | The entry a value produces for one phase is `PhaseEntry` |
| EMobility.WritePass | emobility/public.go:153-227 | A pass panics iff it has more than three values; otherwise it writes `PassEntries` |
| EMobility.EVWriteLoadControlLimits | emobility/public.go:129-233 | Errors in order: a failed read of the parameter descriptions or the EV limit values gives MetadataNotAvailable (a panic passes through); a failed read of the limit descriptions or current limits returns that error; more than three values in either list panics before any write; otherwise exactly one write, holding the obligation entries then the recommendation entries, and the write's outcome is the result |
| EMobility.EVCommunicationStandard | emobility/public.go:250-266 | No error iff the key name is supported and the standard was read, and then the standard; otherwise Unknown with the support-check error, NotSupported, or the read error |
| EMobility.EVOptimizationOfSelfConsumptionSupported | emobility/public.go:273-290 | True iff the EV entity is found, the use case is advertised and recommendation limits are supported; errors come from the entity lookup or the category check |
| EMobility.EVSoCSupported | emobility/public.go:301-322 | True iff the EV entity is found, the use case is advertised and there is a state-of-charge measurement description; an empty description list gives false with DataNotAvailable |
| EMobility.EVSoC | emobility/public.go:334-345 | A support error gives 0.0 with that error, no support gives 0.0 with NotSupported, support gives the measured state of charge as read; no error iff supported and the read succeeded |
| EMobility.EVSoCFixtureStages | emobility/public_EVSoC_test.go:13-122 | The four stages of the SoC test: no use case, no description, no value, and the value 80.0 |
| EMobility.EVCoordinatedChargingSupported | emobility/public.go:352-364 | True iff the EV entity is found and the use case is advertised; the error is the entity lookup's |
| SpineEvents.ServedGroup | ucmgcp/events.go:42-81 | A feature's group of calls is issued whole or not at all, depending only on whether the entity has the feature |
| SpineEvents.ScopeEmitsMeaning | ucmgcp/events.go:112-142 | A batch of callback events carries the payload's SKI; a pair's event is in the batch iff its scope has a value |
| SpineEvents.ServedCallsKeepOrder | ucmgcp/events.go:41-82 | Issuing only the served calls keeps the cascade's order |
| SpineEvents.ScopeEmitsKeepOrder | ucmgcp/events.go:112-142 | Callback events come out in the order of their scopes |
| GridEvents.HandleEvent | ucmgcp/events.go:11-38 | Incompatible entities give nothing; a connected entity gives the connect cascade; only data updates of the four data shapes lead anywhere, each to its own handler |
| GridEvents.GridConnected | ucmgcp/events.go:41-82 | The connect cascade is the full eight-call cascade restricted to the features the entity has |
| GridEvents.GridConnectedOrder | ucmgcp/events.go:41-82 | At most eight calls; a call is issued iff it is in the cascade and its feature exists; the calls come in cascade order and none is repeated |
| GridEvents.GridConfigurationDescriptionDataUpdate | ucmgcp/events.go:85-92 | Key values are requested iff the entity has device configuration |
| GridEvents.GridConfigurationDataUpdate | ucmgcp/events.go:95-99 | The power-limitation-factor event is emitted for the SKI iff the factor can be read, and nothing else is done |
| GridEvents.GridMeasurementDescriptionDataUpdate | ucmgcp/events.go:102-109 | Measurement values are requested iff the entity has measurement |
| GridEvents.GridMeasurementDataUpdate | ucmgcp/events.go:112-143 | The emitted events are the reference batch over the six (scope, event) pairs |
| GridEvents.GridMeasurementEvents | ucmgcp/events.go:112-143 | At most six events, all for the SKI; each pair's event is emitted iff its scope has a value; fixed order, no repeats |
| GridEvents.HandleEventActionSources | ucmgcp/events.go:11-143 | Subscriptions only follow a connect; events only follow data updates, the factor event only for configuration data and the others only for measurement data; nothing is read |
| EVSoCEvents.HandleEvent | ucevsoc/events.go:11-34 | Incompatible entities give nothing; a connect gives the EV cascade; only a measurement-list data update leads to the state-of-charge check |
| EVSoCEvents.EVConnected | ucevsoc/events.go:37-54 | The EV cascade is the three measurement calls restricted to the entity's features |
| EVSoCEvents.EVConnectedCalls | ucevsoc/events.go:37-54 | Subscribe, descriptions and constraints on measurement iff the entity has measurement, otherwise nothing |
| EVSoCEvents.EVMeasurementDataUpdate | ucevsoc/events.go:57-62 | The reference batch of the single (state of charge, event) pair |
| EVSoCEvents.StateOfChargeEvent | ucevsoc/events.go:11-62 | The SoC event is emitted iff a compatible, not newly connected entity sends a measurement-list update with a state-of-charge value, and then it is the only action; calls only follow a connect and are all on measurement |
| MeasurementsEVEvents.HandleEvent | usecases/measurementsev_events.go:12-66 | Only data updates from an EV entity lead anywhere; parameter descriptions lead to a permitted-value-set request, measurement descriptions to a measurement-list request, and each of the three value tables to exactly one read of that table; at most one action |
| MeasurementsEVEvents.HandleEventIsRequestOrRead | usecases/measurementsev_events.go:12-66 | The handler never subscribes and never emits; a payload of any other shape does nothing |
| EMobilityScenario.NewEMobility | emobility/scenario.go:149-153 | A new record carries the SKI, currency, configuration and provider; a provider argument of another type panics |
| EMobilityScenario.RegisterInsertsOne | emobility/scenario.go:145-155 | Registering adds at most the SKI and leaves every other SKI alone; a registered SKI returns its stored record and leaves the registry unchanged; a new SKI stores and returns the new record, or, when creating it panics, returns the panic and leaves the registry unchanged |
| EMobilityScenario.RegisterIdempotent | emobility/scenario.go:145-147 | Registering a SKI a second time changes nothing and returns the first record |
| EMobilityScenario.Unregister | emobility/scenario.go:162 | The SKI is gone and every other entry is kept |
| EMobilityScenario.UnregisterForgets | emobility/scenario.go:158-180 | After unregistering, results for the SKI reach no record, others route as before, and registering again creates a new record |
| EMobilityScenario.RouteResult | emobility/scenario.go:167-181 | A result reaches a record iff it names a remote device registered in the registry, and then it reaches that device's record |
| EMobilityScenario.RouteResultReachesOwnRecord | emobility/scenario.go:167-181 | In a well-formed registry a routed result reaches the record of the device it names, with the scenario's currency and configuration |
| EMobilityScenario.RegistryStaysWellFormed | emobility/scenario.go:139-165 | Every record stays keyed by its own SKI with the scenario's currency and configuration |
| EMobilityScenario.ClientFeatureList | emobility/scenario.go:56-69 | Seven client features, plus time series and incentive table exactly when coordinated charging is enabled, none twice |
| EMobilityScenario.WithClientsMeaning | emobility/scenario.go:70-73 | Adding client features touches only their client entries, gives each the result handler and keeps its other settings |
| EMobilityScenario.SetUpFeaturesMeaning | emobility/scenario.go:37-74 | Diagnosis server with result handler, read-only state and heartbeat data and state NormalOperation; every configured client feature with the result handler; no other feature added or changed |
| EMobilityScenario.UseCaseList | emobility/scenario.go:77-137 | Six use cases in a fixed order, then coordinated EV charging exactly when enabled; all available, no name twice, only state of charge as monitoring appliance |
| EMobilityScenario.EmobilityScenario.constructor | emobility/scenario.go:27-34 | An empty registry with the given currency and configuration |
| EMobilityScenario.EmobilityScenario.AddFeatures | emobility/scenario.go:37-74 | The features become `SetUpFeatures` of the old features; nothing else changes |
| EMobilityScenario.EmobilityScenario.AddUseCases | emobility/scenario.go:77-137 | The configuration's use cases are appended; nothing else changes |
| EMobilityScenario.EmobilityScenario.RegisterRemoteDevice | emobility/scenario.go:139-156 | The registry and the returned record are those of `Register`; the registry stays well formed |
| EMobilityScenario.EmobilityScenario.UnRegisterRemoteDevice | emobility/scenario.go:158-165 | The SKI is removed and exactly one call disabling the SKI is issued |
| EMobilityScenario.EmobilityScenario.HandleResult | emobility/scenario.go:167-181 | The result goes to `RouteResult`'s record, which in a valid scenario is the record of the SKI the result names, and the registry is left alone |

## Left out

- The feature lookup that begins every reader (`GetLocalClientAndRemoteServerFeatures`, util/electricalconnection.go:89-93 and the same lines in each reader) is not modelled: each reader takes the remote tables as an input, each table an untyped nil, a typed nil or rows. The lookup's own error path is therefore not modelled.
- Subscribing and requesting on the electrical-connection feature (util/electricalconnection.go:30-81) is message plumbing. In the event handlers it appears only as `Call` actions.
- Scaled numbers and Go `float64` arithmetic are modelled as `real`, so rounding and the conversion in `NewScaledNumberType` are not captured.
- The feature-package getters that `emobility/public.go` calls are taken as `Result` or `Answer` inputs. These are GetCurrents, GetCurrentsLimits, GetParamDescriptionListData, GetEVLimitValues, GetLimitDescription, GetLimitValues, GetState, GetSoC, GetDescriptionForScope, GetEVCommunicationStandard, GetConnectedPhases and the key-name and category support checks. Their code is not part of this model.
- EMobility.EVCurrentChargeState: does not model the `deviceDiagnosis[evEntity]` lookup itself. A missing entry would be a nil receiver, and that is outside the model.
- EMobility.EVCommunicationStandard: does not model a getter that returns a nil pointer with no error. That case would dereference nil at emobility/public.go:265.
- EMobility.EVWriteLoadControlLimits: the write call's outcome is an input, and the message counter it returns is not modelled.
- The EV entity lookup (`EntityOfTypeForSki`) and the use-case advertisement check (`IsUsecaseSupported`) are inputs: the lookup's error and a flag.
- The SPINE event oracles are fields of `SpineEvents.EntityView` and `SpineEvents.EventPayload`: the entity-type filter, the entity-connected test, the existence of each feature, whether a scope has a measurement value, and whether the power limitation factor can be read.
- Logging, `fmt.Println` and `fmt.Printf` output are not modelled. A call that fails is only logged, so it never changes the actions that follow.
- MeasurementsEVEvents.HandleEvent: the values read for the three value tables are only printed, so the model records a `ReadTable` action instead of the data. The reads are the `features` package's GetElectricalDescription, GetElectricalLimitValues and GetMeasurementValues (usecases/measurementsev_events.go:26, 41, 56), whose code is not part of this model. A panic inside one of them would end the handler unlogged; the model does not capture that and treats every read as returning, with a failed read only logged.
- The scenario's mutex (emobility/scenario.go:19) is left out: the model is sequential, and every method runs as one atomic step.
- EMobilityScenario.EmobilityScenario.RegisterRemoteDevice: records are values, so the pointer identity of the returned `*EMobilityImpl` is not modelled.
- The local entity's `GetOrAddFeature`, `AddResultHandler`, `AddFunctionType`, `SetData` and `AddUseCaseSupport` are modelled as get-or-add on a map and append to a list. Their own code is not part of this model.
- The result handler is a flag on each feature, and `SetData` is the feature's state field.
- What a per-device record does with a routed result (`EMobilityImpl.HandleResult`) is not part of this model. `EMobilityScenario.EmobilityScenario.HandleResult` returns the record the result is routed to.
- cem/cem.go and ucevcc/api.go are not part of this model.
- EMobility.EVSoCFixtureStages: the test drives a version of the API that takes the entity as a parameter, so the lemma restates its four stages in terms of this model's inputs.
- EMobility.EVSoCSupported follows the code: a description list that is empty gives false with DataNotAvailable, not false with no error.
- Three quirks of the code are kept as written:
  - Both the obligation and the recommendation pass search only Obligation descriptions (emobility/public.go:169).
  - The empty-result test checks the max map twice and never the default map (util/electricalconnection.go:232).
  - The connection ID of an electrical description is never set (util/electricalconnection.go:132-144).
