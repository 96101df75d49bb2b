/** The e-mobility scenario: the registry of per-device e-mobility records
    keyed by remote SKI, the result routing over it, and the features and use
    cases the scenario declares on the local CEM entity. */
module EMobilityScenario {
  import opened Common
  import opened SpineEvents
  import EMobility

  datatype Configuration = Configuration(coordinatedChargingEnabled: bool)

  datatype Role = Server | Client

  datatype FunctionType = DeviceDiagnosisStateData | DeviceDiagnosisHeartbeatData

  /** Read and write permission of a function type on a local feature. */
  datatype Permission = Permission(read: bool, write: bool)

  /** A local feature as the scenario sets it up: whether the scenario is
      registered as its result handler, its function types, and the
      diagnosis state data it serves. */
  datatype FeatureSetup = FeatureSetup(
    resultHandler: bool,
    functions: map<FunctionType, Permission>,
    stateData: Option<EMobility.OperatingState>)

  type FeatureKey = (FeatureType, Role)

  datatype UseCaseActor = ActorCEM | ActorMonitoringAppliance

  datatype UseCaseName =
    | EVSECommissioningAndConfiguration
    | EVCommissioningAndConfiguration
    | MeasurementOfElectricityDuringEVCharging
    | OverloadProtectionByEVChargingCurrentCurtailment
    | EVStateOfCharge
    | OptimizationOfSelfConsumptionDuringEVCharging
    | CoordinatedEVCharging

  /** One use-case support declaration on the local entity. */
  datatype UseCaseSupport = UseCaseSupport(
    actor: UseCaseActor,
    name: UseCaseName,
    version: string,
    subRevision: string,
    available: bool,
    scenarios: seq<nat>)

  /** The data-provider argument of a registration: none, an e-mobility data
      provider, or a value of another type (the type assertion then panics). */
  datatype ProviderArg = NoProvider | EmobilityProvider(name: string) | OtherValue

  /** The per-device e-mobility record the registry holds. */
  datatype EMobilityRecord = EMobilityRecord(
    ski: string,
    currency: string,
    configuration: Configuration,
    provider: Option<string>)

  /** A result message; `deviceSki` is None when it carries no remote device. */
  datatype ResultMessage = ResultMessage(deviceSki: Option<string>, errorNumber: nat)

  /** A call on the service. */
  datatype ServiceCall = RegisterRemoteSKI(ski: string, enable: bool)

  // ---------------------------------------------------------------------------
  // The registry, as values
  // ---------------------------------------------------------------------------

  type Registry = map<string, EMobilityRecord>

  /** A new record for a SKI; a provider of another type panics. */
  function NewEMobility(ski: string, currency: string, configuration: Configuration, provider: ProviderArg)
    : (r: Result<EMobilityRecord>)
    ensures r.Err? <==> provider.OtherValue?
    ensures r.Err? ==> r.error == Panic
    ensures r.Ok? ==> r.value.ski == ski && r.value.currency == currency && r.value.configuration == configuration
    ensures r.Ok? ==> r.value.provider == (if provider.EmobilityProvider? then Some(provider.name) else None)
  {
    match provider
    case NoProvider => Ok(EMobilityRecord(ski, currency, configuration, None))
    case EmobilityProvider(name) => Ok(EMobilityRecord(ski, currency, configuration, Some(name)))
    case OtherValue => Err(Panic)
  }

  /** A registration's new registry and returned record. */
  datatype Registration = Registration(devices: Registry, em: Result<EMobilityRecord>)

  /** Registration: a known SKI keeps its record; otherwise the created
      record is stored under the SKI (nothing is stored when creation panics). */
  function Register(devices: Registry, ski: string, created: Result<EMobilityRecord>): Registration {
    if ski in devices then Registration(devices, Ok(devices[ski]))
    else if created.Err? then Registration(devices, created)
    else Registration(devices[ski := created.value], created)
  }

  /** The registry after unregistering a SKI. */
  function Unregister(devices: Registry, ski: string): (r: Registry)
    ensures ski !in r
    ensures forall k :: k != ski ==> (k in r <==> k in devices)
    ensures forall k :: k in r ==> r[k] == devices[k]
  {
    devices - {ski}
  }

  /** The record a result message is forwarded to, if any. */
  function RouteResult(devices: Registry, msg: ResultMessage): (r: Option<EMobilityRecord>)
    ensures r.Some? <==> msg.deviceSki.Some? && msg.deviceSki.value in devices
    ensures r.Some? ==> r.value == devices[msg.deviceSki.value]
  {
    if msg.deviceSki.None? || msg.deviceSki.value !in devices then None
    else Some(devices[msg.deviceSki.value])
  }

  /** Registration is idempotent: once a SKI is registered, registering it
      again returns the same record and leaves the registry unchanged,
      whatever record the second call would have created. */
  lemma RegisterIdempotent(devices: Registry, ski: string, created: Result<EMobilityRecord>, createdAgain: Result<EMobilityRecord>)
    requires created.Ok?
    ensures var first := Register(devices, ski, created);
            Register(first.devices, ski, createdAgain) == first
  {
  }

  /** A SKI already present gets its stored record back and the registry is
      unchanged; a new SKI whose record cannot be created (a panic) leaves the
      registry unchanged and returns that outcome; a new SKI otherwise is
      inserted alone, with the created record, every other entry unchanged. */
  lemma RegisterInsertsOne(devices: Registry, ski: string, created: Result<EMobilityRecord>)
    ensures ski in devices ==> Register(devices, ski, created) == Registration(devices, Ok(devices[ski]))
    ensures ski !in devices && created.Err? ==> Register(devices, ski, created) == Registration(devices, created)
    ensures var r := Register(devices, ski, created);
            && (ski in r.devices <==> ski in devices || created.Ok?)
            && (ski !in devices && created.Ok? ==> r.devices[ski] == created.value && r.em == created)
            && (forall k :: k != ski ==> (k in r.devices <==> k in devices))
            && (forall k :: k != ski && k in devices ==> r.devices[k] == devices[k])
            && (r.em.Ok? ==> ski in r.devices && r.devices[ski] == r.em.value)
  {
  }

  /** After unregistering a SKI its results are ignored, other SKIs' results
      are routed as before, and a later registration creates a new record. */
  lemma UnregisterForgets(devices: Registry, ski: string, msg: ResultMessage, created: Result<EMobilityRecord>)
    ensures msg.deviceSki == Some(ski) ==> RouteResult(Unregister(devices, ski), msg) == None
    ensures msg.deviceSki != Some(ski) ==> RouteResult(Unregister(devices, ski), msg) == RouteResult(devices, msg)
    ensures Register(Unregister(devices, ski), ski, created).em == created
  {
  }

  /** A registry in which every record belongs to its key and was created
      with the scenario's currency and configuration. */
  ghost predicate WellFormed(devices: Registry, currency: string, configuration: Configuration) {
    forall k :: k in devices ==>
      devices[k].ski == k && devices[k].currency == currency && devices[k].configuration == configuration
  }

  /** In a well-formed registry a result reaches the record of the device
      that sent it, created with the scenario's currency and configuration. */
  lemma RouteResultReachesOwnRecord(devices: Registry, currency: string, configuration: Configuration, msg: ResultMessage)
    requires WellFormed(devices, currency, configuration)
    ensures RouteResult(devices, msg).Some? ==>
              && RouteResult(devices, msg).value.ski == msg.deviceSki.value
              && RouteResult(devices, msg).value.currency == currency
              && RouteResult(devices, msg).value.configuration == configuration
  {
  }

  /** Registration and unregistration keep the registry well formed. */
  lemma RegistryStaysWellFormed(devices: Registry, ski: string, currency: string, configuration: Configuration, provider: ProviderArg)
    requires WellFormed(devices, currency, configuration)
    ensures WellFormed(Register(devices, ski, NewEMobility(ski, currency, configuration, provider)).devices, currency, configuration)
    ensures WellFormed(Unregister(devices, ski), currency, configuration)
  {
  }

  // ---------------------------------------------------------------------------
  // Features and use cases
  // ---------------------------------------------------------------------------

  /** The client features added in every configuration. */
  const BaseClientFeatures: seq<FeatureType> := [
    DeviceDiagnosis, DeviceClassification, DeviceConfiguration, ElectricalConnection,
    Measurement, LoadControl, Identification
  ]

  /** The client feature list: the seven base features, then time series and
      incentive table only when coordinated charging is enabled. */
  function ClientFeatures(configuration: Configuration): seq<FeatureType> {
    BaseClientFeatures + (if configuration.coordinatedChargingEnabled then [TimeSeries, IncentiveTable] else [])
  }

  lemma ClientFeatureList(configuration: Configuration)
    ensures |ClientFeatures(configuration)| == (if configuration.coordinatedChargingEnabled then 9 else 7)
    ensures ClientFeatures(configuration)[..7] == BaseClientFeatures
    ensures TimeSeries in ClientFeatures(configuration) <==> configuration.coordinatedChargingEnabled
    ensures IncentiveTable in ClientFeatures(configuration) <==> configuration.coordinatedChargingEnabled
    ensures forall i, j :: 0 <= i < j < |ClientFeatures(configuration)| ==>
              ClientFeatures(configuration)[i] != ClientFeatures(configuration)[j]
  {
  }

  /** The existing setup of a feature, or a fresh one. */
  function GetOrAdd(features: map<FeatureKey, FeatureSetup>, key: FeatureKey): FeatureSetup {
    if key in features then features[key] else FeatureSetup(false, map[], None)
  }

  /** The device-diagnosis server feature after setup: result handler,
      readable but not writable state and heartbeat data, and the state
      NormalOperation. */
  function WithDiagnosisServer(features: map<FeatureKey, FeatureSetup>): map<FeatureKey, FeatureSetup> {
    var f := GetOrAdd(features, (DeviceDiagnosis, Server));
    var functions := f.functions[DeviceDiagnosisStateData := Permission(true, false)]
                                [DeviceDiagnosisHeartbeatData := Permission(true, false)];
    features[(DeviceDiagnosis, Server) := FeatureSetup(true, functions, Some(EMobility.NormalOperation))]
  }

  /** The features after adding each listed client feature with the scenario
      as result handler. */
  function WithClients(features: map<FeatureKey, FeatureSetup>, clients: seq<FeatureType>): map<FeatureKey, FeatureSetup> {
    if clients == [] then features
    else
      var before := WithClients(features, clients[..|clients| - 1]);
      var key := (clients[|clients| - 1], Client);
      before[key := GetOrAdd(before, key).(resultHandler := true)]
  }

  /** Adding client features touches only their client entries, marks each
      with the result handler and keeps the rest of each entry. */
  lemma {:induction false} WithClientsMeaning(features: map<FeatureKey, FeatureSetup>, clients: seq<FeatureType>)
    ensures forall k :: k in WithClients(features, clients) <==> k in features || (k.1 == Client && k.0 in clients)
    ensures forall f :: f in clients ==> WithClients(features, clients)[(f, Client)].resultHandler
    ensures forall f :: f in clients ==>
              WithClients(features, clients)[(f, Client)] == GetOrAdd(features, (f, Client)).(resultHandler := true)
    ensures forall k :: k in features && !(k.1 == Client && k.0 in clients) ==> WithClients(features, clients)[k] == features[k]
  {
    if clients != [] {
      var prefix := clients[..|clients| - 1];
      WithClientsMeaning(features, prefix);
      assert forall f :: f in clients <==> f in prefix || f == clients[|clients| - 1];
    }
  }

  /** The features after AddFeatures, as a function of those before. */
  function SetUpFeatures(features: map<FeatureKey, FeatureSetup>, configuration: Configuration): map<FeatureKey, FeatureSetup> {
    WithClients(WithDiagnosisServer(features), ClientFeatures(configuration))
  }

  /** What AddFeatures guarantees: the diagnosis server is set up with both
      function types and NormalOperation, every client feature of the
      configuration exists with the result handler, and no other feature is
      added or changed. */
  lemma SetUpFeaturesMeaning(features: map<FeatureKey, FeatureSetup>, configuration: Configuration)
    ensures var r := SetUpFeatures(features, configuration);
            && (DeviceDiagnosis, Server) in r
            && r[(DeviceDiagnosis, Server)].resultHandler
            && r[(DeviceDiagnosis, Server)].stateData == Some(EMobility.NormalOperation)
            && DeviceDiagnosisStateData in r[(DeviceDiagnosis, Server)].functions
            && r[(DeviceDiagnosis, Server)].functions[DeviceDiagnosisStateData] == Permission(true, false)
            && DeviceDiagnosisHeartbeatData in r[(DeviceDiagnosis, Server)].functions
            && r[(DeviceDiagnosis, Server)].functions[DeviceDiagnosisHeartbeatData] == Permission(true, false)
            && (forall f :: f in ClientFeatures(configuration) ==> (f, Client) in r && r[(f, Client)].resultHandler)
            && (forall k :: k in r <==> (k in features || k == (DeviceDiagnosis, Server)
                                        || (k.1 == Client && k.0 in ClientFeatures(configuration))))
            && (forall k :: k in features && k != (DeviceDiagnosis, Server) && !(k.1 == Client && k.0 in ClientFeatures(configuration))
                            ==> r[k] == features[k])
  {
    WithClientsMeaning(WithDiagnosisServer(features), ClientFeatures(configuration));
  }

  /** The use cases AddUseCases declares, in order. */
  function UseCasesFor(configuration: Configuration): seq<UseCaseSupport> {
    [
      UseCaseSupport(ActorCEM, EVSECommissioningAndConfiguration, "1.0.1", "", true, [1, 2]),
      UseCaseSupport(ActorCEM, EVCommissioningAndConfiguration, "1.0.1", "", true, [1, 2, 3, 4, 5, 6, 7, 8]),
      UseCaseSupport(ActorCEM, MeasurementOfElectricityDuringEVCharging, "1.0.1", "", true, [1, 2, 3]),
      UseCaseSupport(ActorCEM, OverloadProtectionByEVChargingCurrentCurtailment, "1.0.1b", "", true, [1, 2, 3]),
      UseCaseSupport(ActorMonitoringAppliance, EVStateOfCharge, "1.0.0", "", true, [1, 2, 3, 4]),
      UseCaseSupport(ActorCEM, OptimizationOfSelfConsumptionDuringEVCharging, "1.0.1b", "", true, [1, 2, 3])
    ]
    + (if configuration.coordinatedChargingEnabled then
         [UseCaseSupport(ActorCEM, CoordinatedEVCharging, "1.0.1", "", true, [1, 2, 3, 4, 5, 6, 7, 8])]
       else [])
  }

  /** The names of a list of declarations, in order. */
  function UseCaseNames(us: seq<UseCaseSupport>): seq<UseCaseName> {
    seq(|us|, i requires 0 <= i < |us| => us[i].name)
  }

  /** Six use cases always, coordinated EV charging last and exactly when
      enabled; every declaration is available, no name is declared twice, and
      only the state-of-charge use case is declared as monitoring appliance. */
  lemma UseCaseList(configuration: Configuration)
    ensures UseCaseNames(UseCasesFor(configuration)) ==
            [EVSECommissioningAndConfiguration, EVCommissioningAndConfiguration,
             MeasurementOfElectricityDuringEVCharging, OverloadProtectionByEVChargingCurrentCurtailment,
             EVStateOfCharge, OptimizationOfSelfConsumptionDuringEVCharging]
            + (if configuration.coordinatedChargingEnabled then [CoordinatedEVCharging] else [])
    ensures CoordinatedEVCharging in UseCaseNames(UseCasesFor(configuration)) <==> configuration.coordinatedChargingEnabled
    ensures forall i, j :: 0 <= i < j < |UseCasesFor(configuration)| ==>
              UseCasesFor(configuration)[i].name != UseCasesFor(configuration)[j].name
    ensures forall u :: u in UseCasesFor(configuration) ==>
              u.available && (u.actor == ActorMonitoringAppliance <==> u.name == EVStateOfCharge)
  {
  }

  // ---------------------------------------------------------------------------
  // The scenario object
  // ---------------------------------------------------------------------------

  class EmobilityScenario {
    /** The records of the registered remote devices, by SKI. */
    var remoteDevices: Registry
    /** The calls made on the service, in order. */
    var serviceCalls: seq<ServiceCall>
    /** The features of the local CEM entity. */
    var features: map<FeatureKey, FeatureSetup>
    /** The use-case declarations of the local CEM entity, in order. */
    var useCases: seq<UseCaseSupport>
    const currency: string
    const configuration: Configuration

    ghost predicate Valid()
      reads this
    {
      WellFormed(remoteDevices, currency, configuration)
    }

    constructor(currency: string, configuration: Configuration)
      ensures Valid()
      ensures this.currency == currency && this.configuration == configuration
      ensures remoteDevices == map[] && serviceCalls == [] && features == map[] && useCases == []
    {
      this.currency := currency;
      this.configuration := configuration;
      remoteDevices := map[];
      serviceCalls := [];
      features := map[];
      useCases := [];
    }

    /** Adds the diagnosis server feature, then each client feature of the
      configuration, with the scenario as result handler. */
    method AddFeatures()
      modifies this
      ensures features == SetUpFeatures(old(features), configuration)
      ensures remoteDevices == old(remoteDevices) && serviceCalls == old(serviceCalls) && useCases == old(useCases)
    {
      var f := GetOrAdd(features, (DeviceDiagnosis, Server));
      f := f.(resultHandler := true);
      f := f.(functions := f.functions[DeviceDiagnosisStateData := Permission(true, false)]);
      f := f.(stateData := Some(EMobility.NormalOperation));
      f := f.(functions := f.functions[DeviceDiagnosisHeartbeatData := Permission(true, false)]);
      features := features[(DeviceDiagnosis, Server) := f];

      var clientFeatures := BaseClientFeatures;
      if configuration.coordinatedChargingEnabled {
        clientFeatures := clientFeatures + [TimeSeries];
        clientFeatures := clientFeatures + [IncentiveTable];
      }
      assert features == WithDiagnosisServer(old(features));
      assert clientFeatures == ClientFeatures(configuration);
      ghost var afterServer := features;
      var i := 0;
      while i < |clientFeatures|
        invariant 0 <= i <= |clientFeatures|
        invariant features == WithClients(afterServer, clientFeatures[..i])
        invariant remoteDevices == old(remoteDevices) && serviceCalls == old(serviceCalls) && useCases == old(useCases)
      {
        assert clientFeatures[..i + 1][..i] == clientFeatures[..i];
        var key := (clientFeatures[i], Client);
        var c := GetOrAdd(features, key);
        features := features[key := c.(resultHandler := true)];
        i := i + 1;
      }
      assert clientFeatures[..i] == clientFeatures;
    }

    /** Declares the scenario's use cases on the local entity. */
    method AddUseCases()
      modifies this
      ensures useCases == old(useCases) + UseCasesFor(configuration)
      ensures remoteDevices == old(remoteDevices) && serviceCalls == old(serviceCalls) && features == old(features)
    {
      useCases := useCases + [UseCaseSupport(ActorCEM, EVSECommissioningAndConfiguration, "1.0.1", "", true, [1, 2])];
      useCases := useCases + [UseCaseSupport(ActorCEM, EVCommissioningAndConfiguration, "1.0.1", "", true, [1, 2, 3, 4, 5, 6, 7, 8])];
      useCases := useCases + [UseCaseSupport(ActorCEM, MeasurementOfElectricityDuringEVCharging, "1.0.1", "", true, [1, 2, 3])];
      useCases := useCases + [UseCaseSupport(ActorCEM, OverloadProtectionByEVChargingCurrentCurtailment, "1.0.1b", "", true, [1, 2, 3])];
      useCases := useCases + [UseCaseSupport(ActorMonitoringAppliance, EVStateOfCharge, "1.0.0", "", true, [1, 2, 3, 4])];
      useCases := useCases + [UseCaseSupport(ActorCEM, OptimizationOfSelfConsumptionDuringEVCharging, "1.0.1b", "", true, [1, 2, 3])];
      if configuration.coordinatedChargingEnabled {
        useCases := useCases + [UseCaseSupport(ActorCEM, CoordinatedEVCharging, "1.0.1", "", true, [1, 2, 3, 4, 5, 6, 7, 8])];
      }
    }

    /** Returns the record of a known SKI unchanged; otherwise creates one,
      stores it under the SKI and returns it. */
    method RegisterRemoteDevice(ski: string, provider: ProviderArg) returns (em: Result<EMobilityRecord>)
      requires Valid()
      modifies this
      ensures Valid()
      ensures Registration(remoteDevices, em) ==
              Register(old(remoteDevices), ski, NewEMobility(ski, currency, configuration, provider))
      ensures serviceCalls == old(serviceCalls) && features == old(features) && useCases == old(useCases)
    {
      if ski in remoteDevices {
        return Ok(remoteDevices[ski]);
      }
      em := NewEMobility(ski, currency, configuration, provider);
      if em.Err? {
        // the provider type assertion panics before anything is stored
        return;
      }
      remoteDevices := remoteDevices[ski := em.value];
    }

    /** Removes the SKI (if present) and tells the service it is no longer paired. */
    method UnRegisterRemoteDevice(ski: string)
      requires Valid()
      modifies this
      ensures Valid()
      ensures remoteDevices == Unregister(old(remoteDevices), ski)
      ensures serviceCalls == old(serviceCalls) + [RegisterRemoteSKI(ski, false)]
      ensures features == old(features) && useCases == old(useCases)
    {
      remoteDevices := remoteDevices - {ski};
      serviceCalls := serviceCalls + [RegisterRemoteSKI(ski, false)];
    }

    /** The record the message is forwarded to: none for a message without a
      remote device or from an unknown SKI. */
    method HandleResult(msg: ResultMessage) returns (target: Option<EMobilityRecord>)
      ensures target == RouteResult(remoteDevices, msg)
      ensures Valid() && target.Some? ==> target.value.ski == msg.deviceSki.value
    {
      if msg.deviceSki.None? {
        return None;
      }
      if msg.deviceSki.value !in remoteDevices {
        return None;
      }
      return Some(remoteDevices[msg.deviceSki.value]);
    }
  }
}
