/** The monitoring-of-grid-connection-point use case's event handler: which
    requests and callback events a SPINE event from the grid entity leads to. */
module GridEvents {
  import opened Common
  import opened SpineEvents

  /** Every call the connect cascade can issue, in the order it issues them. */
  const GridConnectCascade: seq<Action> := [
    Call(DeviceConfiguration, Subscribe),
    Call(DeviceConfiguration, RequestDescriptions),
    Call(ElectricalConnection, Subscribe),
    Call(ElectricalConnection, RequestDescriptions),
    Call(ElectricalConnection, RequestParameterDescriptions),
    Call(Measurement, Subscribe),
    Call(Measurement, RequestDescriptions),
    Call(Measurement, RequestConstraints)
  ]

  /** Every callback event a measurement update can emit, in the order it
      emits them, with the scope each one needs. */
  const GridScopeEvents: seq<(Scope, EventTag)> := [
    (ACPowerTotal, DataUpdatePower),
    (GridFeedIn, DataUpdateEnergyFeedIn),
    (GridConsumption, DataUpdateEnergyConsumed),
    (ACCurrent, DataUpdateCurrentPerPhase),
    (ACVoltage, DataUpdateVoltagePerPhase),
    (ACFrequency, DataUpdateFrequency)
  ]

  /** A grid device was connected: subscribe to and fetch the descriptions of
      device configuration, electrical connection and measurement, each group
      only when the entity has that feature; this is the full cascade
      restricted to the features the entity has. */
  function GridConnected(e: EntityView): (r: seq<Action>)
    ensures r == ServedCalls(GridConnectCascade, e.features)
  {
    var dc := WhenFeature(e, DeviceConfiguration, [Subscribe, RequestDescriptions]);
    var ec := WhenFeature(e, ElectricalConnection, [Subscribe, RequestDescriptions, RequestParameterDescriptions]);
    var ms := WhenFeature(e, Measurement, [Subscribe, RequestDescriptions, RequestConstraints]);
    var f := e.features;
    assert GridConnectCascade ==
           CallsOn(DeviceConfiguration, [Subscribe, RequestDescriptions])
           + CallsOn(ElectricalConnection, [Subscribe, RequestDescriptions, RequestParameterDescriptions])
           + CallsOn(Measurement, [Subscribe, RequestDescriptions, RequestConstraints]);
    ServedCallsAppend(CallsOn(DeviceConfiguration, [Subscribe, RequestDescriptions])
                      + CallsOn(ElectricalConnection, [Subscribe, RequestDescriptions, RequestParameterDescriptions]),
                      CallsOn(Measurement, [Subscribe, RequestDescriptions, RequestConstraints]), f);
    ServedCallsAppend(CallsOn(DeviceConfiguration, [Subscribe, RequestDescriptions]),
                      CallsOn(ElectricalConnection, [Subscribe, RequestDescriptions, RequestParameterDescriptions]), f);
    ServedGroup(DeviceConfiguration, [Subscribe, RequestDescriptions], f);
    ServedGroup(ElectricalConnection, [Subscribe, RequestDescriptions, RequestParameterDescriptions], f);
    ServedGroup(Measurement, [Subscribe, RequestDescriptions, RequestConstraints], f);
    dc + ec + ms
  }

  /** The position of a call in the connect cascade: feature group first, then operation. */
  function CascadeRank(a: Action): int {
    match a
    case Call(f, op) =>
      var group := match f
        case DeviceConfiguration => 0
        case ElectricalConnection => 1
        case _ => 2;
      var step := match op
        case Subscribe => 0
        case RequestDescriptions => 1
        case RequestParameterDescriptions => 2
        case _ => 3;
      10 * group + step
    case _ => -1
  }

  /** The connect cascade issues at most eight calls, each exactly when its
      feature exists, in the fixed cascade order and none twice. */
  lemma GridConnectedOrder(e: EntityView)
    ensures |GridConnected(e)| <= 8
    ensures forall a :: a in GridConnected(e) <==> a in GridConnectCascade && a.feature in e.features
    ensures forall i, j :: 0 <= i < j < |GridConnected(e)| ==>
              CascadeRank(GridConnected(e)[i]) < CascadeRank(GridConnected(e)[j])
  {
    ServedCallsKeepOrder(GridConnectCascade, e.features, CascadeRank);
  }

  /** The configuration key descriptions arrived: fetch the key values. */
  function GridConfigurationDescriptionDataUpdate(e: EntityView): (r: seq<Action>)
    ensures r == (if DeviceConfiguration in e.features then [Call(DeviceConfiguration, RequestKeyValues)] else [])
  {
    WhenFeature(e, DeviceConfiguration, [RequestKeyValues])
  }

  /** The configuration key values arrived: report the power limitation
      factor exactly when it can be read. */
  function GridConfigurationDataUpdate(ski: string, e: EntityView): (r: seq<Action>)
    ensures r == [] || r == [Emit(ski, DataUpdatePowerLimitationFactor)]
    ensures r != [] <==> e.powerLimitationFactorReadable
  {
    if e.powerLimitationFactorReadable then [Emit(ski, DataUpdatePowerLimitationFactor)] else []
  }

  /** The measurement descriptions arrived: fetch the values. */
  function GridMeasurementDescriptionDataUpdate(e: EntityView): (r: seq<Action>)
    ensures r == (if Measurement in e.features then [Call(Measurement, RequestValues)] else [])
  {
    WhenFeature(e, Measurement, [RequestValues])
  }

  /** The measurement values arrived: one callback event per scope that has
      a value, power first and frequency last. */
  function GridMeasurementDataUpdate(ski: string, e: EntityView): (r: seq<Action>)
    ensures r == ScopeEmits(ski, e.availableScopes, GridScopeEvents)
  {
    var sc := e.availableScopes;
    var pairs := GridScopeEvents;
    assert pairs == pairs[..1] + pairs[1..2] + pairs[2..3] + pairs[3..4] + pairs[4..5] + pairs[5..];
    ScopeEmitsAppend(ski, sc, pairs[..1] + pairs[1..2] + pairs[2..3] + pairs[3..4] + pairs[4..5], pairs[5..]);
    ScopeEmitsAppend(ski, sc, pairs[..1] + pairs[1..2] + pairs[2..3] + pairs[3..4], pairs[4..5]);
    ScopeEmitsAppend(ski, sc, pairs[..1] + pairs[1..2] + pairs[2..3], pairs[3..4]);
    ScopeEmitsAppend(ski, sc, pairs[..1] + pairs[1..2], pairs[2..3]);
    ScopeEmitsAppend(ski, sc, pairs[..1], pairs[1..2]);
    assert ScopeEmits(ski, sc, pairs[..1]) == WhenScope(ski, e, ACPowerTotal, DataUpdatePower);
    assert ScopeEmits(ski, sc, pairs[1..2]) == WhenScope(ski, e, GridFeedIn, DataUpdateEnergyFeedIn);
    assert ScopeEmits(ski, sc, pairs[2..3]) == WhenScope(ski, e, GridConsumption, DataUpdateEnergyConsumed);
    assert ScopeEmits(ski, sc, pairs[3..4]) == WhenScope(ski, e, ACCurrent, DataUpdateCurrentPerPhase);
    assert ScopeEmits(ski, sc, pairs[4..5]) == WhenScope(ski, e, ACVoltage, DataUpdateVoltagePerPhase);
    assert ScopeEmits(ski, sc, pairs[5..]) == WhenScope(ski, e, ACFrequency, DataUpdateFrequency);
    WhenScope(ski, e, ACPowerTotal, DataUpdatePower)
      + WhenScope(ski, e, GridFeedIn, DataUpdateEnergyFeedIn)
      + WhenScope(ski, e, GridConsumption, DataUpdateEnergyConsumed)
      + WhenScope(ski, e, ACCurrent, DataUpdateCurrentPerPhase)
      + WhenScope(ski, e, ACVoltage, DataUpdateVoltagePerPhase)
      + WhenScope(ski, e, ACFrequency, DataUpdateFrequency)
  }

  /** The position of an event in the measurement update's order. */
  function GridEventRank(t: EventTag): int {
    match t
    case DataUpdatePower => 0
    case DataUpdateEnergyFeedIn => 1
    case DataUpdateEnergyConsumed => 2
    case DataUpdateCurrentPerPhase => 3
    case DataUpdateVoltagePerPhase => 4
    case DataUpdateFrequency => 5
    case _ => -1
  }

  /** A measurement update emits between zero and six events for the
      payload's SKI, each exactly when its scope has a value, in the fixed
      order and none twice. */
  lemma GridMeasurementEvents(ski: string, e: EntityView)
    ensures |GridMeasurementDataUpdate(ski, e)| <= 6
    ensures forall a :: a in GridMeasurementDataUpdate(ski, e) ==> a.Emit? && a.ski == ski
    ensures forall k :: 0 <= k < |GridScopeEvents| ==>
              (Emit(ski, GridScopeEvents[k].1) in GridMeasurementDataUpdate(ski, e) <==> GridScopeEvents[k].0 in e.availableScopes)
    ensures forall i, j :: 0 <= i < j < |GridMeasurementDataUpdate(ski, e)| ==>
              GridEventRank(GridMeasurementDataUpdate(ski, e)[i].tag) < GridEventRank(GridMeasurementDataUpdate(ski, e)[j].tag)
  {
    var r := GridMeasurementDataUpdate(ski, e);
    ScopeEmitsMeaning(ski, e.availableScopes, GridScopeEvents);
    forall k | 0 <= k < |GridScopeEvents| && Emit(ski, GridScopeEvents[k].1) in r
      ensures GridScopeEvents[k].0 in e.availableScopes
    {
      var m :| 0 <= m < |GridScopeEvents| && GridScopeEvents[m].0 in e.availableScopes && Emit(ski, GridScopeEvents[k].1) == Emit(ski, GridScopeEvents[m].1);
    }
    ScopeEmitsKeepOrder(ski, e.availableScopes, GridScopeEvents, GridEventRank);
  }

  /** The handler: entity filter, then the connect cascade, then data
      updates only, then a switch on the data shape. */
  function HandleEvent(p: EventPayload): (r: seq<Action>)
    ensures !IsCompatibleEntity(p) ==> r == []
    ensures IsCompatibleEntity(p) && p.entityConnected ==> r == GridConnected(p.entity.value)
    ensures IsCompatibleEntity(p) && !p.entityConnected && !IsDataUpdate(p) ==> r == []
    ensures IsCompatibleEntity(p) && !p.entityConnected && IsDataUpdate(p) ==>
              r == match p.data
                   case DeviceConfigurationKeyValueDescriptionList => GridConfigurationDescriptionDataUpdate(p.entity.value)
                   case DeviceConfigurationKeyValueList => GridConfigurationDataUpdate(p.ski, p.entity.value)
                   case MeasurementDescriptionList => GridMeasurementDescriptionDataUpdate(p.entity.value)
                   case MeasurementList => GridMeasurementDataUpdate(p.ski, p.entity.value)
                   case _ => []
  {
    if !IsCompatibleEntity(p) then []
    else if p.entityConnected then GridConnected(p.entity.value)
    else if !IsDataUpdate(p) then []
    else
      match p.data
      case DeviceConfigurationKeyValueDescriptionList => GridConfigurationDescriptionDataUpdate(p.entity.value)
      case DeviceConfigurationKeyValueList => GridConfigurationDataUpdate(p.ski, p.entity.value)
      case MeasurementDescriptionList => GridMeasurementDescriptionDataUpdate(p.entity.value)
      case MeasurementList => GridMeasurementDataUpdate(p.ski, p.entity.value)
      case _ => []
  }

  /** What kind of event can lead to what kind of action: subscriptions only
      on connect, callback events only on a key-value or measurement list
      update, and every callback event is for the payload's SKI. */
  lemma HandleEventActionSources(p: EventPayload)
    ensures forall a :: a in HandleEvent(p) && a.Call? && a.op == Subscribe ==> p.entityConnected
    ensures forall a :: a in HandleEvent(p) && a.Emit? ==>
              && a.ski == p.ski && !p.entityConnected && IsDataUpdate(p)
              && (a.tag == DataUpdatePowerLimitationFactor ==> p.data == DeviceConfigurationKeyValueList)
              && (a.tag != DataUpdatePowerLimitationFactor ==> p.data == MeasurementList)
    ensures forall a :: a in HandleEvent(p) ==> !a.ReadTable?
  {
    if IsCompatibleEntity(p) && !p.entityConnected && IsDataUpdate(p) && p.data == MeasurementList {
      ScopeEmitsMeaning(p.ski, p.entity.value.availableScopes, GridScopeEvents);
      forall a | a in HandleEvent(p) && a.Emit?
        ensures a.tag != DataUpdatePowerLimitationFactor
      {
        var k :| 0 <= k < |GridScopeEvents| && GridScopeEvents[k].0 in p.entity.value.availableScopes && a == Emit(p.ski, GridScopeEvents[k].1);
      }
    }
  }
}
