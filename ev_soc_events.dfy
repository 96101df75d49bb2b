/** The EV state-of-charge use case's event handler. */
module EVSoCEvents {
  import opened Common
  import opened SpineEvents

  /** Every call the connect cascade can issue, in order. */
  const EVConnectCascade: seq<Action> := CallsOn(Measurement, [Subscribe, RequestDescriptions, RequestConstraints])

  /** An EV was connected: subscribe to the measurement feature and fetch its
      descriptions and constraints, only when the EV has that feature. */
  function EVConnected(e: EntityView): (r: seq<Action>)
    ensures r == ServedCalls(EVConnectCascade, e.features)
  {
    ServedGroup(Measurement, [Subscribe, RequestDescriptions, RequestConstraints], e.features);
    WhenFeature(e, Measurement, [Subscribe, RequestDescriptions, RequestConstraints])
  }

  /** The connect cascade is all three measurement calls in order, or nothing. */
  lemma EVConnectedCalls(e: EntityView)
    ensures Measurement in e.features ==>
              EVConnected(e) == [Call(Measurement, Subscribe), Call(Measurement, RequestDescriptions), Call(Measurement, RequestConstraints)]
    ensures Measurement !in e.features ==> EVConnected(e) == []
  {
  }

  /** The measurement values arrived: report the state of charge exactly when
      a state-of-charge-scoped value is available. */
  function EVMeasurementDataUpdate(ski: string, e: EntityView): (r: seq<Action>)
    ensures r == ScopeEmits(ski, e.availableScopes, [(StateOfCharge, DataUpdateStateOfCharge)])
  {
    WhenScope(ski, e, StateOfCharge, DataUpdateStateOfCharge)
  }

  /** The handler: entity filter, then the connect cascade, then data updates
      only, then only the measurement list is handled. */
  function HandleEvent(p: EventPayload): (r: seq<Action>)
    ensures !IsCompatibleEntity(p) ==> r == []
    ensures IsCompatibleEntity(p) && p.entityConnected ==> r == EVConnected(p.entity.value)
    ensures IsCompatibleEntity(p) && !p.entityConnected && !IsDataUpdate(p) ==> r == []
    ensures IsCompatibleEntity(p) && !p.entityConnected && IsDataUpdate(p) ==>
              r == (if p.data == MeasurementList then EVMeasurementDataUpdate(p.ski, p.entity.value) else [])
  {
    if !IsCompatibleEntity(p) then []
    else if p.entityConnected then EVConnected(p.entity.value)
    else if !IsDataUpdate(p) then []
    else
      match p.data
      case MeasurementList => EVMeasurementDataUpdate(p.ski, p.entity.value)
      case _ => []
  }

  /** The state-of-charge event is emitted at most once, for the payload's
      SKI, and exactly for a measurement-list update from a compatible,
      already connected EV whose state of charge has a value; subscriptions
      happen only on connect. */
  lemma StateOfChargeEvent(p: EventPayload)
    ensures |HandleEvent(p)| <= 3
    ensures Emit(p.ski, DataUpdateStateOfCharge) in HandleEvent(p) <==>
              && IsCompatibleEntity(p) && !p.entityConnected && IsDataUpdate(p)
              && p.data == MeasurementList && StateOfCharge in p.entity.value.availableScopes
    ensures forall a :: a in HandleEvent(p) && a.Emit? ==> a == Emit(p.ski, DataUpdateStateOfCharge) && |HandleEvent(p)| == 1
    ensures forall a :: a in HandleEvent(p) && a.Call? ==> p.entityConnected && a.feature == Measurement
  {
  }
}
