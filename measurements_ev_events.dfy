/** The measurement-of-electricity-during-EV-charging use case's event
    handler: which follow-up request or table read a data change from the EV
    leads to. */
module MeasurementsEVEvents {
  import opened Common
  import opened SpineEvents

  /** The handler: only an EV entity, only DataChange with change type
      Update, then a switch on the data shape. A parameter-description list
      asks for the permitted value sets, a measurement-description list for
      the measurement values; the electrical description, the permitted value
      sets and the measurement values are only read. */
  function HandleEvent(p: EventPayload): (r: seq<Action>)
    ensures p.entity.None? || p.entity.value.entityType != EV ==> r == []
    ensures !IsDataUpdate(p) ==> r == []
    ensures |r| <= 1
    ensures r == [Call(ElectricalConnection, RequestPermittedValueSet)] <==>
              p.entity.Some? && p.entity.value.entityType == EV && IsDataUpdate(p)
              && p.data == ElectricalConnectionParameterDescriptionList
    ensures r == [Call(Measurement, RequestMeasurementList)] <==>
              p.entity.Some? && p.entity.value.entityType == EV && IsDataUpdate(p)
              && p.data == MeasurementDescriptionList
    ensures p.entity.Some? && p.entity.value.entityType == EV && IsDataUpdate(p) &&
            p.data in {ElectricalConnectionDescriptionList, ElectricalConnectionPermittedValueSetList, MeasurementList} ==>
              r == [ReadTable(p.data)]
  {
    if p.entity.None? || p.entity.value.entityType != EV then []
    else
      match p.eventType
      case DataChange =>
        if p.changeType != Update then []
        else (
          match p.data
          case ElectricalConnectionDescriptionList => [ReadTable(p.data)]
          case ElectricalConnectionParameterDescriptionList => [Call(ElectricalConnection, RequestPermittedValueSet)]
          case ElectricalConnectionPermittedValueSetList => [ReadTable(p.data)]
          case MeasurementDescriptionList => [Call(Measurement, RequestMeasurementList)]
          case MeasurementList => [ReadTable(p.data)]
          case _ => [])
      case _ => []
  }

  /** The handler never subscribes and never emits a callback event; any
      data shape outside the five it knows is a no-op. */
  lemma HandleEventIsRequestOrRead(p: EventPayload)
    ensures forall a :: a in HandleEvent(p) ==> !a.Emit? && !(a.Call? && a.op == Subscribe)
    ensures p.data !in {ElectricalConnectionDescriptionList, ElectricalConnectionParameterDescriptionList,
                        ElectricalConnectionPermittedValueSetList, MeasurementDescriptionList, MeasurementList}
            ==> HandleEvent(p) == []
  {
  }
}
