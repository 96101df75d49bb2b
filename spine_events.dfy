/** The SPINE event payload the use-case dispatchers receive, and the calls
    and callback events they issue, returned as an ordered list of actions
    instead of being performed. */
module SpineEvents {
  import opened Common

  datatype EntityType = CEM | EVSE | EV | GridConnectionPointOfPremises | OtherEntity(name: string)

  datatype EventType = DeviceChange | EntityChange | SubscriptionChange | BindingChange | DataChange

  datatype ChangeType = Add | Update | Remove

  /** The data shape a DataChange payload carries. */
  datatype DataShape =
    | DeviceConfigurationKeyValueDescriptionList
    | DeviceConfigurationKeyValueList
    | MeasurementDescriptionList
    | MeasurementList
    | ElectricalConnectionDescriptionList
    | ElectricalConnectionParameterDescriptionList
    | ElectricalConnectionPermittedValueSetList
    | OtherData(name: string)

  datatype FeatureType =
    | DeviceDiagnosis | DeviceClassification | DeviceConfiguration | ElectricalConnection
    | Measurement | LoadControl | Identification | TimeSeries | IncentiveTable | NodeManagement

  /** The events a use case reports to the application callback. */
  datatype EventTag =
    | DataUpdatePower
    | DataUpdateEnergyFeedIn
    | DataUpdateEnergyConsumed
    | DataUpdateCurrentPerPhase
    | DataUpdateVoltagePerPhase
    | DataUpdateFrequency
    | DataUpdatePowerLimitationFactor
    | DataUpdateStateOfCharge

  /** A call on a remote server feature. */
  datatype Operation =
    | Subscribe
    | RequestDescriptions
    | RequestParameterDescriptions
    | RequestConstraints
    | RequestValues
    | RequestKeyValues
    | RequestPermittedValueSet
    | RequestMeasurementList

  /** What a handler does, in the order it does it. A call's failure is only
      logged, so it never changes the actions that follow. */
  datatype Action =
    | Call(feature: FeatureType, op: Operation)
    | Emit(ski: string, tag: EventTag)
    | ReadTable(shape: DataShape)

  /** The remote entity an event is about, as the oracles the handlers
      consult see it: whether it is of a type the use case accepts, which
      server features it has, which measurement scopes currently have a
      value, and whether its power limitation factor can be read. */
  datatype EntityView = EntityView(
    entityType: EntityType,
    compatible: bool,
    features: set<FeatureType>,
    availableScopes: set<Scope>,
    powerLimitationFactorReadable: bool)

  /** An event; `entityConnected` is the verdict of the entity-connected
      check on the payload. */
  datatype EventPayload = EventPayload(
    ski: string,
    eventType: EventType,
    changeType: ChangeType,
    entity: Option<EntityView>,
    entityConnected: bool,
    data: DataShape)

  /** The compatible-entity filter: a payload without an entity is never compatible. */
  predicate IsCompatibleEntity(p: EventPayload) {
    p.entity.Some? && p.entity.value.compatible
  }

  /** The only data changes the handlers react to. */
  predicate IsDataUpdate(p: EventPayload) {
    p.eventType == DataChange && p.changeType == Update
  }

  /** The actions of a feature group: issued only when the feature exists. */
  function WhenFeature(e: EntityView, f: FeatureType, ops: seq<Operation>): seq<Action> {
    if f in e.features then CallsOn(f, ops) else []
  }

  /** The calls `ops` on feature `f`, in order. */
  function CallsOn(f: FeatureType, ops: seq<Operation>): (r: seq<Action>)
    ensures |r| == |ops|
    ensures forall i :: 0 <= i < |ops| ==> r[i] == Call(f, ops[i])
  {
    if ops == [] then [] else [Call(f, ops[0])] + CallsOn(f, ops[1..])
  }

  /** A callback event: emitted only when the scope has a value. */
  function WhenScope(ski: string, e: EntityView, s: Scope, tag: EventTag): seq<Action> {
    if s in e.availableScopes then [Emit(ski, tag)] else []
  }

  /** A call the entity can serve. */
  predicate Served(a: Action, features: set<FeatureType>) {
    a.Call? && a.feature in features
  }

  /** Reference definition of a cascade: the calls of `xs` the entity can serve, in order. */
  function ServedCalls(xs: seq<Action>, features: set<FeatureType>): (r: seq<Action>)
    ensures |r| <= |xs|
    ensures forall a :: a in r <==> a in xs && Served(a, features)
  {
    if xs == [] then []
    else (if Served(xs[0], features) then [xs[0]] else []) + ServedCalls(xs[1..], features)
  }

  /** Reference definition of a batch of callback events: one event per
      (scope, event) pair whose scope has a value, in pair order. */
  function ScopeEmits(ski: string, scopes: set<Scope>, pairs: seq<(Scope, EventTag)>): (r: seq<Action>)
    ensures |r| <= |pairs|
    ensures forall i :: 0 <= i < |r| ==> r[i].Emit?
  {
    if pairs == [] then []
    else (if pairs[0].0 in scopes then [Emit(ski, pairs[0].1)] else []) + ScopeEmits(ski, scopes, pairs[1..])
  }

  /** Every event of a batch is for the SKI and comes from a pair whose scope
      has a value, and every such pair's event is in the batch. */
  lemma {:induction false} ScopeEmitsMeaning(ski: string, scopes: set<Scope>, pairs: seq<(Scope, EventTag)>)
    ensures forall a :: a in ScopeEmits(ski, scopes, pairs) ==> a.Emit? && a.ski == ski
    ensures forall k :: 0 <= k < |pairs| && pairs[k].0 in scopes ==> Emit(ski, pairs[k].1) in ScopeEmits(ski, scopes, pairs)
    ensures forall a :: a in ScopeEmits(ski, scopes, pairs) ==>
              exists k :: 0 <= k < |pairs| && pairs[k].0 in scopes && a == Emit(ski, pairs[k].1)
  {
    if pairs != [] {
      ScopeEmitsMeaning(ski, scopes, pairs[1..]);
      var tail := ScopeEmits(ski, scopes, pairs[1..]);
      assert forall k :: 1 <= k < |pairs| ==> pairs[k] == pairs[1..][k - 1];
      forall a | a in tail
        ensures exists k :: 0 <= k < |pairs| && pairs[k].0 in scopes && a == Emit(ski, pairs[k].1)
      {
        var k :| 0 <= k < |pairs[1..]| && pairs[1..][k].0 in scopes && a == Emit(ski, pairs[1..][k].1);
        assert pairs[k + 1] == pairs[1..][k];
      }
    }
  }

  lemma {:induction false} ServedCallsAppend(xs: seq<Action>, ys: seq<Action>, features: set<FeatureType>)
    ensures ServedCalls(xs + ys, features) == ServedCalls(xs, features) + ServedCalls(ys, features)
  {
    if xs == [] {
      assert xs + ys == ys;
    } else {
      assert (xs + ys)[1..] == xs[1..] + ys;
      ServedCallsAppend(xs[1..], ys, features);
    }
  }

  /** A feature group is served whole or not at all. */
  lemma {:induction false} ServedGroup(f: FeatureType, ops: seq<Operation>, features: set<FeatureType>)
    ensures ServedCalls(CallsOn(f, ops), features) == (if f in features then CallsOn(f, ops) else [])
  {
    if ops != [] {
      ServedGroup(f, ops[1..], features);
      assert CallsOn(f, ops)[1..] == CallsOn(f, ops[1..]);
    }
  }

  lemma {:induction false} ScopeEmitsAppend(ski: string, scopes: set<Scope>, xs: seq<(Scope, EventTag)>, ys: seq<(Scope, EventTag)>)
    ensures ScopeEmits(ski, scopes, xs + ys) == ScopeEmits(ski, scopes, xs) + ScopeEmits(ski, scopes, ys)
  {
    if xs == [] {
      assert xs + ys == ys;
    } else {
      var head := if xs[0].0 in scopes then [Emit(ski, xs[0].1)] else [];
      assert (xs + ys)[0] == xs[0];
      assert (xs + ys)[1..] == xs[1..] + ys;
      assert ScopeEmits(ski, scopes, xs + ys) == head + ScopeEmits(ski, scopes, xs[1..] + ys);
      ScopeEmitsAppend(ski, scopes, xs[1..], ys);
      assert ScopeEmits(ski, scopes, xs) == head + ScopeEmits(ski, scopes, xs[1..]);
    }
  }

  /** Keeping a sub-list keeps any strict order a ranking puts on the list. */
  lemma {:induction false} ServedCallsKeepOrder(xs: seq<Action>, features: set<FeatureType>, rank: Action -> int)
    requires forall i, j :: 0 <= i < j < |xs| ==> rank(xs[i]) < rank(xs[j])
    ensures forall i, j :: 0 <= i < j < |ServedCalls(xs, features)| ==>
              rank(ServedCalls(xs, features)[i]) < rank(ServedCalls(xs, features)[j])
  {
    if xs != [] {
      ServedCallsKeepOrder(xs[1..], features, rank);
      var tail := ServedCalls(xs[1..], features);
      forall a | a in tail
        ensures rank(xs[0]) < rank(a)
      {
        var k :| 0 <= k < |xs[1..]| && xs[1..][k] == a;
        assert xs[k + 1] == a;
      }
    }
  }

  /** The events of a batch follow the pairs' order, so no event repeats
      when the pairs name distinct events. */
  lemma {:induction false} ScopeEmitsKeepOrder(ski: string, scopes: set<Scope>, pairs: seq<(Scope, EventTag)>, rank: EventTag -> int)
    requires forall i, j :: 0 <= i < j < |pairs| ==> rank(pairs[i].1) < rank(pairs[j].1)
    ensures forall i, j :: 0 <= i < j < |ScopeEmits(ski, scopes, pairs)| ==>
              rank(ScopeEmits(ski, scopes, pairs)[i].tag) < rank(ScopeEmits(ski, scopes, pairs)[j].tag)
  {
    if pairs != [] {
      ScopeEmitsKeepOrder(ski, scopes, pairs[1..], rank);
      ScopeEmitsMeaning(ski, scopes, pairs[1..]);
      var tail := ScopeEmits(ski, scopes, pairs[1..]);
      forall a | a in tail
        ensures rank(pairs[0].1) < rank(a.tag)
      {
        var k :| 0 <= k < |pairs[1..]| && pairs[1..][k].0 in scopes && a == Emit(ski, pairs[1..][k].1);
        assert pairs[k + 1] == pairs[1..][k];
      }
    }
  }
}
