/** The electrical-connection helpers: they cross-reference the parameter
    descriptions, the connection descriptions and the permitted-value sets a
    remote entity has sent, by measurement ID and parameter ID, into the
    connected-phase count, per-phase current limits and electrical limits.

    Each helper walks a table with loops and fills maps or appends to a list;
    it is modelled as a method whose result is tied to a fold over the rows
    (a function recursive on the last row, so a loop over a prefix matches
    it directly), and the lemmas below state what that fold means. */
module ElectricalConnection {
  import opened Common

  // ---------------------------------------------------------------------------
  // Rows of the remote's electrical-connection feature (every field optional)
  // ---------------------------------------------------------------------------

  datatype ParamDescription = ParamDescription(
    electricalConnectionId: Option<nat>,
    parameterId: Option<nat>,
    measurementId: Option<nat>,
    scopeType: Option<Scope>,
    acMeasuredPhases: Option<string>)

  datatype ConnectionDescription = ConnectionDescription(
    electricalConnectionId: Option<nat>,
    powerSupplyType: Option<string>,
    acConnectedPhases: Option<nat>,
    positiveEnergyDirection: Option<string>)

  datatype NumberRange = NumberRange(min: Option<real>, max: Option<real>)

  /** A Go nil list and an empty list behave alike for `value` and `range`. */
  datatype ValueSet = ValueSet(value: seq<real>, range: seq<NumberRange>)

  /** `permittedValueSet` keeps nil (None) apart from empty (Some([])): one
      helper skips on nil only. */
  datatype PermittedValueSetData = PermittedValueSetData(
    electricalConnectionId: Option<nat>,
    parameterId: Option<nat>,
    permittedValueSet: Option<seq<ValueSet>>)

  /** What the remote feature's `Data` lookup yields for one table: an untyped
      nil interface, a typed nil pointer, or the rows. A reader first asserts
      the result to the table's pointer type and then tests it for nil, so the
      two nils take different paths: the assertion of an untyped nil panics,
      a typed nil passes it and meets the nil test. */
  datatype FeatureData<T> = UntypedNil | TypedNil | Rows(rows: T)

  /** The three tables of the feature. */
  datatype Tables = Tables(
    descriptions: FeatureData<seq<ConnectionDescription>>,
    paramDescriptions: FeatureData<seq<ParamDescription>>,
    permittedValueSets: FeatureData<seq<PermittedValueSetData>>)

  /** ElectricalDescriptionType: Go zero values stand in for absent fields. */
  datatype ElectricalDescription = ElectricalDescription(
    connectionId: nat,
    powerSupplyType: string,
    acConnectedPhases: nat,
    positiveEnergyDirection: string)

  /** ElectricalLimitType. */
  datatype ElectricalLimit = ElectricalLimit(
    connectionId: nat,
    min: real,
    max: real,
    defaultValue: real,
    phase: string,
    scope: Scope)

  // ---------------------------------------------------------------------------
  // GetElectricalParamDescriptionListData
  // ---------------------------------------------------------------------------

  /** The two indexes: by measurement ID and by parameter ID. */
  datatype ParamMaps = ParamMaps(
    byMeasurement: map<nat, ParamDescription>,
    byParameter: map<nat, ParamDescription>)

  /** A row is indexed only when it has a measurement and a connection ID. */
  predicate Indexed(d: ParamDescription) {
    d.measurementId.Some? && d.electricalConnectionId.Some?
  }

  /** The indexes after the rows in order; an indexed row without a
      parameter ID makes the Go code dereference a nil pointer. */
  function ParamMapsOf(rows: seq<ParamDescription>): Result<ParamMaps> {
    if rows == [] then Ok(ParamMaps(map[], map[]))
    else
      var d := rows[|rows| - 1];
      match ParamMapsOf(rows[..|rows| - 1])
      case Err(e) => Err(e)
      case Ok(m) =>
        if !Indexed(d) then Ok(m)
        else if d.parameterId.None? then Err(Panic)
        else Ok(ParamMaps(m.byMeasurement[d.measurementId.value := d],
                          m.byParameter[d.parameterId.value := d]))
  }

  lemma {:induction false} ParamMapsErrPersists(rows: seq<ParamDescription>, i: nat)
    requires i <= |rows| && ParamMapsOf(rows[..i]).Err?
    ensures ParamMapsOf(rows) == ParamMapsOf(rows[..i])
    decreases |rows|
  {
    if i == |rows| {
      assert rows[..i] == rows;
    } else {
      var p := rows[..|rows| - 1];
      assert p[..i] == rows[..i];
      ParamMapsErrPersists(p, i);
    }
  }

  /** The table fails exactly when some indexed row lacks a parameter ID,
      and then the failure is a panic. */
  lemma {:induction false} ParamMapsPanicIff(rows: seq<ParamDescription>)
    ensures ParamMapsOf(rows).Err? <==>
            exists i :: 0 <= i < |rows| && Indexed(rows[i]) && rows[i].parameterId.None?
    ensures ParamMapsOf(rows).Err? ==> ParamMapsOf(rows).error == Panic
  {
    if rows != [] {
      var p := rows[..|rows| - 1];
      ParamMapsPanicIff(p);
      if ParamMapsOf(p).Err? {
        var i :| 0 <= i < |p| && Indexed(p[i]) && p[i].parameterId.None?;
        assert rows[i] == p[i];
      }
      if exists i :: 0 <= i < |rows| && Indexed(rows[i]) && rows[i].parameterId.None? {
        var i :| 0 <= i < |rows| && Indexed(rows[i]) && rows[i].parameterId.None?;
        if i < |p| {
          assert p[i] == rows[i];
        }
      }
    }
  }

  /** Every indexed row is found under its measurement ID and under its
      parameter ID; it is the value there unless a later indexed row has
      the same key (later rows overwrite earlier ones). */
  lemma {:induction false} ParamMapsHoldRow(rows: seq<ParamDescription>, i: nat)
    requires i < |rows| && Indexed(rows[i]) && ParamMapsOf(rows).Ok?
    ensures rows[i].parameterId.Some?
    ensures rows[i].measurementId.value in ParamMapsOf(rows).value.byMeasurement
    ensures rows[i].parameterId.value in ParamMapsOf(rows).value.byParameter
    ensures (forall j :: i < j < |rows| && Indexed(rows[j]) ==> rows[j].measurementId != rows[i].measurementId)
            ==> ParamMapsOf(rows).value.byMeasurement[rows[i].measurementId.value] == rows[i]
    ensures (forall j :: i < j < |rows| && Indexed(rows[j]) ==> rows[j].parameterId != rows[i].parameterId)
            ==> ParamMapsOf(rows).value.byParameter[rows[i].parameterId.value] == rows[i]
  {
    var p := rows[..|rows| - 1];
    if i < |p| {
      assert p[i] == rows[i];
      assert ParamMapsOf(p).Ok?;
      ParamMapsHoldRow(p, i);
    }
  }

  /** Every key of either index comes from an indexed row holding that key. */
  lemma {:induction false} ParamMapsKeys(rows: seq<ParamDescription>)
    requires ParamMapsOf(rows).Ok?
    ensures forall k :: k in ParamMapsOf(rows).value.byMeasurement ==>
      exists i :: 0 <= i < |rows| && Indexed(rows[i]) && rows[i].measurementId == Some(k)
                  && ParamMapsOf(rows).value.byMeasurement[k] == rows[i]
    ensures forall k :: k in ParamMapsOf(rows).value.byParameter ==>
      exists i :: 0 <= i < |rows| && Indexed(rows[i]) && rows[i].parameterId == Some(k)
                  && ParamMapsOf(rows).value.byParameter[k] == rows[i]
  {
    if rows != [] {
      var p := rows[..|rows| - 1];
      assert ParamMapsOf(p).Ok?;
      ParamMapsKeys(p);
      var m := ParamMapsOf(rows).value;
      var m0 := ParamMapsOf(p).value;
      forall k | k in m.byMeasurement
        ensures exists i :: 0 <= i < |rows| && Indexed(rows[i]) && rows[i].measurementId == Some(k)
                            && m.byMeasurement[k] == rows[i]
      {
        if Indexed(rows[|p|]) && rows[|p|].measurementId == Some(k) {
        } else {
          var i :| 0 <= i < |p| && Indexed(p[i]) && p[i].measurementId == Some(k) && m0.byMeasurement[k] == p[i];
          assert rows[i] == p[i];
        }
      }
      forall k | k in m.byParameter
        ensures exists i :: 0 <= i < |rows| && Indexed(rows[i]) && rows[i].parameterId == Some(k)
                            && m.byParameter[k] == rows[i]
      {
        if Indexed(rows[|p|]) && rows[|p|].parameterId == Some(k) {
        } else {
          var i :| 0 <= i < |p| && Indexed(p[i]) && p[i].parameterId == Some(k) && m0.byParameter[k] == p[i];
          assert rows[i] == p[i];
        }
      }
    }
  }

  /** Indexes the parameter descriptions by measurement ID and by parameter ID. */
  method GetElectricalParamDescriptionListData(t: Tables) returns (r: Result<ParamMaps>)
    ensures t.paramDescriptions.UntypedNil? ==> r == Err(Panic)
    ensures t.paramDescriptions.TypedNil? ==> r == Err(DataNotAvailable)
    ensures t.paramDescriptions.Rows? ==> r == ParamMapsOf(t.paramDescriptions.rows)
  {
    if t.paramDescriptions.UntypedNil? {
      return Err(Panic);
    }
    if t.paramDescriptions.TypedNil? {
      return Err(DataNotAvailable);
    }
    var rows := t.paramDescriptions.rows;
    var refMeasurement: map<nat, ParamDescription> := map[];
    var refElectrical: map<nat, ParamDescription> := map[];
    var i := 0;
    while i < |rows|
      invariant 0 <= i <= |rows|
      invariant ParamMapsOf(rows[..i]) == Ok(ParamMaps(refMeasurement, refElectrical))
    {
      var item := rows[i];
      assert rows[..i + 1][..i] == rows[..i];
      if item.measurementId.None? || item.electricalConnectionId.None? {
        i := i + 1;
        continue;
      }
      refMeasurement := refMeasurement[item.measurementId.value := item];
      if item.parameterId.None? {
        // the parameter-ID key dereferences a nil pointer
        ParamMapsErrPersists(rows, i + 1);
        return Err(Panic);
      }
      refElectrical := refElectrical[item.parameterId.value := item];
      i := i + 1;
    }
    assert rows[..i] == rows;
    return Ok(ParamMaps(refMeasurement, refElectrical));
  }

  // ---------------------------------------------------------------------------
  // GetElectricalDescription
  // ---------------------------------------------------------------------------

  /** One output entry; ConnectionID is never assigned and stays 0. */
  function Describe(d: ConnectionDescription): ElectricalDescription {
    ElectricalDescription(0, d.powerSupplyType.GetOr(""), d.acConnectedPhases.GetOr(0),
                          d.positiveEnergyDirection.GetOr(""))
  }

  function DescriptionsOf(rows: seq<ConnectionDescription>): seq<ElectricalDescription> {
    if rows == [] then []
    else
      var d := rows[|rows| - 1];
      DescriptionsOf(rows[..|rows| - 1]) + (if d.electricalConnectionId.Some? then [Describe(d)] else [])
  }

  /** Order is preserved: the entries for `a + b` are those for `a`, then those for `b`. */
  lemma {:induction false} DescriptionsOfAppend(a: seq<ConnectionDescription>, b: seq<ConnectionDescription>)
    ensures DescriptionsOf(a + b) == DescriptionsOf(a) + DescriptionsOf(b)
    decreases |b|
  {
    if b == [] {
      assert a + b == a;
    } else {
      var b' := b[..|b| - 1];
      assert (a + b)[..|a + b| - 1] == a + b';
      DescriptionsOfAppend(a, b');
    }
  }

  /** One entry per row that has a connection ID, each built from such a row
      with ConnectionID 0 and zero values for absent fields. */
  lemma {:induction false} DescriptionsOfEntries(rows: seq<ConnectionDescription>)
    ensures |DescriptionsOf(rows)| <= |rows|
    ensures |DescriptionsOf(rows)| == |rows| <==>
            forall i :: 0 <= i < |rows| ==> rows[i].electricalConnectionId.Some?
    ensures forall k :: 0 <= k < |DescriptionsOf(rows)| ==>
      DescriptionsOf(rows)[k].connectionId == 0 &&
      exists i :: 0 <= i < |rows| && rows[i].electricalConnectionId.Some? && DescriptionsOf(rows)[k] == Describe(rows[i])
  {
    if rows != [] {
      var p := rows[..|rows| - 1];
      DescriptionsOfEntries(p);
      var r := DescriptionsOf(rows);
      var r0 := DescriptionsOf(p);
      forall k | 0 <= k < |r|
        ensures r[k].connectionId == 0 &&
          exists i :: 0 <= i < |rows| && rows[i].electricalConnectionId.Some? && r[k] == Describe(rows[i])
      {
        if k < |r0| {
          var i :| 0 <= i < |p| && p[i].electricalConnectionId.Some? && r0[k] == Describe(p[i]);
          assert rows[i] == p[i];
        } else {
          assert r[k] == Describe(rows[|p|]);
        }
      }
      if |r| == |rows| {
        forall i | 0 <= i < |rows| ensures rows[i].electricalConnectionId.Some? {
          if i < |p| { assert rows[i] == p[i]; }
        }
      }
      if forall i :: 0 <= i < |rows| ==> rows[i].electricalConnectionId.Some? {
        forall i | 0 <= i < |p| ensures p[i].electricalConnectionId.Some? {
          assert p[i] == rows[i];
        }
      }
    }
  }

  /** The connection descriptions as ElectricalDescription entries. */
  method GetElectricalDescription(t: Tables) returns (r: Result<seq<ElectricalDescription>>)
    ensures t.descriptions.UntypedNil? ==> r == Err(Panic)
    ensures t.descriptions.TypedNil? ==> r == Err(MetadataNotAvailable)
    ensures t.descriptions.Rows? ==> r == Ok(DescriptionsOf(t.descriptions.rows))
  {
    if t.descriptions.UntypedNil? {
      return Err(Panic);
    }
    if t.descriptions.TypedNil? {
      return Err(MetadataNotAvailable);
    }
    var rows := t.descriptions.rows;
    var resultSet: seq<ElectricalDescription> := [];
    var i := 0;
    while i < |rows|
      invariant 0 <= i <= |rows|
      invariant resultSet == DescriptionsOf(rows[..i])
    {
      var item := rows[i];
      assert rows[..i + 1][..i] == rows[..i];
      if item.electricalConnectionId.None? {
        i := i + 1;
        continue;
      }
      var result := ElectricalDescription(0, "", 0, "");
      if item.powerSupplyType.Some? {
        result := result.(powerSupplyType := item.powerSupplyType.value);
      }
      if item.acConnectedPhases.Some? {
        result := result.(acConnectedPhases := item.acConnectedPhases.value);
      }
      if item.positiveEnergyDirection.Some? {
        result := result.(positiveEnergyDirection := item.positiveEnergyDirection.value);
      }
      resultSet := resultSet + [result];
      i := i + 1;
    }
    assert rows[..i] == rows;
    return Ok(resultSet);
  }

  // ---------------------------------------------------------------------------
  // GetElectricalConnectedPhases
  // ---------------------------------------------------------------------------

  predicate DeclaresPhases(d: ConnectionDescription) {
    d.electricalConnectionId.Some? && d.acConnectedPhases.Some?
  }

  /** Row k is the first that has a connection ID and a phase count. */
  predicate FirstDeclaring(rows: seq<ConnectionDescription>, k: int) {
    0 <= k < |rows| && DeclaresPhases(rows[k]) &&
    forall j :: 0 <= j < k ==> !DeclaresPhases(rows[j])
  }

  /** The phase count of the first row declaring one, or 3 by default. */
  method GetElectricalConnectedPhases(t: Tables) returns (r: Result<nat>)
    ensures t.descriptions.UntypedNil? ==> r == Err(Panic)
    ensures t.descriptions.TypedNil? ==> r == Err(DataNotAvailable)
    ensures t.descriptions.Rows? ==> r.Ok?
    ensures forall k :: t.descriptions.Rows? && FirstDeclaring(t.descriptions.rows, k) ==>
              r == Ok(t.descriptions.rows[k].acConnectedPhases.value)
    ensures t.descriptions.Rows? &&
            (forall i :: 0 <= i < |t.descriptions.rows| ==> !DeclaresPhases(t.descriptions.rows[i]))
            ==> r == Ok(3)
  {
    if t.descriptions.UntypedNil? {
      return Err(Panic);
    }
    if t.descriptions.TypedNil? {
      return Err(DataNotAvailable);
    }
    var rows := t.descriptions.rows;
    var i := 0;
    while i < |rows|
      invariant 0 <= i <= |rows|
      invariant forall j :: 0 <= j < i ==> !DeclaresPhases(rows[j])
    {
      var item := rows[i];
      if item.electricalConnectionId.None? {
        i := i + 1;
        continue;
      }
      if item.acConnectedPhases.Some? {
        assert FirstDeclaring(rows, i);
        return Ok(item.acConnectedPhases.value);
      }
      i := i + 1;
    }
    // default to 3 phases when no row states the count
    return Ok(3);
  }

  // ---------------------------------------------------------------------------
  // GetElectricalCurrentsLimits
  // ---------------------------------------------------------------------------

  /** The per-phase maps, keyed by phase name ("a", "b", "c"). */
  datatype LimitMaps = LimitMaps(min: map<string, real>, max: map<string, real>, defaults: map<string, real>)

  const NoLimits: LimitMaps := LimitMaps(map[], map[], map[])

  function ApplyRange(acc: LimitMaps, phase: string, r: NumberRange): LimitMaps {
    var withMin := if r.min.Some? then acc.(min := acc.min[phase := r.min.value]) else acc;
    if r.max.Some? then withMin.(max := withMin.max[phase := r.max.value]) else withMin
  }

  function ApplyRanges(acc: LimitMaps, phase: string, ranges: seq<NumberRange>): LimitMaps {
    if ranges == [] then acc
    else ApplyRange(ApplyRanges(acc, phase, ranges[..|ranges| - 1]), phase, ranges[|ranges| - 1])
  }

  /** One set: its first value becomes the default, then every range entry. */
  function ApplySet(acc: LimitMaps, phase: string, s: ValueSet): LimitMaps {
    var withDefault := if |s.value| > 0 then acc.(defaults := acc.defaults[phase := s.value[0]]) else acc;
    ApplyRanges(withDefault, phase, s.range)
  }

  function ApplySets(acc: LimitMaps, phase: string, sets: seq<ValueSet>): LimitMaps {
    if sets == [] then acc
    else ApplySet(ApplySets(acc, phase, sets[..|sets| - 1]), phase, sets[|sets| - 1])
  }

  /** An item contributes to `phase` when it has a connection ID and a
      (non-nil) permitted-value set, and its parameter ID names a known
      description with that phase. */
  predicate Contributes(paramRef: map<nat, ParamDescription>, item: PermittedValueSetData, phase: string) {
    item.electricalConnectionId.Some? && item.permittedValueSet.Some? &&
    item.parameterId.Some? && item.parameterId.value in paramRef &&
    paramRef[item.parameterId.value].acMeasuredPhases == Some(phase)
  }

  function LimitMapsStep(acc: LimitMaps, paramRef: map<nat, ParamDescription>, item: PermittedValueSetData): Result<LimitMaps> {
    if item.electricalConnectionId.None? || item.permittedValueSet.None? then Ok(acc)
    else if item.parameterId.None? then Err(Panic)
    else if item.parameterId.value !in paramRef then Ok(acc)
    else if paramRef[item.parameterId.value].acMeasuredPhases.None? then Ok(acc)
    else Ok(ApplySets(acc, paramRef[item.parameterId.value].acMeasuredPhases.value, item.permittedValueSet.value))
  }

  function LimitMapsOf(paramRef: map<nat, ParamDescription>, items: seq<PermittedValueSetData>): Result<LimitMaps> {
    if items == [] then Ok(NoLimits)
    else
      match LimitMapsOf(paramRef, items[..|items| - 1])
      case Err(e) => Err(e)
      case Ok(acc) => LimitMapsStep(acc, paramRef, items[|items| - 1])
  }

  lemma {:induction false} LimitMapsErrPersists(paramRef: map<nat, ParamDescription>, items: seq<PermittedValueSetData>, i: nat)
    requires i <= |items| && LimitMapsOf(paramRef, items[..i]).Err?
    ensures LimitMapsOf(paramRef, items) == LimitMapsOf(paramRef, items[..i])
    decreases |items|
  {
    if i == |items| {
      assert items[..i] == items;
    } else {
      var p := items[..|items| - 1];
      assert p[..i] == items[..i];
      LimitMapsErrPersists(paramRef, p, i);
    }
  }

  lemma {:induction false} ApplySetsKeys(acc: LimitMaps, phase: string, sets: seq<ValueSet>)
    ensures ApplySets(acc, phase, sets).min.Keys <= acc.min.Keys + {phase}
    ensures ApplySets(acc, phase, sets).max.Keys <= acc.max.Keys + {phase}
    ensures ApplySets(acc, phase, sets).defaults.Keys <= acc.defaults.Keys + {phase}
  {
    if sets != [] {
      var p := sets[..|sets| - 1];
      ApplySetsKeys(acc, phase, p);
      var mid := ApplySets(acc, phase, p);
      var s := sets[|sets| - 1];
      var withDefault := if |s.value| > 0 then mid.(defaults := mid.defaults[phase := s.value[0]]) else mid;
      ApplyRangesKeys(withDefault, phase, s.range);
    }
  }

  lemma {:induction false} ApplyRangesKeys(acc: LimitMaps, phase: string, ranges: seq<NumberRange>)
    ensures ApplyRanges(acc, phase, ranges).min.Keys <= acc.min.Keys + {phase}
    ensures ApplyRanges(acc, phase, ranges).max.Keys <= acc.max.Keys + {phase}
    ensures ApplyRanges(acc, phase, ranges).defaults == acc.defaults
  {
    if ranges != [] {
      ApplyRangesKeys(acc, phase, ranges[..|ranges| - 1]);
    }
  }

  /** Only contributing items add keys: every key of the three maps is the
      phase of a known description referenced by some item. */
  lemma {:induction false} LimitMapsKeys(paramRef: map<nat, ParamDescription>, items: seq<PermittedValueSetData>)
    requires LimitMapsOf(paramRef, items).Ok?
    ensures forall k :: k in LimitMapsOf(paramRef, items).value.min ==>
              exists i :: 0 <= i < |items| && Contributes(paramRef, items[i], k)
    ensures forall k :: k in LimitMapsOf(paramRef, items).value.max ==>
              exists i :: 0 <= i < |items| && Contributes(paramRef, items[i], k)
    ensures forall k :: k in LimitMapsOf(paramRef, items).value.defaults ==>
              exists i :: 0 <= i < |items| && Contributes(paramRef, items[i], k)
  {
    if items != [] {
      var p := items[..|items| - 1];
      var it := items[|items| - 1];
      assert LimitMapsOf(paramRef, p).Ok?;
      LimitMapsKeys(paramRef, p);
      var acc := LimitMapsOf(paramRef, p).value;
      var r := LimitMapsOf(paramRef, items).value;
      forall i | 0 <= i < |p| ensures items[i] == p[i] { }
      if it.electricalConnectionId.Some? && it.permittedValueSet.Some? && it.parameterId.Some?
         && it.parameterId.value in paramRef && paramRef[it.parameterId.value].acMeasuredPhases.Some? {
        var phase := paramRef[it.parameterId.value].acMeasuredPhases.value;
        ApplySetsKeys(acc, phase, it.permittedValueSet.value);
        assert Contributes(paramRef, items[|items| - 1], phase);
      }
    }
  }

  /** The min, max and default entries of phase `q` agree in both maps. */
  predicate SamePhase(a: LimitMaps, b: LimitMaps, q: string) {
    && (q in a.min <==> q in b.min) && (q in a.min ==> a.min[q] == b.min[q])
    && (q in a.max <==> q in b.max) && (q in a.max ==> a.max[q] == b.max[q])
    && (q in a.defaults <==> q in b.defaults) && (q in a.defaults ==> a.defaults[q] == b.defaults[q])
  }

  /** Range entries for one phase leave every other phase's entries alone. */
  lemma {:induction false} ApplyRangesFrame(acc: LimitMaps, phase: string, ranges: seq<NumberRange>, q: string)
    requires q != phase
    ensures SamePhase(ApplyRanges(acc, phase, ranges), acc, q)
  {
    if ranges != [] {
      ApplyRangesFrame(acc, phase, ranges[..|ranges| - 1], q);
    }
  }

  /** The sets of one item leave every other phase's entries alone. */
  lemma {:induction false} ApplySetsFrame(acc: LimitMaps, phase: string, sets: seq<ValueSet>, q: string)
    requires q != phase
    ensures SamePhase(ApplySets(acc, phase, sets), acc, q)
  {
    if sets != [] {
      var p := sets[..|sets| - 1];
      ApplySetsFrame(acc, phase, p, q);
      var mid := ApplySets(acc, phase, p);
      var s := sets[|sets| - 1];
      var withDefault := if |s.value| > 0 then mid.(defaults := mid.defaults[phase := s.value[0]]) else mid;
      ApplyRangesFrame(withDefault, phase, s.range, q);
    }
  }

  /** Items that do not contribute to phase `q` leave its entries alone. */
  lemma {:induction false} LimitMapsFrame(paramRef: map<nat, ParamDescription>, items: seq<PermittedValueSetData>,
                                          rest: seq<PermittedValueSetData>, q: string)
    requires LimitMapsOf(paramRef, items).Ok?
    requires forall i :: 0 <= i < |rest| ==> !Contributes(paramRef, rest[i], q)
    ensures LimitMapsOf(paramRef, items + rest).Ok? ==>
              SamePhase(LimitMapsOf(paramRef, items + rest).value, LimitMapsOf(paramRef, items).value, q)
    decreases |rest|
  {
    if rest == [] {
      assert items + rest == items;
    } else {
      var p := rest[..|rest| - 1];
      var it := rest[|rest| - 1];
      var all := items + rest;
      assert all[..|all| - 1] == items + p;
      if LimitMapsOf(paramRef, all).Ok? {
        LimitMapsFrame(paramRef, items, p, q);
        var acc := LimitMapsOf(paramRef, items + p).value;
        assert !Contributes(paramRef, rest[|rest| - 1], q);
        if it.electricalConnectionId.Some? && it.permittedValueSet.Some? && it.parameterId.Some?
           && it.parameterId.value in paramRef && paramRef[it.parameterId.value].acMeasuredPhases.Some? {
          ApplySetsFrame(acc, paramRef[it.parameterId.value].acMeasuredPhases.value, it.permittedValueSet.value, q);
        }
      }
    }
  }

  // What the fold leaves for one phase, stated over the range entries and
  // value sets in the order the loops visit them.

  /** The entry of `k` in `m`, if any. */
  function Lookup(m: map<string, real>, k: string): Option<real> {
    if k in m then Some(m[k]) else None
  }

  /** `a` when it is present, otherwise `b`. */
  function OrElse(a: Option<real>, b: Option<real>): Option<real> {
    if a.Some? then a else b
  }

  /** The Min of the last range entry that has one. */
  function LastMin(ranges: seq<NumberRange>): Option<real> {
    if ranges == [] then None
    else OrElse(ranges[|ranges| - 1].min, LastMin(ranges[..|ranges| - 1]))
  }

  /** The Max of the last range entry that has one. */
  function LastMax(ranges: seq<NumberRange>): Option<real> {
    if ranges == [] then None
    else OrElse(ranges[|ranges| - 1].max, LastMax(ranges[..|ranges| - 1]))
  }

  /** The range entries of all sets, set after set. */
  function RangesOf(sets: seq<ValueSet>): seq<NumberRange> {
    if sets == [] then [] else RangesOf(sets[..|sets| - 1]) + sets[|sets| - 1].range
  }

  /** The first value of the last set that has a value. */
  function LastDefault(sets: seq<ValueSet>): Option<real> {
    if sets == [] then None
    else
      var s := sets[|sets| - 1];
      OrElse(if |s.value| > 0 then Some(s.value[0]) else None, LastDefault(sets[..|sets| - 1]))
  }

  /** The value sets of every item that contributes to `phase`, item after item. */
  function PhaseSets(paramRef: map<nat, ParamDescription>, items: seq<PermittedValueSetData>, phase: string): seq<ValueSet> {
    if items == [] then []
    else
      var it := items[|items| - 1];
      PhaseSets(paramRef, items[..|items| - 1], phase) + (if Contributes(paramRef, it, phase) then it.permittedValueSet.value else [])
  }

  /** Later entries take precedence over earlier ones. */
  lemma {:induction false} LastBoundAppend(a: seq<NumberRange>, b: seq<NumberRange>)
    ensures LastMin(a + b) == OrElse(LastMin(b), LastMin(a))
    ensures LastMax(a + b) == OrElse(LastMax(b), LastMax(a))
    decreases |b|
  {
    if b == [] {
      assert a + b == a;
    } else {
      var p := b[..|b| - 1];
      assert (a + b)[..|a + b| - 1] == a + p;
      LastBoundAppend(a, p);
    }
  }

  lemma {:induction false} RangesOfAppend(a: seq<ValueSet>, b: seq<ValueSet>)
    ensures RangesOf(a + b) == RangesOf(a) + RangesOf(b)
    ensures LastDefault(a + b) == OrElse(LastDefault(b), LastDefault(a))
    decreases |b|
  {
    if b == [] {
      assert a + b == a;
    } else {
      var p := b[..|b| - 1];
      assert (a + b)[..|a + b| - 1] == a + p;
      RangesOfAppend(a, p);
    }
  }

  /** Range entries for a phase: its min is the Min of the last entry that
      has one, or else the old min; likewise its max. */
  lemma {:induction false} ApplyRangesPhase(acc: LimitMaps, phase: string, ranges: seq<NumberRange>)
    ensures Lookup(ApplyRanges(acc, phase, ranges).min, phase) == OrElse(LastMin(ranges), Lookup(acc.min, phase))
    ensures Lookup(ApplyRanges(acc, phase, ranges).max, phase) == OrElse(LastMax(ranges), Lookup(acc.max, phase))
  {
    if ranges != [] {
      ApplyRangesPhase(acc, phase, ranges[..|ranges| - 1]);
    }
  }

  /** An item's sets for a phase: min and max as for the range entries of
      all sets in order, and the default is the first value of the last set
      that has a value, or else the old default. */
  lemma {:induction false} ApplySetsPhase(acc: LimitMaps, phase: string, sets: seq<ValueSet>)
    ensures Lookup(ApplySets(acc, phase, sets).min, phase) == OrElse(LastMin(RangesOf(sets)), Lookup(acc.min, phase))
    ensures Lookup(ApplySets(acc, phase, sets).max, phase) == OrElse(LastMax(RangesOf(sets)), Lookup(acc.max, phase))
    ensures Lookup(ApplySets(acc, phase, sets).defaults, phase) == OrElse(LastDefault(sets), Lookup(acc.defaults, phase))
  {
    if sets != [] {
      var p := sets[..|sets| - 1];
      ApplySetsPhase(acc, phase, p);
      var mid := ApplySets(acc, phase, p);
      var s := sets[|sets| - 1];
      var withDefault := if |s.value| > 0 then mid.(defaults := mid.defaults[phase := s.value[0]]) else mid;
      ApplyRangesPhase(withDefault, phase, s.range);
      ApplyRangesKeys(withDefault, phase, s.range);
      LastBoundAppend(RangesOf(p), s.range);
    }
  }

  /** The whole fold, one phase at a time: a phase's min and max are those
      of the last range entry that has one among the sets of the items
      contributing to it, and its default is the first value of the last
      such set that has a value; with none, the phase has no entry. */
  lemma {:induction false} LimitMapsPhase(paramRef: map<nat, ParamDescription>, items: seq<PermittedValueSetData>, phase: string)
    requires LimitMapsOf(paramRef, items).Ok?
    ensures Lookup(LimitMapsOf(paramRef, items).value.min, phase) == LastMin(RangesOf(PhaseSets(paramRef, items, phase)))
    ensures Lookup(LimitMapsOf(paramRef, items).value.max, phase) == LastMax(RangesOf(PhaseSets(paramRef, items, phase)))
    ensures Lookup(LimitMapsOf(paramRef, items).value.defaults, phase) == LastDefault(PhaseSets(paramRef, items, phase))
  {
    if items != [] {
      var p := items[..|items| - 1];
      var it := items[|items| - 1];
      assert LimitMapsOf(paramRef, p).Ok?;
      LimitMapsPhase(paramRef, p, phase);
      var acc := LimitMapsOf(paramRef, p).value;
      var before := PhaseSets(paramRef, p, phase);
      if Contributes(paramRef, it, phase) {
        var sets := it.permittedValueSet.value;
        ApplySetsPhase(acc, phase, sets);
        RangesOfAppend(before, sets);
        LastBoundAppend(RangesOf(before), RangesOf(sets));
      } else {
        assert PhaseSets(paramRef, items, phase) == before + [];
        assert before + [] == before;
        if it.electricalConnectionId.Some? && it.permittedValueSet.Some? && it.parameterId.Some?
           && it.parameterId.value in paramRef && paramRef[it.parameterId.value].acMeasuredPhases.Some? {
          ApplySetsFrame(acc, paramRef[it.parameterId.value].acMeasuredPhases.value, it.permittedValueSet.value, phase);
        }
      }
    }
  }

  /** The last entry seen wins: after an item contributing to a phase, and
      any later items that do not contribute to it, the phase's min and max
      are those of the item's last range entry that has one, else the ones
      before the item; its default is the first value of the item's last set
      that has a value, else the one before the item. */
  lemma LastEntryWins(paramRef: map<nat, ParamDescription>, items: seq<PermittedValueSetData>,
                      it: PermittedValueSetData, rest: seq<PermittedValueSetData>, phase: string)
    requires LimitMapsOf(paramRef, items).Ok?
    requires Contributes(paramRef, it, phase)
    requires forall i :: 0 <= i < |rest| ==> !Contributes(paramRef, rest[i], phase)
    ensures LimitMapsOf(paramRef, items + [it]).Ok?
    ensures LimitMapsOf(paramRef, items + [it] + rest).Ok? ==>
            var sets := it.permittedValueSet.value;
            var before := LimitMapsOf(paramRef, items).value;
            var r := LimitMapsOf(paramRef, items + [it] + rest).value;
            && Lookup(r.min, phase) == OrElse(LastMin(RangesOf(sets)), Lookup(before.min, phase))
            && Lookup(r.max, phase) == OrElse(LastMax(RangesOf(sets)), Lookup(before.max, phase))
            && Lookup(r.defaults, phase) == OrElse(LastDefault(sets), Lookup(before.defaults, phase))
  {
    var all := items + [it];
    assert all[..|all| - 1] == items;
    ApplySetsPhase(LimitMapsOf(paramRef, items).value, phase, it.permittedValueSet.value);
    LimitMapsFrame(paramRef, all, rest, phase);
  }

  /** A nil parameter ID on an item with a connection ID and a value-set list
      dereferences a nil pointer: the fold fails exactly then, with a panic. */
  lemma {:induction false} LimitMapsPanicIff(paramRef: map<nat, ParamDescription>, items: seq<PermittedValueSetData>)
    ensures LimitMapsOf(paramRef, items).Err? <==>
            exists i :: 0 <= i < |items| && items[i].electricalConnectionId.Some?
                        && items[i].permittedValueSet.Some? && items[i].parameterId.None?
    ensures LimitMapsOf(paramRef, items).Err? ==> LimitMapsOf(paramRef, items).error == Panic
  {
    if items != [] {
      var p := items[..|items| - 1];
      LimitMapsPanicIff(paramRef, p);
      forall i | 0 <= i < |p| ensures items[i] == p[i] { }
    }
  }

  /** Per-phase minimum, maximum and default currents from the permitted-value sets. */
  method GetElectricalCurrentsLimits(t: Tables) returns (r: Result<LimitMaps>)
    ensures t.paramDescriptions.UntypedNil? ==> r == Err(Panic)
    ensures t.paramDescriptions.TypedNil? ==> r == Err(MetadataNotAvailable)
    ensures t.paramDescriptions.Rows? && ParamMapsOf(t.paramDescriptions.rows).Err? ==> r == Err(Panic)
    ensures t.paramDescriptions.Rows? && ParamMapsOf(t.paramDescriptions.rows).Ok? && t.permittedValueSets.UntypedNil?
            ==> r == Err(Panic)
    ensures t.paramDescriptions.Rows? && ParamMapsOf(t.paramDescriptions.rows).Ok? && t.permittedValueSets.TypedNil?
            ==> r == Err(DataNotAvailable)
    ensures t.paramDescriptions.Rows? && ParamMapsOf(t.paramDescriptions.rows).Ok? && t.permittedValueSets.Rows?
            ==> var acc := LimitMapsOf(ParamMapsOf(t.paramDescriptions.rows).value.byParameter, t.permittedValueSets.rows);
                r == if acc.Err? then acc
                     else if |acc.value.min| == 0 && |acc.value.max| == 0 then Err(DataNotAvailable)
                     else acc
  {
    var refs := GetElectricalParamDescriptionListData(t);
    if refs.Err? {
      if t.paramDescriptions.Rows? {
        ParamMapsPanicIff(t.paramDescriptions.rows);
      }
      return Err(Replace(refs.error, MetadataNotAvailable));
    }
    var paramRef := refs.value.byParameter;
    if t.permittedValueSets.UntypedNil? {
      return Err(Panic);
    }
    if t.permittedValueSets.TypedNil? {
      return Err(DataNotAvailable);
    }
    var items := t.permittedValueSets.rows;
    var resultSetMin: map<string, real> := map[];
    var resultSetMax: map<string, real> := map[];
    var resultSetDefault: map<string, real> := map[];
    var i := 0;
    while i < |items|
      invariant 0 <= i <= |items|
      invariant LimitMapsOf(paramRef, items[..i]) == Ok(LimitMaps(resultSetMin, resultSetMax, resultSetDefault))
    {
      var item := items[i];
      assert items[..i + 1][..i] == items[..i];
      if item.electricalConnectionId.None? || item.permittedValueSet.None? {
        i := i + 1;
        continue;
      }
      if item.parameterId.None? {
        // the parameter-ID lookup dereferences a nil pointer
        LimitMapsErrPersists(paramRef, items, i + 1);
        return Err(Panic);
      }
      if item.parameterId.value !in paramRef {
        i := i + 1;
        continue;
      }
      var param := paramRef[item.parameterId.value];
      if param.acMeasuredPhases.None? {
        i := i + 1;
        continue;
      }
      var phase := param.acMeasuredPhases.value;
      var sets := item.permittedValueSet.value;
      ghost var atItem := LimitMaps(resultSetMin, resultSetMax, resultSetDefault);
      var j := 0;
      while j < |sets|
        invariant 0 <= j <= |sets|
        invariant LimitMaps(resultSetMin, resultSetMax, resultSetDefault) == ApplySets(atItem, phase, sets[..j])
      {
        var valueSet := sets[j];
        assert sets[..j + 1][..j] == sets[..j];
        if |valueSet.value| > 0 {
          resultSetDefault := resultSetDefault[phase := valueSet.value[0]];
        }
        ghost var atSet := LimitMaps(resultSetMin, resultSetMax, resultSetDefault);
        var k := 0;
        while k < |valueSet.range|
          invariant 0 <= k <= |valueSet.range|
          invariant LimitMaps(resultSetMin, resultSetMax, resultSetDefault) == ApplyRanges(atSet, phase, valueSet.range[..k])
        {
          var rangeItem := valueSet.range[k];
          assert valueSet.range[..k + 1][..k] == valueSet.range[..k];
          if rangeItem.min.Some? {
            resultSetMin := resultSetMin[phase := rangeItem.min.value];
          }
          if rangeItem.max.Some? {
            resultSetMax := resultSetMax[phase := rangeItem.max.value];
          }
          k := k + 1;
        }
        assert valueSet.range[..k] == valueSet.range;
        j := j + 1;
      }
      assert sets[..j] == sets;
      i := i + 1;
    }
    assert items[..i] == items;
    // the source tests the max map twice and never the default map
    if |resultSetMin| == 0 && |resultSetMax| == 0 && |resultSetMax| == 0 {
      return Err(DataNotAvailable);
    }
    return Ok(LimitMaps(resultSetMin, resultSetMax, resultSetDefault));
  }

  // ---------------------------------------------------------------------------
  // GetElectricalLimitValues
  // ---------------------------------------------------------------------------

  /** The parameter descriptions indexed by parameter ID alone (later rows win). */
  function ParamsById(rows: seq<ParamDescription>): map<nat, ParamDescription> {
    if rows == [] then map[]
    else
      var d := rows[|rows| - 1];
      var m := ParamsById(rows[..|rows| - 1]);
      if d.parameterId.Some? then m[d.parameterId.value := d] else m
  }

  /** Every row with a parameter ID is indexed, the last row with a given ID
      is the one kept, and every entry is such a row. */
  lemma {:induction false} ParamsByIdContents(rows: seq<ParamDescription>)
    ensures forall i :: 0 <= i < |rows| && rows[i].parameterId.Some? ==> rows[i].parameterId.value in ParamsById(rows)
    ensures forall i :: (0 <= i < |rows| && rows[i].parameterId.Some? &&
                         (forall j :: i < j < |rows| ==> rows[j].parameterId != rows[i].parameterId))
                        ==> ParamsById(rows)[rows[i].parameterId.value] == rows[i]
    ensures forall k :: k in ParamsById(rows) ==>
              exists i :: 0 <= i < |rows| && rows[i].parameterId == Some(k) && ParamsById(rows)[k] == rows[i]
  {
    if rows != [] {
      var p := rows[..|rows| - 1];
      ParamsByIdContents(p);
      forall i | 0 <= i < |p| ensures rows[i] == p[i] { }
      var m := ParamsById(rows);
      forall k | k in m
        ensures exists i :: 0 <= i < |rows| && rows[i].parameterId == Some(k) && m[k] == rows[i]
      {
        if rows[|p|].parameterId != Some(k) {
          var i :| 0 <= i < |p| && p[i].parameterId == Some(k) && ParamsById(p)[k] == p[i];
          assert rows[i] == p[i];
        }
      }
    }
  }

  /** The flags and values the loop over one item's sets leaves behind. */
  datatype Scan = Scan(hasValue: bool, value: real, hasRange: bool, minValue: real, maxValue: real)

  const NoScan: Scan := Scan(false, 0.0, false, 0.0, 0.0)

  /** A set with a non-empty range reads the first range entry's Min and Max;
      a nil bound there dereferences a nil pointer. */
  predicate BadRange(e: ValueSet) {
    |e.range| > 0 && (e.range[0].min.None? || e.range[0].max.None?)
  }

  function ScanStep(s: Scan, e: ValueSet): Result<Scan> {
    var withValue := if |e.value| > 0 then s.(hasValue := true, value := e.value[0]) else s;
    if |e.range| == 0 then Ok(withValue)
    else if BadRange(e) then Err(Panic)
    else Ok(withValue.(hasRange := true, minValue := e.range[0].min.value, maxValue := e.range[0].max.value))
  }

  function ScanSets(sets: seq<ValueSet>): Result<Scan> {
    if sets == [] then Ok(NoScan)
    else
      match ScanSets(sets[..|sets| - 1])
      case Err(e) => Err(e)
      case Ok(s) => ScanStep(s, sets[|sets| - 1])
  }

  lemma {:induction false} ScanSetsErrPersists(sets: seq<ValueSet>, j: nat)
    requires j <= |sets| && ScanSets(sets[..j]).Err?
    ensures ScanSets(sets) == ScanSets(sets[..j])
    decreases |sets|
  {
    if j == |sets| {
      assert sets[..j] == sets;
    } else {
      var p := sets[..|sets| - 1];
      assert p[..j] == sets[..j];
      ScanSetsErrPersists(p, j);
    }
  }

  /** The scan panics exactly on a set whose first range entry lacks a bound. */
  lemma {:induction false} ScanSetsPanics(sets: seq<ValueSet>)
    ensures ScanSets(sets).Err? <==> exists i :: 0 <= i < |sets| && BadRange(sets[i])
  {
    if sets != [] {
      var p := sets[..|sets| - 1];
      ScanSetsPanics(p);
      forall i | 0 <= i < |p| ensures sets[i] == p[i] { }
    }
  }

  /** A scan that does not panic takes its value from the last set with a value. */
  lemma {:induction false} ScanSetsValue(sets: seq<ValueSet>)
    requires ScanSets(sets).Ok?
    ensures ScanSets(sets).value.hasValue <==> exists i :: 0 <= i < |sets| && |sets[i].value| > 0
    ensures forall i :: (0 <= i < |sets| && |sets[i].value| > 0 &&
                         (forall j :: i < j < |sets| ==> |sets[j].value| == 0))
                        ==> ScanSets(sets).value.value == sets[i].value[0]
  {
    if sets != [] {
      var p := sets[..|sets| - 1];
      assert ScanSets(p).Ok?;
      ScanSetsValue(p);
      forall i | 0 <= i < |p| ensures sets[i] == p[i] { }
    }
  }

  /** A scan that does not panic has a range exactly when some set has one. */
  lemma {:induction false} ScanSetsHasRange(sets: seq<ValueSet>)
    requires ScanSets(sets).Ok?
    ensures ScanSets(sets).value.hasRange <==> exists i :: 0 <= i < |sets| && |sets[i].range| > 0
  {
    if sets != [] {
      var p := sets[..|sets| - 1];
      assert ScanSets(p).Ok?;
      ScanSetsHasRange(p);
      forall i | 0 <= i < |p| ensures sets[i] == p[i] { }
    }
  }

  /** A scan that does not panic takes its bounds from the last set with a range. */
  lemma {:induction false} ScanSetsRange(sets: seq<ValueSet>)
    requires ScanSets(sets).Ok?
    ensures forall i :: (0 <= i < |sets| && |sets[i].range| > 0 &&
                         (forall j :: i < j < |sets| ==> |sets[j].range| == 0))
                        ==> && sets[i].range[0].min == Some(ScanSets(sets).value.minValue)
                            && sets[i].range[0].max == Some(ScanSets(sets).value.maxValue)
  {
    if sets != [] {
      var p := sets[..|sets| - 1];
      assert ScanSets(p).Ok?;
      ScanSetsRange(p);
      var last := sets[|sets| - 1];
      var before := ScanSets(p).value;
      var after := ScanSets(sets).value;
      assert ScanStep(before, last) == Ok(after);
      if |last.range| == 0 {
        assert after.minValue == before.minValue && after.maxValue == before.maxValue;
        forall i | (0 <= i < |sets| && |sets[i].range| > 0 && (forall j :: i < j < |sets| ==> |sets[j].range| == 0))
          ensures sets[i].range[0].min == Some(after.minValue) && sets[i].range[0].max == Some(after.maxValue)
        {
          assert i < |p| && sets[i] == p[i];
          assert forall j :: i < j < |p| ==> p[j] == sets[j];
        }
      } else {
        assert !BadRange(last);
      }
    }
  }

  /** The switch on the scan: an AC-power-total range, else a phase with a
      range and a value, else nothing. */
  function Classify(connectionId: nat, param: ParamDescription, s: Scan): (r: Option<ElectricalLimit>)
    ensures r.Some? <==> s.hasRange && (param.scopeType == Some(ACPowerTotal) || (param.acMeasuredPhases.Some? && s.hasValue))
    ensures r.Some? ==> r.value.connectionId == connectionId && r.value.min == s.minValue && r.value.max == s.maxValue
    ensures r.Some? ==> (r.value.scope == ACPowerTotal <==> param.scopeType == Some(ACPowerTotal))
    ensures r.Some? ==> r.value.scope == ACPowerTotal || r.value.scope == ACCurrent
    ensures r.Some? && r.value.scope == ACPowerTotal ==> r.value.defaultValue == 0.0 && r.value.phase == ""
    ensures r.Some? && r.value.scope == ACCurrent ==>
              r.value.defaultValue == s.value && param.acMeasuredPhases == Some(r.value.phase)
  {
    if param.scopeType.Some? && param.scopeType.value == ACPowerTotal && s.hasRange then
      Some(ElectricalLimit(connectionId, s.minValue, s.maxValue, 0.0, "", ACPowerTotal))
    else if param.acMeasuredPhases.Some? && s.hasRange && s.hasValue then
      Some(ElectricalLimit(connectionId, s.minValue, s.maxValue, s.value, param.acMeasuredPhases.value, ACCurrent))
    else None
  }

  /** Whether an item is skipped before its sets are looked at. */
  predicate SkippedLimitItem(paramRef: map<nat, ParamDescription>, item: PermittedValueSetData) {
    item.parameterId.None? || item.electricalConnectionId.None? ||
    item.parameterId.value !in paramRef ||
    item.permittedValueSet.None? || |item.permittedValueSet.value| == 0
  }

  function LimitOf(paramRef: map<nat, ParamDescription>, item: PermittedValueSetData): Result<Option<ElectricalLimit>> {
    if SkippedLimitItem(paramRef, item) then Ok(None)
    else
      match ScanSets(item.permittedValueSet.value)
      case Err(e) => Err(e)
      case Ok(s) => Ok(Classify(item.electricalConnectionId.value, paramRef[item.parameterId.value], s))
  }

  function LimitsOf(paramRef: map<nat, ParamDescription>, items: seq<PermittedValueSetData>): Result<seq<ElectricalLimit>> {
    if items == [] then Ok([])
    else
      match LimitsOf(paramRef, items[..|items| - 1])
      case Err(e) => Err(e)
      case Ok(prev) =>
        match LimitOf(paramRef, items[|items| - 1])
        case Err(e) => Err(e)
        case Ok(None) => Ok(prev)
        case Ok(Some(l)) => Ok(prev + [l])
  }

  lemma {:induction false} LimitsErrPersists(paramRef: map<nat, ParamDescription>, items: seq<PermittedValueSetData>, i: nat)
    requires i <= |items| && LimitsOf(paramRef, items[..i]).Err?
    ensures LimitsOf(paramRef, items) == LimitsOf(paramRef, items[..i])
    decreases |items|
  {
    if i == |items| {
      assert items[..i] == items;
    } else {
      var p := items[..|items| - 1];
      assert p[..i] == items[..i];
      LimitsErrPersists(paramRef, p, i);
    }
  }

  /** Input order is preserved: the limits for `a + b` are those for `a`,
      then those for `b`. */
  lemma {:induction false} LimitsOfAppend(paramRef: map<nat, ParamDescription>, a: seq<PermittedValueSetData>, b: seq<PermittedValueSetData>)
    requires LimitsOf(paramRef, a + b).Ok?
    ensures LimitsOf(paramRef, a).Ok? && LimitsOf(paramRef, b).Ok?
    ensures LimitsOf(paramRef, a + b).value == LimitsOf(paramRef, a).value + LimitsOf(paramRef, b).value
    decreases |b|
  {
    if b == [] {
      assert a + b == a;
    } else {
      var b' := b[..|b| - 1];
      assert (a + b)[..|a + b| - 1] == a + b';
      assert (a + b)[|a + b| - 1] == b[|b| - 1];
      LimitsOfAppend(paramRef, a, b');
    }
  }

  /** At most one limit per item; every limit is either an AC-power-total
      limit without phase or default, or an AC-current limit whose phase is
      that of a known parameter description. */
  lemma {:induction false} LimitsOfShape(paramRef: map<nat, ParamDescription>, items: seq<PermittedValueSetData>)
    requires LimitsOf(paramRef, items).Ok?
    ensures |LimitsOf(paramRef, items).value| <= |items|
    ensures forall l :: l in LimitsOf(paramRef, items).value ==>
      || (l.scope == ACPowerTotal && l.defaultValue == 0.0 && l.phase == "")
      || (l.scope == ACCurrent && exists k :: k in paramRef && paramRef[k].acMeasuredPhases == Some(l.phase))
  {
    if items != [] {
      var p := items[..|items| - 1];
      assert LimitsOf(paramRef, p).Ok?;
      LimitsOfShape(paramRef, p);
    }
  }

  /** The electrical limits: AC-power-total and per-phase AC-current limits
      classified from the permitted-value sets. */
  method GetElectricalLimitValues(t: Tables) returns (r: Result<seq<ElectricalLimit>>)
    ensures t.paramDescriptions.UntypedNil? ==> r == Err(MetadataNotAvailable)
    ensures t.paramDescriptions.TypedNil? ==> r == Err(Panic)
    ensures t.paramDescriptions.Rows? && t.permittedValueSets.UntypedNil? ==> r == Err(Panic)
    ensures t.paramDescriptions.Rows? && t.permittedValueSets.TypedNil? ==> r == Err(DataNotAvailable)
    ensures t.paramDescriptions.Rows? && t.permittedValueSets.Rows? ==>
              r == LimitsOf(ParamsById(t.paramDescriptions.rows), t.permittedValueSets.rows)
  {
    // this table is tested for nil before its type assertion, so the untyped
    // nil is caught and a typed nil is dereferenced when its rows are ranged
    if t.paramDescriptions.UntypedNil? {
      return Err(MetadataNotAvailable);
    }
    if t.paramDescriptions.TypedNil? {
      return Err(Panic);
    }
    var rows := t.paramDescriptions.rows;
    var paramRef: map<nat, ParamDescription> := map[];
    var n := 0;
    while n < |rows|
      invariant 0 <= n <= |rows|
      invariant paramRef == ParamsById(rows[..n])
    {
      assert rows[..n + 1][..n] == rows[..n];
      if rows[n].parameterId.Some? {
        paramRef := paramRef[rows[n].parameterId.value := rows[n]];
      }
      n := n + 1;
    }
    assert rows[..n] == rows;

    if t.permittedValueSets.UntypedNil? {
      return Err(Panic);
    }
    if t.permittedValueSets.TypedNil? {
      return Err(DataNotAvailable);
    }
    var items := t.permittedValueSets.rows;
    var resultSet: seq<ElectricalLimit> := [];
    var i := 0;
    while i < |items|
      invariant 0 <= i <= |items|
      invariant LimitsOf(paramRef, items[..i]) == Ok(resultSet)
    {
      var item := items[i];
      assert items[..i + 1][..i] == items[..i];
      if item.parameterId.None? || item.electricalConnectionId.None? || item.parameterId.value !in paramRef {
        i := i + 1;
        continue;
      }
      var param := paramRef[item.parameterId.value];
      if item.permittedValueSet.None? || |item.permittedValueSet.value| == 0 {
        i := i + 1;
        continue;
      }
      var sets := item.permittedValueSet.value;
      var value, minValue, maxValue := 0.0, 0.0, 0.0;
      var hasValue, hasRange := false, false;
      var j := 0;
      while j < |sets|
        invariant 0 <= j <= |sets|
        invariant ScanSets(sets[..j]) == Ok(Scan(hasValue, value, hasRange, minValue, maxValue))
      {
        var element := sets[j];
        assert sets[..j + 1][..j] == sets[..j];
        if |element.value| > 0 {
          value := element.value[0];
          hasValue := true;
        }
        if |element.range| > 0 {
          if element.range[0].min.None? || element.range[0].max.None? {
            // reading a nil range bound dereferences a nil pointer
            ScanSetsErrPersists(sets, j + 1);
            LimitsErrPersists(paramRef, items, i + 1);
            return Err(Panic);
          }
          minValue := element.range[0].min.value;
          maxValue := element.range[0].max.value;
          hasRange := true;
        }
        j := j + 1;
      }
      assert sets[..j] == sets;
      var scan := Scan(hasValue, value, hasRange, minValue, maxValue);
      if param.scopeType.Some? && param.scopeType.value == ACPowerTotal && hasRange {
        resultSet := resultSet + [ElectricalLimit(item.electricalConnectionId.value, minValue, maxValue, 0.0, "", ACPowerTotal)];
      } else if param.acMeasuredPhases.Some? && hasRange && hasValue {
        resultSet := resultSet + [ElectricalLimit(item.electricalConnectionId.value, minValue, maxValue, value,
                                                  param.acMeasuredPhases.value, ACCurrent)];
      }
      assert LimitOf(paramRef, item) == Ok(Classify(item.electricalConnectionId.value, param, scan));
      i := i + 1;
    }
    assert items[..i] == items;
    return Ok(resultSet);
  }
}
