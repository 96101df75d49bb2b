/** The e-mobility domain mapper and limit writer: charge state, phase-ordered
    current arrays, support predicates and scalar readers over the tables a
    connected EV has sent, and the clamped load-control limit write.

    Every table or feature getter the operations read is a parameter: a
    `Result` holding what the getter returned (a value or its error). */
module EMobility {
  import opened Common
  import opened ElectricalConnection

  // ---------------------------------------------------------------------------
  // EVCurrentChargeState
  // ---------------------------------------------------------------------------

  /** The remote's device-diagnosis operating state. */
  datatype OperatingState =
    | NormalOperation | Standby | GlobalError | Failure | ServiceNeeded | OverrideDetected
    | InAlarm | NotReachable | Finished | TemporarilyNotReady | Off

  datatype ChargeState = ChargeUnknown | ChargeActive | ChargePaused | ChargeError | ChargeFinished

  /** Total mapping from the diagnosis state; a failed read gives Unknown
      together with the read's error. */
  function EVCurrentChargeState(diagnosis: Result<OperatingState>): (r: Answer<ChargeState>)
    ensures diagnosis.Err? ==> r == Answer(ChargeUnknown, Some(diagnosis.error))
    ensures diagnosis.Ok? ==> r.err == None
    ensures diagnosis.Ok? ==> (r.value == ChargeActive <==> diagnosis.value == NormalOperation)
    ensures diagnosis.Ok? ==> (r.value == ChargePaused <==> diagnosis.value == Standby)
    ensures diagnosis.Ok? ==> (r.value == ChargeError <==> diagnosis.value == Failure)
    ensures diagnosis.Ok? ==> (r.value == ChargeFinished <==> diagnosis.value == Finished)
    ensures r.value == ChargeUnknown <==>
            diagnosis.Err? || diagnosis.value !in {NormalOperation, Standby, Failure, Finished}
  {
    match diagnosis
    case Err(e) => Answer(ChargeUnknown, Some(e))
    case Ok(state) =>
      match state
      case NormalOperation => Answer(ChargeActive, None)
      case Standby => Answer(ChargePaused, None)
      case Failure => Answer(ChargeError, None)
      case Finished => Answer(ChargeFinished, None)
      case _ => Answer(ChargeUnknown, None)
  }

  // ---------------------------------------------------------------------------
  // EVConnectedPhases
  // ---------------------------------------------------------------------------

  /** The connected-phase count, or 0 together with the getter's error. */
  function EVConnectedPhases(phases: Result<nat>): (r: Answer<nat>)
    ensures r.err.None? <==> phases.Ok?
    ensures phases.Ok? ==> r.value == phases.value
    ensures phases.Err? ==> r == Answer(0, Some(phases.error))
  {
    if phases.Err? then Answer(0, Some(phases.error)) else Answer(phases.value, None)
  }

  // ---------------------------------------------------------------------------
  // EVCurrents and EVCurrentLimits
  // ---------------------------------------------------------------------------

  /** The value a phase-keyed map holds for one slot; a missing phase reads as 0.0. */
  function PhaseValue(m: map<string, real>, phase: string): real {
    if phase in m then m[phase] else 0.0
  }

  /** Exactly three slots in a, b, c order, each the map's value for that
      phase letter or 0.0; an upstream error is returned instead. */
  method EVCurrents(data: Result<map<string, real>>) returns (r: Result<seq<real>>)
    ensures data.Err? ==> r == Err(data.error)
    ensures data.Ok? ==> r.Ok? && |r.value| == 3
    ensures data.Ok? ==> forall i :: 0 <= i < 3 ==> r.value[i] == PhaseValue(data.value, PhaseMapping[i])
  {
    if data.Err? {
      return Err(data.error);
    }
    var result: seq<real> := [];
    var i := 0;
    while i < |PhaseMapping|
      invariant 0 <= i <= |PhaseMapping|
      invariant |result| == i
      invariant forall j :: 0 <= j < i ==> result[j] == PhaseValue(data.value, PhaseMapping[j])
    {
      var phase := PhaseMapping[i];
      var value := 0.0;
      if phase in data.value {
        value := data.value[phase];
      }
      result := result + [value];
      i := i + 1;
    }
    return Ok(result);
  }

  /** The three phase-ordered arrays EVCurrentLimits returns. */
  datatype PhaseLimits = PhaseLimits(min: seq<real>, max: seq<real>, defaults: seq<real>)

  /** Three arrays of exactly three slots each (min, max, default), a, b, c
      order, 0.0 where the corresponding map lacks the phase. */
  method EVCurrentLimits(limits: Result<LimitMaps>) returns (r: Result<PhaseLimits>)
    ensures limits.Err? ==> r == Err(limits.error)
    ensures limits.Ok? ==> r.Ok? && |r.value.min| == 3 && |r.value.max| == 3 && |r.value.defaults| == 3
    ensures limits.Ok? ==> forall i :: 0 <= i < 3 ==>
              && r.value.min[i] == PhaseValue(limits.value.min, PhaseMapping[i])
              && r.value.max[i] == PhaseValue(limits.value.max, PhaseMapping[i])
              && r.value.defaults[i] == PhaseValue(limits.value.defaults, PhaseMapping[i])
  {
    if limits.Err? {
      return Err(limits.error);
    }
    var dataMin, dataMax, dataDefault := limits.value.min, limits.value.max, limits.value.defaults;
    var resultMin: seq<real>, resultMax: seq<real>, resultDefault: seq<real> := [], [], [];
    var i := 0;
    while i < |PhaseMapping|
      invariant 0 <= i <= |PhaseMapping|
      invariant |resultMin| == i && |resultMax| == i && |resultDefault| == i
      invariant forall j :: 0 <= j < i ==>
                  && resultMin[j] == PhaseValue(dataMin, PhaseMapping[j])
                  && resultMax[j] == PhaseValue(dataMax, PhaseMapping[j])
                  && resultDefault[j] == PhaseValue(dataDefault, PhaseMapping[j])
    {
      var phase := PhaseMapping[i];
      var value := 0.0;
      if phase in dataMin {
        value := dataMin[phase];
      }
      resultMin := resultMin + [value];

      value := 0.0;
      if phase in dataMax {
        value := dataMax[phase];
      }
      resultMax := resultMax + [value];

      value := 0.0;
      if phase in dataDefault {
        value := dataDefault[phase];
      }
      resultDefault := resultDefault + [value];
      i := i + 1;
    }
    return Ok(PhaseLimits(resultMin, resultMax, resultDefault));
  }

  /** The arrays agree with the maps: a phase present in a map is found at
      its slot, and a slot holding a non-zero value names a present phase. */
  lemma PhaseArraysAgreeWithMap(m: map<string, real>, arr: seq<real>)
    requires |arr| == 3 && forall i :: 0 <= i < 3 ==> arr[i] == PhaseValue(m, PhaseMapping[i])
    ensures forall i :: 0 <= i < 3 && PhaseMapping[i] in m ==> arr[i] == m[PhaseMapping[i]]
    ensures forall i :: 0 <= i < 3 && arr[i] != 0.0 ==> PhaseMapping[i] in m
  {
  }

  // ---------------------------------------------------------------------------
  // EVWriteLoadControlLimits
  // ---------------------------------------------------------------------------

  datatype LimitCategory = Obligation | Recommendation | OtherCategory(name: string)

  /** A load-control limit-description row. */
  datatype LimitDescription = LimitDescription(
    limitId: Option<nat>,
    limitCategory: Option<LimitCategory>,
    measurementId: Option<nat>)

  /** A current load-control limit value (only the fields the writer reads). */
  datatype LoadControlLimit = LoadControlLimit(limitId: nat, isChangeable: bool)

  /** One entry of the limit write. */
  datatype LimitData = LimitData(limitId: nat, isLimitActive: bool, value: real)

  /** The four tables the writer joins, once all of them were read. */
  datatype WriteTables = WriteTables(
    electricalDesc: map<nat, ParamDescription>,
    elLimits: seq<ElectricalLimit>,
    limitDesc: seq<LimitDescription>,
    currentLimits: seq<LoadControlLimit>)

  /** The search's match for one phase slot: an Obligation-category
      description whose measurement's parameter row has a connection ID and
      that phase. Both passes look for the Obligation category. */
  predicate MatchesPhase(d: LimitDescription, electricalDesc: map<nat, ParamDescription>, phase: string) {
    && d.limitCategory == Some(Obligation)
    && d.measurementId.Some?
    && d.measurementId.value in electricalDesc
    && electricalDesc[d.measurementId.value].electricalConnectionId.Some?
    && electricalDesc[d.measurementId.value].acMeasuredPhases == Some(phase)
  }

  function ConnectionOf(d: LimitDescription, electricalDesc: map<nat, ParamDescription>, phase: string): nat
    requires MatchesPhase(d, electricalDesc, phase)
  {
    electricalDesc[d.measurementId.value].electricalConnectionId.value
  }

  /** The first matching description's limit ID (possibly absent) and connection ID. */
  function FindLimitDescription(ds: seq<LimitDescription>, electricalDesc: map<nat, ParamDescription>, phase: string)
    : (r: Option<(Option<nat>, nat)>)
    ensures r.None? <==> forall k :: 0 <= k < |ds| ==> !MatchesPhase(ds[k], electricalDesc, phase)
    ensures r.Some? ==> exists k :: (0 <= k < |ds| && MatchesPhase(ds[k], electricalDesc, phase)
              && (forall j :: 0 <= j < k ==> !MatchesPhase(ds[j], electricalDesc, phase))
              && r.value == (ds[k].limitId, ConnectionOf(ds[k], electricalDesc, phase)))
  {
    if ds == [] then None
    else if MatchesPhase(ds[0], electricalDesc, phase) then
      Some((ds[0].limitId, ConnectionOf(ds[0], electricalDesc, phase)))
    else
      var r := FindLimitDescription(ds[1..], electricalDesc, phase);
      assert forall k :: 1 <= k < |ds| ==> ds[k] == ds[1..][k - 1];
      r
  }

  /** The first current limit with that ID. */
  function FindCurrentLimit(cls: seq<LoadControlLimit>, id: nat): (r: Option<LoadControlLimit>)
    ensures r.None? <==> forall k :: 0 <= k < |cls| ==> cls[k].limitId != id
    ensures r.Some? ==> r.value.limitId == id && r.value in cls
    ensures r.Some? ==> exists k :: 0 <= k < |cls| && cls[k] == r.value &&
                                    forall j :: 0 <= j < k ==> cls[j].limitId != id
  {
    if cls == [] then None
    else if cls[0].limitId == id then Some(cls[0])
    else
      var r := FindCurrentLimit(cls[1..], id);
      assert forall k :: 1 <= k < |cls| ==> cls[k] == cls[1..][k - 1];
      r
  }

  /** An electrical limit the clamp consults for a connection. */
  predicate ClampsConnection(e: ElectricalLimit, connectionId: nat) {
    e.connectionId == connectionId && e.scope == ACCurrent
  }

  /** The value sent for a requested current: every AC-current limit of the
      connection, in order, replaces it by its Min when the request is below
      Min and by its Max when the request is above Max. */
  function ClampedValue(limit: real, connectionId: nat, elLimits: seq<ElectricalLimit>): (r: real)
    ensures r == limit || exists e :: e in elLimits && ClampsConnection(e, connectionId) && (r == e.min || r == e.max)
    ensures (forall e :: e in elLimits && ClampsConnection(e, connectionId) ==> e.min <= limit <= e.max) ==> r == limit
  {
    if elLimits == [] then limit
    else
      var prev := elLimits[..|elLimits| - 1];
      var e := elLimits[|elLimits| - 1];
      var v := ClampedValue(limit, connectionId, prev);
      assert forall x :: x in prev ==> x in elLimits;
      if !ClampsConnection(e, connectionId) then v
      else if limit > e.max then e.max
      else if limit < e.min then e.min
      else v
  }

  /** With a single AC-current limit for the connection (Min <= Max), the
      value is the request clamped to [Min, Max]. */
  lemma {:induction false} ClampToSingleLimit(limit: real, connectionId: nat, elLimits: seq<ElectricalLimit>, k: nat)
    requires k < |elLimits| && ClampsConnection(elLimits[k], connectionId)
    requires elLimits[k].min <= elLimits[k].max
    requires forall j :: 0 <= j < |elLimits| && j != k ==> !ClampsConnection(elLimits[j], connectionId)
    ensures limit < elLimits[k].min ==> ClampedValue(limit, connectionId, elLimits) == elLimits[k].min
    ensures limit > elLimits[k].max ==> ClampedValue(limit, connectionId, elLimits) == elLimits[k].max
    ensures elLimits[k].min <= limit <= elLimits[k].max ==> ClampedValue(limit, connectionId, elLimits) == limit
    ensures elLimits[k].min <= ClampedValue(limit, connectionId, elLimits) <= elLimits[k].max
  {
    var prev := elLimits[..|elLimits| - 1];
    if k < |prev| {
      assert forall j :: 0 <= j < |prev| ==> prev[j] == elLimits[j];
      ClampToSingleLimit(limit, connectionId, prev, k);
    } else {
      assert forall x :: x in prev ==> !ClampsConnection(x, connectionId);
    }
  }

  /** The entry for one phase slot, or None when the slot is skipped. */
  function PhaseEntry(limit: real, phase: string, w: WriteTables): Option<LimitData> {
    match FindLimitDescription(w.limitDesc, w.electricalDesc, phase)
    case None => None
    case Some((limitId, connectionId)) =>
      if limitId.None? then None
      else
        match FindCurrentLimit(w.currentLimits, limitId.value)
        case None => None
        case Some(current) =>
          if !current.isChangeable then None
          else Some(LimitData(limitId.value, true, ClampedValue(limit, connectionId, w.elLimits)))
  }

  /** The entries of one pass over up to three per-phase values. */
  function PassEntries(values: seq<real>, w: WriteTables): seq<LimitData>
    requires |values| <= 3
  {
    if values == [] then []
    else
      var n := |values| - 1;
      var entry := PhaseEntry(values[n], PhaseMapping[n], w);
      PassEntries(values[..n], w) + (if entry.Some? then [entry.value] else [])
  }

  /** The whole write: obligation entries, then recommendation entries. */
  function WrittenEntries(obligations: seq<real>, recommendations: seq<real>, w: WriteTables): seq<LimitData>
    requires |obligations| <= 3 && |recommendations| <= 3
  {
    PassEntries(obligations, w) + PassEntries(recommendations, w)
  }

  /** A slot emits no entry when no matching description exists, when the
      matched description has no limit ID, when no current limit has that
      ID, or when the first current limit with that ID is not changeable;
      otherwise it emits an active entry for the matched limit carrying the
      clamped value. */
  lemma PhaseEntryMeaning(limit: real, phase: string, w: WriteTables)
    ensures (forall k :: 0 <= k < |w.limitDesc| ==> !MatchesPhase(w.limitDesc[k], w.electricalDesc, phase))
            ==> PhaseEntry(limit, phase, w).None?
    ensures forall id, c, cl :: FindLimitDescription(w.limitDesc, w.electricalDesc, phase) == Some((Some(id), c)) &&
                                FindCurrentLimit(w.currentLimits, id) == Some(cl) ==>
              PhaseEntry(limit, phase, w) == (if cl.isChangeable then Some(LimitData(id, true, ClampedValue(limit, c, w.elLimits)))
                                              else None)
    ensures forall c :: FindLimitDescription(w.limitDesc, w.electricalDesc, phase) == Some((None, c)) ==>
              PhaseEntry(limit, phase, w).None?
    ensures forall id, c :: FindLimitDescription(w.limitDesc, w.electricalDesc, phase) == Some((Some(id), c)) &&
                            (forall k :: 0 <= k < |w.currentLimits| ==> w.currentLimits[k].limitId != id) ==>
              PhaseEntry(limit, phase, w).None?
    ensures PhaseEntry(limit, phase, w).Some? ==>
      var e := PhaseEntry(limit, phase, w).value;
      && e.isLimitActive
      && (exists k :: 0 <= k < |w.limitDesc| && MatchesPhase(w.limitDesc[k], w.electricalDesc, phase)
                      && (forall j :: 0 <= j < k ==> !MatchesPhase(w.limitDesc[j], w.electricalDesc, phase))
                      && w.limitDesc[k].limitId == Some(e.limitId)
                      && e.value == ClampedValue(limit, ConnectionOf(w.limitDesc[k], w.electricalDesc, phase), w.elLimits))
      && (exists k :: 0 <= k < |w.currentLimits| && w.currentLimits[k].limitId == e.limitId && w.currentLimits[k].isChangeable
                      && forall j :: 0 <= j < k ==> w.currentLimits[j].limitId != e.limitId)
  {
  }

  /** A pass writes the entry of every slot that emits one and nothing else;
      it writes one entry per value exactly when every slot emits. */
  lemma {:induction false} PassEntriesSlots(values: seq<real>, w: WriteTables)
    requires |values| <= 3
    ensures |PassEntries(values, w)| <= |values|
    ensures |PassEntries(values, w)| == |values| <==>
            forall n :: 0 <= n < |values| ==> PhaseEntry(values[n], PhaseMapping[n], w).Some?
    ensures forall n :: 0 <= n < |values| && PhaseEntry(values[n], PhaseMapping[n], w).Some? ==>
              PhaseEntry(values[n], PhaseMapping[n], w).value in PassEntries(values, w)
    ensures forall e :: e in PassEntries(values, w) ==>
              exists n :: 0 <= n < |values| && PhaseEntry(values[n], PhaseMapping[n], w) == Some(e)
  {
    if values != [] {
      var n := |values| - 1;
      var p := values[..n];
      PassEntriesSlots(p, w);
      forall i | 0 <= i < n ensures p[i] == values[i] { }
    }
  }

  /** Slot order: the entries of the first m slots are a prefix of the pass. */
  lemma {:induction false} PassEntriesInSlotOrder(values: seq<real>, w: WriteTables)
    requires |values| <= 3
    ensures forall m :: 0 <= m <= |values| ==> PassEntries(values[..m], w) <= PassEntries(values, w)
  {
    if values != [] {
      var n := |values| - 1;
      var p := values[..n];
      PassEntriesInSlotOrder(p, w);
      forall m | 0 <= m <= |values|
        ensures PassEntries(values[..m], w) <= PassEntries(values, w)
      {
        if m <= n {
          assert values[..m] == p[..m];
          assert PassEntries(p[..m], w) <= PassEntries(p, w);
        } else {
          assert values[..m] == values;
        }
      }
    }
  }

  /** Every written entry is active and targets an Obligation-category limit
      that is changeable. */
  lemma {:induction false} PassEntriesMeaning(values: seq<real>, w: WriteTables)
    requires |values| <= 3
    ensures |PassEntries(values, w)| <= |values|
    ensures forall e :: e in PassEntries(values, w) ==>
      && e.isLimitActive
      && (exists d :: d in w.limitDesc && d.limitCategory == Some(Obligation) && d.limitId == Some(e.limitId))
      && (exists c :: c in w.currentLimits && c.limitId == e.limitId && c.isChangeable)
  {
    if values != [] {
      var n := |values| - 1;
      PassEntriesMeaning(values[..n], w);
      PhaseEntryMeaning(values[n], PhaseMapping[n], w);
    }
  }

  /** The entries are at most one per requested value, obligations first. */
  lemma WrittenEntriesBound(obligations: seq<real>, recommendations: seq<real>, w: WriteTables)
    requires |obligations| <= 3 && |recommendations| <= 3
    ensures |WrittenEntries(obligations, recommendations, w)| <= |obligations| + |recommendations|
    ensures WrittenEntries(obligations, recommendations, w)[..|PassEntries(obligations, w)|] == PassEntries(obligations, w)
    ensures forall e :: e in WrittenEntries(obligations, recommendations, w) ==>
      e.isLimitActive && exists c :: c in w.currentLimits && c.limitId == e.limitId && c.isChangeable
  {
    PassEntriesMeaning(obligations, w);
    PassEntriesMeaning(recommendations, w);
  }

  /** Because both passes search the Obligation category, a recommendation
      pass writes to exactly the limit IDs an obligation pass of the same
      length writes to; only the values differ. */
  lemma {:induction false} RecommendationPassTargetsObligationLimits(obligations: seq<real>, recommendations: seq<real>, w: WriteTables)
    requires |obligations| == |recommendations| <= 3
    ensures |PassEntries(obligations, w)| == |PassEntries(recommendations, w)|
    ensures forall k :: 0 <= k < |PassEntries(obligations, w)| ==>
              PassEntries(obligations, w)[k].limitId == PassEntries(recommendations, w)[k].limitId
  {
    if obligations != [] {
      var n := |obligations| - 1;
      RecommendationPassTargetsObligationLimits(obligations[..n], recommendations[..n], w);
    }
  }

  /** The search for the first Obligation-category description of a phase. */
  method SearchLimitDescription(lds: seq<LimitDescription>, ed: map<nat, ParamDescription>, phase: string)
    returns (limitId: Option<nat>, elConnectionId: Option<nat>)
    ensures elConnectionId.None? <==> FindLimitDescription(lds, ed, phase).None?
    ensures elConnectionId.None? ==> limitId.None?
    ensures elConnectionId.Some? ==> FindLimitDescription(lds, ed, phase) == Some((limitId, elConnectionId.value))
  {
    limitId, elConnectionId := None, None;
    var n := 0;
    while n < |lds|
      invariant 0 <= n <= |lds|
      invariant limitId == None && elConnectionId == None
      invariant FindLimitDescription(lds, ed, phase) == FindLimitDescription(lds[n..], ed, phase)
    {
      var lDesc := lds[n];
      assert lds[n..][1..] == lds[n + 1..];
      if lDesc.limitCategory.None? || lDesc.measurementId.None? {
        n := n + 1;
        continue;
      }
      if lDesc.limitCategory.value != Obligation {
        n := n + 1;
        continue;
      }
      if lDesc.measurementId.value !in ed {
        n := n + 1;
        continue;
      }
      var elDesc := ed[lDesc.measurementId.value];
      if elDesc.electricalConnectionId.None? || elDesc.acMeasuredPhases.None? || elDesc.acMeasuredPhases.value != phase {
        n := n + 1;
        continue;
      }
      limitId := lDesc.limitId;
      elConnectionId := elDesc.electricalConnectionId;
      return;
    }
  }

  /** The search for the current limit with a given ID. */
  method SearchCurrentLimit(cls: seq<LoadControlLimit>, id: nat) returns (found: bool, item: LoadControlLimit)
    ensures found <==> FindCurrentLimit(cls, id).Some?
    ensures found ==> FindCurrentLimit(cls, id) == Some(item)
  {
    found, item := false, LoadControlLimit(0, false);
    var m := 0;
    while m < |cls|
      invariant 0 <= m <= |cls|
      invariant FindCurrentLimit(cls, id) == FindCurrentLimit(cls[m..], id)
    {
      assert cls[m..][1..] == cls[m + 1..];
      if id != cls[m].limitId {
        m := m + 1;
        continue;
      }
      return true, cls[m];
    }
  }

  /** The clamp of a requested value against every AC-current limit of the connection. */
  method ClampLimit(limit: real, connectionId: nat, els: seq<ElectricalLimit>) returns (limitValue: real)
    ensures limitValue == ClampedValue(limit, connectionId, els)
  {
    limitValue := limit;
    var k := 0;
    while k < |els|
      invariant 0 <= k <= |els|
      invariant limitValue == ClampedValue(limit, connectionId, els[..k])
    {
      var elLimit := els[k];
      assert els[..k + 1][..k] == els[..k];
      if elLimit.connectionId != connectionId {
        k := k + 1;
        continue;
      }
      if elLimit.scope != ACCurrent {
        k := k + 1;
        continue;
      }
      if limit < elLimit.min {
        limitValue := elLimit.min;
      }
      if limit > elLimit.max {
        limitValue := elLimit.max;
      }
      k := k + 1;
    }
    assert els[..k] == els;
  }

  /** One slot of a pass: search, look up, clamp. */
  method SlotEntry(limit: real, phase: string, w: WriteTables) returns (entry: Option<LimitData>)
    ensures entry == PhaseEntry(limit, phase, w)
  {
    var limitId, elConnectionId := SearchLimitDescription(w.limitDesc, w.electricalDesc, phase);
    if limitId.None? || elConnectionId.None? {
      return None;
    }
    var found, currentLimitsForId := SearchCurrentLimit(w.currentLimits, limitId.value);
    if !found || !currentLimitsForId.isChangeable {
      return None;
    }
    var limitValue := ClampLimit(limit, elConnectionId.value, w.elLimits);
    return Some(LimitData(limitId.value, true, limitValue));
  }

  /** One pass over the per-phase values; a fourth value indexes past the
      phase mapping and panics. */
  method WritePass(currentsPerPhase: seq<real>, w: WriteTables) returns (entries: seq<LimitData>, panicked: bool)
    ensures panicked <==> |currentsPerPhase| > 3
    ensures !panicked ==> entries == PassEntries(currentsPerPhase, w)
  {
    entries := [];
    var index := 0;
    while index < |currentsPerPhase|
      invariant 0 <= index <= |currentsPerPhase| && index <= 3
      invariant entries == PassEntries(currentsPerPhase[..index], w)
    {
      if index >= |PhaseMapping| {
        // phaseMapping[index] is out of range
        return [], true;
      }
      assert currentsPerPhase[..index + 1][..index] == currentsPerPhase[..index];
      var entry := SlotEntry(currentsPerPhase[index], PhaseMapping[index], w);
      if entry.Some? {
        entries := entries + [entry.value];
      }
      index := index + 1;
    }
    assert currentsPerPhase[..index] == currentsPerPhase;
    return entries, false;
  }

  /** Joins the four tables, clamps each requested per-phase value and makes
      exactly one write call with every entry; `writeOutcome` is the error the
      remote's write reports, and `writes` lists the write calls made. */
  method EVWriteLoadControlLimits(
    obligations: seq<real>, recommendations: seq<real>,
    electricalDesc: Result<map<nat, ParamDescription>>, elLimits: Result<seq<ElectricalLimit>>,
    limitDesc: Result<seq<LimitDescription>>, currentLimits: Result<seq<LoadControlLimit>>,
    writeOutcome: Option<Error>)
    returns (writes: seq<seq<LimitData>>, err: Option<Error>)
    ensures electricalDesc.Err? ==>
              writes == [] && err == Some(Replace(electricalDesc.error, MetadataNotAvailable))
    ensures electricalDesc.Ok? && elLimits.Err? ==>
              writes == [] && err == Some(Replace(elLimits.error, MetadataNotAvailable))
    ensures electricalDesc.Ok? && elLimits.Ok? && limitDesc.Err? ==>
              writes == [] && err == Some(limitDesc.error)
    ensures electricalDesc.Ok? && elLimits.Ok? && limitDesc.Ok? && currentLimits.Err? ==>
              writes == [] && err == Some(currentLimits.error)
    ensures electricalDesc.Ok? && elLimits.Ok? && limitDesc.Ok? && currentLimits.Ok? &&
            (|obligations| > 3 || |recommendations| > 3) ==>
              writes == [] && err == Some(Panic)
    ensures electricalDesc.Ok? && elLimits.Ok? && limitDesc.Ok? && currentLimits.Ok? &&
            |obligations| <= 3 && |recommendations| <= 3 ==>
              var w := WriteTables(electricalDesc.value, elLimits.value, limitDesc.value, currentLimits.value);
              writes == [WrittenEntries(obligations, recommendations, w)] && err == writeOutcome
  {
    if electricalDesc.Err? {
      return [], Some(Replace(electricalDesc.error, MetadataNotAvailable));
    }
    if elLimits.Err? {
      return [], Some(Replace(elLimits.error, MetadataNotAvailable));
    }
    if limitDesc.Err? {
      return [], Some(limitDesc.error);
    }
    if currentLimits.Err? {
      return [], Some(currentLimits.error);
    }
    var w := WriteTables(electricalDesc.value, elLimits.value, limitDesc.value, currentLimits.value);

    var limitData: seq<LimitData> := [];
    var scopeTypes := 0;
    while scopeTypes < 2
      invariant 0 <= scopeTypes <= 2
      invariant scopeTypes == 0 ==> limitData == []
      invariant scopeTypes >= 1 ==> |obligations| <= 3
      invariant scopeTypes == 1 ==> limitData == PassEntries(obligations, w)
      invariant scopeTypes == 2 ==> |recommendations| <= 3 && limitData == WrittenEntries(obligations, recommendations, w)
    {
      var currentsPerPhase := obligations;
      if scopeTypes == 1 {
        currentsPerPhase := recommendations;
      }
      var entries, panicked := WritePass(currentsPerPhase, w);
      if panicked {
        return [], Some(Panic);
      }
      limitData := limitData + entries;
      scopeTypes := scopeTypes + 1;
    }
    return [limitData], writeOutcome;
  }

  // ---------------------------------------------------------------------------
  // Support predicates and scalar readers
  // ---------------------------------------------------------------------------

  datatype CommunicationStandard = StandardUnknown | Standard(name: string)

  /** Not supported unless the configuration descriptions carry the
      communication-standard key; then the configured standard. */
  function EVCommunicationStandard(keyNameSupport: Result<bool>, standard: Result<string>): (r: Answer<CommunicationStandard>)
    ensures r.err.None? <==> keyNameSupport == Ok(true) && standard.Ok?
    ensures r.err.None? ==> r.value == Standard(standard.value)
    ensures r.err.Some? ==> r.value == StandardUnknown
    ensures keyNameSupport.Err? ==> r.err == Some(keyNameSupport.error)
    ensures keyNameSupport == Ok(false) ==> r.err == Some(NotSupported)
    ensures keyNameSupport == Ok(true) && standard.Err? ==> r.err == Some(standard.error)
  {
    if keyNameSupport.Err? then Answer(StandardUnknown, Some(keyNameSupport.error))
    else if !keyNameSupport.value then Answer(StandardUnknown, Some(NotSupported))
    else if standard.Err? then Answer(StandardUnknown, Some(standard.error))
    else Answer(Standard(standard.value), None)
  }

  /** Self-consumption optimisation: false without error when the EV does not
      advertise the use case; otherwise the answer of the recommendation-
      category check on the limit descriptions. `evLookup` is the error of
      finding the EV entity, if any. */
  function EVOptimizationOfSelfConsumptionSupported(
    evLookup: Option<Error>, useCaseAdvertised: bool, recommendationSupport: Result<bool>): (r: Answer<bool>)
    ensures r.value <==> evLookup.None? && useCaseAdvertised && recommendationSupport == Ok(true)
    ensures evLookup.Some? ==> r.err == evLookup
    ensures evLookup.None? && !useCaseAdvertised ==> r.err.None?
    ensures evLookup.None? && useCaseAdvertised ==>
              r.err == (if recommendationSupport.Err? then Some(recommendationSupport.error) else None)
  {
    if evLookup.Some? then Answer(false, evLookup)
    else if !useCaseAdvertised then Answer(false, None)
    else if recommendationSupport.Err? then Answer(false, Some(recommendationSupport.error))
    else Answer(recommendationSupport.value, None)
  }

  /** A measurement-description row. */
  datatype MeasurementDescription = MeasurementDescription(measurementId: Option<nat>, scopeType: Option<Scope>)

  /** SoC support: false without error when the use case is not advertised;
      false with an error when the SoC-scoped descriptions are missing or
      empty; true only when at least one exists. */
  function EVSoCSupported(evLookup: Option<Error>, useCaseAdvertised: bool,
                          socDescriptions: Result<seq<MeasurementDescription>>): (r: Answer<bool>)
    ensures r.value <==> evLookup.None? && useCaseAdvertised && socDescriptions.Ok? && |socDescriptions.value| > 0
    ensures r.value ==> r.err.None?
    ensures evLookup.Some? ==> r.err == evLookup
    ensures evLookup.None? && !useCaseAdvertised ==> r == Answer(false, None)
    ensures evLookup.None? && useCaseAdvertised && socDescriptions.Err? ==> r == Answer(false, Some(socDescriptions.error))
    ensures evLookup.None? && useCaseAdvertised && socDescriptions == Ok([]) ==> r == Answer(false, Some(DataNotAvailable))
  {
    if evLookup.Some? then Answer(false, evLookup)
    else if !useCaseAdvertised then Answer(false, None)
    else if socDescriptions.Err? then Answer(false, Some(socDescriptions.error))
    else if |socDescriptions.value| == 0 then Answer(false, Some(DataNotAvailable))
    else Answer(true, None)
  }

  /** The SoC: 0.0 with an error unless SoC support answered true; NotSupported
      when it answered false without error; otherwise exactly what the SoC
      getter returned. */
  function EVSoC(evLookup: Option<Error>, useCaseAdvertised: bool,
                 socDescriptions: Result<seq<MeasurementDescription>>, soc: Answer<real>): (r: Answer<real>)
    ensures var support := EVSoCSupported(evLookup, useCaseAdvertised, socDescriptions);
            && (support.err.Some? ==> r == Answer(0.0, support.err))
            && (support == Answer(false, None) ==> r == Answer(0.0, Some(NotSupported)))
            && (support == Answer(true, None) ==> r == soc)
            && (r.err.None? <==> support == Answer(true, None) && soc.err.None?)
  {
    var support := EVSoCSupported(evLookup, useCaseAdvertised, socDescriptions);
    if support.err.Some? then Answer(0.0, support.err)
    else if !support.value then Answer(0.0, Some(NotSupported))
    else soc
  }

  /** The SoC fixture's stages: nothing, then the use case, then a SoC-scoped
      description with no measurement yet, then the value 80. */
  lemma EVSoCFixtureStages(d: MeasurementDescription)
    requires d.scopeType == Some(StateOfCharge)
    ensures EVSoC(None, false, Ok([]), Answer(0.0, Some(DataNotAvailable))) == Answer(0.0, Some(NotSupported))
    ensures EVSoC(None, true, Ok([]), Answer(0.0, Some(DataNotAvailable))) == Answer(0.0, Some(DataNotAvailable))
    ensures EVSoC(None, true, Ok([d]), Answer(0.0, Some(DataNotAvailable))) == Answer(0.0, Some(DataNotAvailable))
    ensures EVSoC(None, true, Ok([d]), Answer(80.0, None)) == Answer(80.0, None)
  {
  }

  /** Coordinated charging: true exactly when the EV entity is found and
      advertises the use case; never a data error. */
  function EVCoordinatedChargingSupported(evLookup: Option<Error>, useCaseAdvertised: bool): (r: Answer<bool>)
    ensures r.value <==> evLookup.None? && useCaseAdvertised
    ensures r.err == evLookup
  {
    if evLookup.Some? then Answer(false, evLookup)
    else if !useCaseAdvertised then Answer(false, None)
    else Answer(true, None)
  }
}
