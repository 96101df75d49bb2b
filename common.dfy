/** Vocabulary shared by every part of the model: optional values, typed
    results, the error taxonomy, the phase slots and the measurement scopes. */
module Common {

  /** A Go pointer or map lookup that may be absent. */
  datatype Option<+T> = None | Some(value: T) {
    function GetOr(default: T): T {
      match this
      case Some(v) => v
      case None => default
    }
  }

  /** The failures a read, a lookup or a write can report. */
  datatype Error =
    | DataNotAvailable      // the table was received but the row or value is missing
    | MetadataNotAvailable  // a required description table was never received
    | NotSupported          // the capability is absent at the remote
    | Panic                 // the Go runtime panics: nil pointer dereference, index out of range
    | Remote(code: nat)     // a failure reported verbatim by the protocol stack

  /** A Go `(value, error)` return where the value is meaningless on error. */
  datatype Result<+T> = Ok(value: T) | Err(error: Error)

  /** A Go `(value, error)` return where both halves are observed by callers. */
  datatype Answer<+T> = Answer(value: T, err: Option<Error>)

  /** The effect of `if err != nil { return replacement }`: a panic raised inside the
      callee is not an error value and passes through such a guard unchanged. */
  function Replace(e: Error, replacement: Error): (r: Error)
    ensures r == Panic <==> e == Panic || replacement == Panic
  {
    if e == Panic then Panic else replacement
  }

  /** The three phase slots; every per-phase array is ordered like this. */
  const PhaseMapping: seq<string> := ["a", "b", "c"]

  /** The measurement and limit scopes the core distinguishes. */
  datatype Scope =
    | ACCurrent
    | ACPowerTotal
    | ACVoltage
    | ACFrequency
    | GridFeedIn
    | GridConsumption
    | StateOfCharge
    | Charge
    | OtherScope(name: string)
}
