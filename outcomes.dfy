/** Optional values, the plant's error taxonomy and a result type carrying it.
    Each error constructor names the place in the engine that raises it. */
module Outcomes {

  datatype Option<T> = None | Some(value: T)

  datatype Error =
    // plant construction and the two passes
    | UnknownLink(name: string)         // a From entry names an undeclared node
    | UnknownDepot                      // setup() given a request for a name that is not a depot
    | DeadEnd                           // a sweep processed no node
    | NoDepositRequest(deposit: string) // a deposit left without an output rate after setup()
    // operations on values Python cannot combine
    | NoneOperand                       // a None used as a number, a dict or a list (TypeError / AttributeError)
    | MissingKey                        // a dict lookup without the key (KeyError)
    | ZeroDivision                      // a division by zero (ZeroDivisionError)
    | MessageFormat                     // a message with more placeholders than arguments (IndexError)
    // resources
    | UnknownKind(kind: string)         // the resource registry has no such kind
    | NoDensity                         // SOLID/LIQUID phase without a density entry
    | ZeroPressure
    | ZeroMolarMass
    | NotGas                            // ideal-gas law applied outside the GAS phase
    | GasModel                          // the gas-phase conditioning model refused the resource
    // processes
    | MissingInput(kind: string)
    | InputWrongPhase(kind: string)
    | RequestWrongPhase
    | RateExceeded
    | BelowAmbient                      // conditioning towards a target below Mars ambient
    // boundary nodes
    | DepositUnknownKind
    | NoOutputRate
    | UnexpectedInputs
    | NoRequestMass
    | UnexpectedRequest

  datatype Result<T> = Ok(value: T) | Err(error: Error)

  /** An implementation result agrees with a specification result when both
      succeed with the same value or both fail. (Which exception a Python dict
      loop raises first, when several entries would each raise, depends on the
      dict's insertion order, which pools do not record.) */
  predicate Agrees<T(==)>(actual: Result<T>, spec: Result<T>) {
    actual.Ok? == spec.Ok? && (actual.Ok? ==> actual.value == spec.value)
  }
}
