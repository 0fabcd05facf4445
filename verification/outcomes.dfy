/** Python-level failure and optionality, as the mapping engine sees them.

  - `Option<T>` for lookups that may find nothing;
  - `Exc` for the exception kinds that matter to the engine and its orchestrator;
  - `Outcome<T>`, a returned value or a raised exception, usable with `:-`.
 */
module Outcomes {

  datatype Option<+T> = None | Some(value: T)

  /** The exceptions the mapping code raises, catches or lets through.
      `ValidationError` is pydantic's validation error; `PyMapMeValidationError`
      is the uniform mapping error of the current release and
      `PyMapMelValidationError` its spelling in the older release. */
  datatype Exc =
    | AttributeError(msg: string)
    | TypeError(msg: string)
    | ValueError(msg: string)
    | ValidationError(msg: string)
    | PyMapMeValidationError(cause: Exc)
    | PyMapMelValidationError(cause: Exc)
    | OtherError(kind: string, msg: string)  // `kind` names none of the kinds above

  /** A Python call: it returns a value or raises an exception. */
  datatype Outcome<+T> = Ok(value: T) | Raise(exc: Exc) {

    predicate IsFailure() {
      Raise?
    }

    function PropagateFailure<U>(): Outcome<U>
      requires Raise?
    {
      Raise(exc)
    }

    function Extract(): T
      requires Ok?
    {
      value
    }
  }
}
