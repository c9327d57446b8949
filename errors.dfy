/**
 * The exceptions FilterPype raises (its own FilterError family from
 * data_fltr_base.py plus the Python built-ins the modelled code lets escape),
 * and the Option/Result wrappers every fallible operation returns instead of
 * raising.
 */
module Errors {

  datatype PyError =
    // FilterPype's own exception classes
    | FilterError
    | FilterAttributeError
    | FilterFactoryError
    | FilterNameError
    | FilterRoutingError
    | FilterLogicError
    | PipelineConfigError
    | PipelineRecursionError
    | MessageError
    | DataError
    // Python built-ins raised by the modelled code
    | SyntaxError
    | ValueError
    | KeyError
    | TypeError
    | IndexError
    | AttributeError
    | NameError
    | AssertionError
    | NotImplementedError

  /** The exceptions that derive from FilterError (`except FilterError` catches these). */
  predicate IsFilterError(e: PyError)
  {
    e.FilterError? || e.FilterAttributeError? || e.FilterFactoryError? || e.FilterNameError? ||
    e.FilterRoutingError? || e.FilterLogicError? || e.PipelineConfigError? || e.PipelineRecursionError?
  }

  datatype Option<T> = None | Some(value: T)

  datatype Result<T> = Ok(value: T) | Err(error: PyError)
  {
    predicate IsOk() { this.Ok? }
  }
}
