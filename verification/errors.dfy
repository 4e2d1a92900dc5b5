/** The crate-level error type and the result and option shapes used across the framework. */
module Errors {

  /** `UorError`: every kind carries its human-readable message. */
  datatype UorError =
    | General(message: string)
    | ChartError(message: string)
    | ConcurrencyError(message: string)
    | Other(message: string)

  /** `UorResult<T>`: a success value or a `UorError`. */
  datatype UorResult<+T> = Ok(value: T) | Err(error: UorError)

  datatype Option<+T> = None | Some(value: T)
}
