/**
 * Exceptions thrown by the modelled C# code, carried as values, and the
 * wrapper types used to return them.
 */
module Outcomes {
  /** The .NET exception types the core throws, with the message it gives them. */
  datatype Exception =
    | InvalidOperation(message: string)
    | Argument(message: string, parameter: Option<string>)
    | ArgumentOutOfRange(paramName: string)
    | KeyNotFound(message: string)
    | Validation(failedProperties: seq<string>)
    | InvalidAddress(message: string)
    | NullReference

  /** How a `void` method ended: normally, or by throwing. */
  datatype Outcome = Completed | Threw(exception: Exception)

  /** How a value-returning method ended. */
  datatype Result<T> = Ok(value: T) | Err(exception: Exception)

  /** A C# reference that may be `null`. */
  datatype Option<T> = None | Some(value: T)
}
