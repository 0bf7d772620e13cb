/** Optional values and the exceptions the modelled code throws, as values. */
module Wrappers {

  datatype Option<T> = None | Some(value: T)

  /** The .NET exceptions thrown by the modelled code. */
  datatype Error =
    | InvalidOperation(message: string)
    | ArgumentNull(paramName: string)
    | NullReference

  /** The result of an operation that returns a value or throws. */
  datatype Result<T> = Ok(value: T) | Err(error: Error)

  /** The result of an operation that returns nothing or throws. */
  datatype Outcome = Pass | Fail(error: Error)
}
