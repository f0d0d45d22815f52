/** Failure-carrying results, standing in for the exceptions the Java records throw. */
module Wrappers {

  datatype Option<+T> = None | Some(value: T)

  datatype Result<+T, +E> = Ok(value: T) | Err(error: E)

  /** The Java exceptions raised by the modelled code. */
  datatype Failure =
    | IndexOutOfBounds           // java.lang.IndexOutOfBoundsException
    | IllegalArgument(message: string)  // java.lang.IllegalArgumentException
}
