/**
 * Shared result types. The C++ code reports failure by throwing standard
 * exceptions (std::invalid_argument, std::out_of_range, std::runtime_error);
 * the model returns them as values instead.
 */
module Wrappers {
  datatype Option<T> = None | Some(value: T)

  /** The standard exception classes the core throws, with their what() text. */
  datatype Error =
    | InvalidArgument(what: string)
    | OutOfRange(what: string)
    | RuntimeError(what: string)

  datatype Result<T> = Ok(value: T) | Err(error: Error)

  /** The outcome of a void operation that may throw. */
  datatype Outcome = Pass | Fail(error: Error)
}
