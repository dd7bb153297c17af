/** Option and Result: the model's stand-ins for C# `out`-parameter lookups and thrown exceptions. */
module Wrappers {

  /** The outcome of a `Try…` lookup: `Some` when the out-parameter was set and `true` returned. */
  datatype Option<+T> = None | Some(value: T)

  /** A builtin's outcome: the value it returns, or the exception it throws. */
  datatype Result<+T, +E> = Success(value: T) | Failure(error: E)
}
