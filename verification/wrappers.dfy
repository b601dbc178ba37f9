/** Option and Result datatypes shared by the other modules. */
module Wrappers {

  /** A value that may be absent: a drawing entity that contributes no chain,
      or a vertex read that raised. */
  datatype Option<+T> = None | Some(value: T)

  /** A computation that either yields a value or stops with an error, as a
      Python function does when it raises. */
  datatype Result<+T, +E> = Success(value: T) | Failure(error: E)
}
