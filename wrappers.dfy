/** The outcome of an operation that can fail: Go's `(value, error)` pair. */
module Wrappers {

  datatype Result<+T, +E> = Success(value: T) | Failure(error: E)
}
