// The optional value used wherever the Go code uses nil, the zero time or the
// empty string to say "nothing here", and the (value, error) pair.
module Wrappers {
  datatype Option<+T> = None | Some(value: T)

  datatype Result<+T, +E> = Success(value: T) | Failure(error: E)
}
