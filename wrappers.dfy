// Option and Result values used where the Kotlin code has nullable values,
// `Result<T>` returns or caught exceptions.
module Wrappers {
  datatype Option<T> = None | Some(value: T)

  datatype Result<T> = Success(value: T) | Failure(message: string)
}
