/** Option and Result values, the shapes the Rust code uses for optional ids and fallible calls. */
module Wrappers {

  datatype Option<+T> = None | Some(value: T)

  datatype Result<+T, +E> = Success(value: T) | Failure(error: E)
}
