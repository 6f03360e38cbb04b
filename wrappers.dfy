/** Option and Result: JavaScript's `undefined`, Python's `None` and the
    exceptions of the source become explicit values. */
module Wrappers {

  datatype Option<+T> = None | Some(value: T)

  datatype Result<+R, +E> = Success(value: R) | Failure(error: E)
}
