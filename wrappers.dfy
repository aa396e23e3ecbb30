/** Option and Result: the model's stand-ins for a null `unique_ptr` and for a
    C++ exception thrown out of an operation. */
module Wrappers {

  datatype Option<+T> = None | Some(value: T)

  datatype Result<+T, +E> = Success(value: T) | Failure(error: E)
}
