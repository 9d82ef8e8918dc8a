/** Optional values and value-or-error results shared by the rest of the
    model: Python's `None` or a value, and a return or a raised exception. */
module Wrappers {

  datatype Option<+T> = None | Some(value: T)

  datatype Result<+R, +E> = Success(value: R) | Failure(error: E)
}
