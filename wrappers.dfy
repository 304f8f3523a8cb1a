/** Optional values and results with an error, used for the script's
    KeyError / ValueError / server-error exits. */
module Wrappers {

  datatype Option<+T> = None | Some(value: T)

  datatype Result<+T, +E> = Success(value: T) | Failure(error: E)
}
