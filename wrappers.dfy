/** Optional values and results with an error, for the daemon's optional fields and
    for the exceptions that abort a report. */
module Wrappers {

  datatype Option<+T> = None | Some(value: T)

  datatype Result<+R, +E> = Success(value: R) | Failure(error: E)
}
