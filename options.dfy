/** Optional values and results with an error, used for the fields that the
    Workdeck API may leave out and for operations that can fail. */
module Options {

  datatype Option<+T> = None | Some(value: T)

  datatype Result<+R, +E> = Success(value: R) | Failure(error: E)
}
