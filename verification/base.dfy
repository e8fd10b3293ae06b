/** Failure-carrying wrappers shared by every other module: `Option` for a
    value that may be absent (Python's `None`), `Result` for an operation that
    may raise. */
module Base {

  datatype Option<+T> = None | Some(value: T)

  datatype Result<+R, +E> = Success(value: R) | Failure(error: E)
}
