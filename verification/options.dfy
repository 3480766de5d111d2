/** Optional values and results shared by the other modules. */
module Options {

  datatype Option<+T> = None | Some(value: T)

  /** The outcome of an operation that may raise: `Failure` carries the
      message of the exception that escaped. */
  datatype Result<+T> = Success(value: T) | Failure(error: string)
}
