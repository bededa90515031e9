/** Failure-carrying values shared by every module: a JavaScript `undefined`/`null`
    becomes `None`, a thrown `Error` becomes `Failure(message)`. */
module Common {

  datatype Option<+T> = None | Some(value: T)

  datatype Result<+T, +E> = Success(value: T) | Failure(error: E)

  /** The value of a resolved `Promise<void>`. */
  datatype Unit = Unit
}
