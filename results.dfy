/** Option and Result values for the JavaScript `null`/`undefined` cases and for thrown errors. */
module Results {

  datatype Option<+T> = None | Some(value: T)

  datatype Result<+T, +E> = Success(value: T) | Failure(error: E)
}
