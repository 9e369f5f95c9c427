/** Failure-carrying return values used where the program either has nothing
    to return or would read outside a buffer. */
module Results {

  datatype Option<+T> = None | Some(value: T)

  datatype Result<+T, +E> = Success(value: T) | Failure(error: E)
}
