/** Success-or-failure values, the shape of Swift's `Result<Success, Failure>`
    that the task service hands to each completion handler. */
module Results {

  datatype Option<+T> = None | Some(value: T)

  datatype Result<+T, +E> = Success(value: T) | Failure(error: E)
}
