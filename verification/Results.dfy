/** Outcomes shared by the service models. */
module Results {
  datatype Option<+T> = None | Some(value: T)

  /** The exception classes the services throw. */
  datatype Error = NotFound | BadRequest | Conflict | Unauthorized | UniqueViolation

  datatype Result<+T> = Success(value: T) | Failure(error: Error)
}
