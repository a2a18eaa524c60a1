/** Failure-carrying values shared by every module of the model. */
module Wrappers {

  datatype Option<+T> = None | Some(value: T)

  datatype Result<+R, +E> = Success(value: R) | Failure(error: E)

  /** The outcome of one HTTP request made with axios: the response body, or a
      rejected promise (network error or non-2xx status). */
  datatype HttpOutcome<+T> = Ok(body: T) | Failed
}
