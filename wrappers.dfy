/** Option and Result types shared by every module of the model. */
module Wrappers {

  datatype Option<+T> = None | Some(value: T)

  datatype Result<+R, +E> = Success(value: R) | Failure(error: E)

  /** An HTTP error as FastAPI raises it: a status code and a detail message. */
  datatype HttpError = HttpError(status: nat, detail: string)
}
