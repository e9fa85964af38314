/** The error a request handler of the builder's API raises, and the outcome of a handler. */
module ApiErrors {
  datatype ErrorCode = BadRequest | NotFound | Forbidden | InternalServerError

  datatype ApiError = ApiError(code: ErrorCode, message: string)

  datatype Outcome<+T> = Ok(value: T) | Err(error: ApiError)

  /** The access a user has to a workspace, as the workspace-membership helper reports it. */
  datatype UserMode = Guest | Read | Write
}
