/** The HTTP outcomes the handlers reply with (status code and message). */
module Http {
  import opened Wrappers

  datatype Status =
    | Ok(message: string)            // 200
    | Created(message: string)       // 201
    | BadRequest(message: string)    // 400
    | Unauthorized(message: string)  // 401
    | NotFound(message: string)      // 404
    | Conflict(message: string)      // 409
    | ServerError(message: string)   // 500
  {
    predicate Success()
    {
      Ok? || Created?
    }
  }

  /** A reply: its status, and the body's payload when there is one. */
  datatype Reply<T> = Reply(status: Status, body: Option<T>)

  /** The reply the auth middleware leaves to a handler that finds no `user_id`. */
  const Unauthenticated := Unauthorized("User not authenticated")
  /** A request body that fails binding or validation (the validator's own message is not modelled). */
  const InvalidRequest := BadRequest("invalid request body")
}
