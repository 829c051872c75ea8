/** Values shared by every part of the ordering backend: optional values and
    the HTTP outcome of a request handler. */
module Common {

  datatype Option<+T> = None | Some(value: T)

  /** The HTTP status codes the handlers answer with. */
  datatype Status =
    | Ok          // 200
    | Created     // 201
    | BadRequest  // 400
    | Forbidden   // 403
    | NotFound    // 404

  /** What a handler answers: a payload with a success status, or an error
      status with the short message of the response's "detail" field. */
  datatype Outcome<+T> =
    | Success(status: Status, value: T)
    | Failure(status: Status, detail: string)
}
