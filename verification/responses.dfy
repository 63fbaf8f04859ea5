/**
 * The error responses the route handlers send, with their HTTP status codes.
 * A failed save (schema rule, unique index) and every other thrown error
 * reach the handlers' catch blocks and become 500.
 */
module Responses {
  datatype Error =
    | Validation(fields: seq<string>)
    | BadRequest(message: string)
    | Unauthenticated(message: string)
    | Forbidden
    | NotFound
    | ServerError

  function StatusCode(e: Error): (code: int)
    ensures 400 <= code <= 500
    ensures code == 400 <==> e.Validation? || e.BadRequest?
    ensures code == 401 <==> e.Unauthenticated?
    ensures code == 403 <==> e.Forbidden?
    ensures code == 404 <==> e.NotFound?
    ensures code == 500 <==> e.ServerError?
  {
    match e
    case Validation(_) => 400
    case BadRequest(_) => 400
    case Unauthenticated(_) => 401
    case Forbidden => 403
    case NotFound => 404
    case ServerError => 500
  }
}
