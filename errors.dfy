/**
 * The errors that can be thrown along a request: the application's own
 * `ApiError` (a status code and a message), the three error classes of
 * the JSON web token library, and anything else (driver or library
 * failures), which the model does not look inside.
 */
module Errors {

  datatype Error =
    | ApiError(statusCode: int, message: string)
    | JsonWebTokenError(message: string)
    | TokenExpiredError(message: string, expiredAt: int)
    | NotBeforeError(message: string, date: int)
    | InternalError(message: string)

  /**
   * `error instanceof jwt.JsonWebTokenError`. In the token library both
   * TokenExpiredError and NotBeforeError are subclasses of
   * JsonWebTokenError, so the test holds for all three.
   */
  predicate IsJsonWebTokenError(e: Error) {
    e.JsonWebTokenError? || e.TokenExpiredError? || e.NotBeforeError?
  }

  /**
   * The catch block shared by the handlers that rethrow their own errors:
   * an ApiError goes through unchanged, anything else becomes a 500 with
   * the handler's fixed message.
   */
  function Rethrow(e: Error, message: string): (r: Error)
    ensures r.ApiError?
    ensures e.ApiError? ==> r == e
    ensures !e.ApiError? ==> r.statusCode == 500 && r.message == message
  {
    if e.ApiError? then e else ApiError(500, message)
  }

  /** An error already converted by one catch block passes any later one unchanged. */
  lemma RethrowIdempotent(e: Error, inner: string, outer: string)
    ensures Rethrow(Rethrow(e, inner), outer) == Rethrow(e, inner)
  {
  }

  /** What a non-ApiError carried is dropped: only the handler's message remains. */
  lemma RethrowForgetsDetail(e1: Error, e2: Error, message: string)
    requires !e1.ApiError? && !e2.ApiError?
    ensures Rethrow(e1, message) == Rethrow(e2, message)
  {
  }
}
