/** The last error handler of the server: turns any error into a status and a JSON body. */
module ErrorHandler {
  import opened Errors

  const ServerError := "Server Error"

  datatype Body = Body(success: bool, error: string)
  datatype Reply = Reply(status: int, body: Body)

  /** An ApiError is sent with its own status and message; anything else as a bare 500. */
  function HandleError(e: Error): (r: Reply)
    ensures !r.body.success
    ensures e.ApiError? ==> r.status == e.statusCode && r.body.error == e.message
    ensures !e.ApiError? ==> r.status == 500 && r.body.error == ServerError
  {
    if e.ApiError? then Reply(e.statusCode, Body(false, e.message))
    else Reply(500, Body(false, ServerError))
  }

  /** Two errors that are not ApiErrors give the same reply, whatever they carry. */
  lemma NoDetailLeaks(e1: Error, e2: Error)
    requires !e1.ApiError? && !e2.ApiError?
    ensures HandleError(e1) == HandleError(e2)
  {
  }

  /** After a handler's catch block, the client sees either the ApiError or the handler's fixed message. */
  lemma ReplyAfterRethrow(e: Error, message: string)
    ensures HandleError(Rethrow(e, message)) ==
              if e.ApiError? then Reply(e.statusCode, Body(false, e.message))
              else Reply(500, Body(false, message))
  {
  }
}
