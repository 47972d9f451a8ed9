/** The error-handling middleware: passes a normal response through and turns a
    raised exception into a JSON error response. */
module ErrorHandler {
  import opened Exceptions

  /** The JSON body `{"error": ..., "status_code": ..., "path": ...}`. */
  datatype ErrorBody = ErrorBody(error: string, statusCode: int, path: string)

  /** What `call_next` does: returns a response, raises a `ProxyException`, or
      raises any other exception (with its message). */
  datatype Downstream<R> = Returned(response: R) | RaisedProxy(exception: ProxyException) | RaisedOther(message: string)

  /** What the middleware hands back: the downstream response itself, or a JSON
      error response with its status and body. */
  datatype Handled<R> = Passed(response: R) | JsonError(status: int, body: ErrorBody)

  /** `ErrorHandlerMiddleware.dispatch`; `path` is `request.url.path`. */
  function Dispatch<R>(path: string, downstream: Downstream<R>): (h: Handled<R>)
    ensures h.Passed? <==> downstream.Returned?
    ensures h.JsonError? ==> h.body.statusCode == h.status && h.body.path == path
  {
    match downstream
    case Returned(response) => Passed(response)
    case RaisedProxy(e) => JsonError(e.statusCode, ErrorBody(e.detail, e.statusCode, path))
    case RaisedOther(_) => JsonError(InternalServerError, ErrorBody("Internal server error", InternalServerError, path))
  }

  /** A normal response comes back unchanged; a `ProxyException` gives its own status
      and detail; anything else gives 500 with a fixed message that does not reveal
      the exception. */
  lemma DispatchOutcomes<R>(path: string, downstream: Downstream<R>)
    ensures downstream.Returned? ==> Dispatch(path, downstream) == Passed(downstream.response)
    ensures downstream.RaisedProxy? ==>
      Dispatch(path, downstream) == JsonError(downstream.exception.statusCode,
        ErrorBody(downstream.exception.detail, downstream.exception.statusCode, path))
    ensures downstream.RaisedOther? ==>
      Dispatch(path, downstream) == JsonError(500, ErrorBody("Internal server error", 500, path))
  {
  }
}
