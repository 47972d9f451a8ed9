/** The proxy's exception classes: each carries an HTTP status code and a detail
    text, and each subclass fixes the status and offers a default detail. */
module Exceptions {
  import opened Wrappers

  const BadRequest := 400
  const InternalServerError := 500
  const BadGateway := 502
  const GatewayTimeout := 504

  /** Which class raised the exception. */
  datatype ExceptionClass = Proxy | TargetServer | Timeout | InvalidRequest

  datatype ProxyException = ProxyException(cls: ExceptionClass, statusCode: int, detail: string)

  /** `ProxyException(status_code, detail)`: both stored exactly as given. */
  function NewProxyException(statusCode: int, detail: string): (e: ProxyException)
    ensures e.statusCode == statusCode && e.detail == detail
  {
    ProxyException(Proxy, statusCode, detail)
  }

  /** The status code each subclass passes to the base constructor: an error
      status, a client error only for an invalid request, 504 only for a timeout. */
  function StatusOf(cls: ExceptionClass): (s: int)
    requires cls != Proxy
    ensures 400 <= s < 600
    ensures s < 500 <==> cls == InvalidRequest
    ensures s == GatewayTimeout <==> cls == Timeout
  {
    match cls
    case TargetServer => BadGateway
    case Timeout => GatewayTimeout
    case InvalidRequest => BadRequest
  }

  /** The default detail of each subclass; never empty. */
  function DefaultDetail(cls: ExceptionClass): (d: string)
    requires cls != Proxy
    ensures d != ""
  {
    match cls
    case TargetServer => "Failed to connect to target server"
    case Timeout => "Request to target server timed out"
    case InvalidRequest => "Invalid request"
  }

  /** A subclass constructor called with `detail` or, when it is absent, with no argument. */
  function Raise(cls: ExceptionClass, detail: Option<string>): (e: ProxyException)
    requires cls != Proxy
    ensures e.cls == cls
  {
    NewProxyException(StatusOf(cls), detail.GetOr(DefaultDetail(cls))).(cls := cls)
  }

  /** `TargetServerException`, `TimeoutException` and `InvalidRequestException` always
      carry 502, 504 and 400, whatever the detail; a supplied detail replaces the
      default and an absent one gives the default. */
  lemma SubclassStatusAndDetail(cls: ExceptionClass, detail: Option<string>)
    requires cls != Proxy
    ensures cls == TargetServer ==> Raise(cls, detail).statusCode == 502
    ensures cls == Timeout ==> Raise(cls, detail).statusCode == 504
    ensures cls == InvalidRequest ==> Raise(cls, detail).statusCode == 400
    ensures detail.Some? ==> Raise(cls, detail).detail == detail.value
    ensures detail.None? && cls == TargetServer ==> Raise(cls, detail).detail == "Failed to connect to target server"
    ensures detail.None? && cls == Timeout ==> Raise(cls, detail).detail == "Request to target server timed out"
    ensures detail.None? && cls == InvalidRequest ==> Raise(cls, detail).detail == "Invalid request"
  {
  }

  /** The detail never changes the status: two exceptions of one class agree on it. */
  lemma StatusIndependentOfDetail(cls: ExceptionClass, d1: Option<string>, d2: Option<string>)
    requires cls != Proxy
    ensures Raise(cls, d1).statusCode == Raise(cls, d2).statusCode
  {
  }
}
