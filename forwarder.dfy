/** The forwarder: sends the prepared request through the shared client and
    turns every failure into a typed proxy exception. */
module Forwarder {
  import opened Wrappers
  import opened Text
  import opened Exceptions
  import opened Transport

  /** The outcome of `_forward_request`: the upstream response, or the proxy
      exception it raises instead. */
  datatype Forwarded = Response(upstream: UpstreamResponse) | Failure(exception: ProxyException)

  /** `content=body if body else None`: an empty body is sent as no body, and a
      receiver reading no body as the empty body sees exactly the inbound bytes. */
  function RequestContent(body: seq<Byte>): (c: Option<seq<Byte>>)
    ensures c.None? <==> body == []
    ensures c.GetOr([]) == body
  {
    if body != [] then Some(body) else None
  }

  /** The `except` clauses of `_forward_request`, tried in order. */
  function Classify(fault: Fault, requestTimeout: int): (e: ProxyException)
    ensures e.cls == (if TimeoutError in fault.classes then Timeout else TargetServer)
  {
    if TimeoutError in fault.classes then
      Raise(Timeout, Some("Request timed out after " + IntToDecimal(requestTimeout) + "s"))
    else if ConnectError in fault.classes then
      Raise(TargetServer, Some("Unable to connect to target server"))
    else if RequestError in fault.classes then
      Raise(TargetServer, Some("Request failed: " + fault.message))
    else
      Raise(TargetServer, Some("Internal proxy error"))
  }

  /** What each kind of failure becomes. A timeout is checked first, so a fault that
      is both a timeout and a connect error is a timeout. */
  lemma ClassifyOutcomes(fault: Fault, requestTimeout: int)
    ensures var e := Classify(fault, requestTimeout);
      && (TimeoutError in fault.classes ==>
            e.statusCode == 504 && e.detail == "Request timed out after " + IntToDecimal(requestTimeout) + "s")
      && (TimeoutError !in fault.classes && ConnectError in fault.classes ==>
            e.statusCode == 502 && e.detail == "Unable to connect to target server")
      && (TimeoutError !in fault.classes && ConnectError !in fault.classes && RequestError in fault.classes ==>
            e.statusCode == 502 && e.detail == "Request failed: " + fault.message)
      && (fault.classes == {} ==> e.statusCode == 502 && e.detail == "Internal proxy error")
  {
  }

  /** `_forward_request`. The call goes through `self.client`: with no client the
      attribute access fails and with a closed client the library refuses to
      send; both are ordinary exceptions and end as "Internal proxy error". */
  function Forward(
    client: ClientState, requestTimeout: int, request: OutboundRequest,
    transport: OutboundRequest -> TransportResult): (r: Forwarded)
    ensures r.Failure? ==> r.exception.statusCode == 502 || r.exception.statusCode == 504
    ensures r.Failure? && r.exception.statusCode == 504 ==>
      client.Open? && transport(request).Raised? && TimeoutError in transport(request).fault.classes
    ensures r.Response? <==> client.Open? && transport(request).Delivered?
    ensures r.Response? ==> r.upstream == transport(request).response
  {
    if !client.Open? then Failure(Raise(TargetServer, Some("Internal proxy error")))
    else
      match transport(request)
      case Delivered(resp) => Response(resp)
      case Raised(fault) => Failure(Classify(fault, requestTimeout))
  }
}
