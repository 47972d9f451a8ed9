/** `ProxyService`: the shared client's lifecycle and `proxy_request`, which puts
    the URL builder, the header filter, the forwarder and the relay together. */
module Service {
  import opened Wrappers
  import opened Pairs
  import opened TargetUrl
  import opened HeaderFilter
  import opened Exceptions
  import opened Transport
  import opened Forwarder
  import opened ErrorHandler

  /** The settings the core reads. */
  datatype Settings = Settings(targetUrl: string, requestTimeout: int, sslVerify: bool, proxyBufferSize: int)

  /** The values used when the environment sets nothing. */
  const DefaultSettings := Settings("https://ai.megallm.io", 300, true, 8192)

  /** An inbound request as the framework presents it: the header and query items
      in arrival order, the body, and the client's address when the server knows it. */
  datatype InboundRequest = InboundRequest(
    verb: string,
    urlPath: string,
    scheme: string,
    queryParams: seq<(string, string)>,
    headers: seq<(string, string)>,
    body: seq<Byte>,
    clientHost: Option<string>)

  /** The `StreamingResponse` `proxy_request` returns; its content is the relay over
      `body`, which has not started yet. */
  datatype StreamingResponse = StreamingResponse(
    statusCode: int,
    headers: map<string, string>,
    mediaType: Option<string>,
    body: Source)

  /** The request `proxy_request` hands to the forwarder. */
  function PreparedRequest(settings: Settings, request: InboundRequest, path: string, host: string): OutboundRequest
  {
    OutboundRequest(
      request.verb,
      BuildTargetUrl(settings.targetUrl, path, CollapseQuery(request.queryParams)),
      OutboundHeaders(request.headers, host, request.scheme),
      RequestContent(request.body))
  }

  /** What `proxy_request` does, as a value: `request.client.host` fails when the
      server gave no client address; otherwise the prepared request is forwarded and
      the upstream response becomes a streaming response. */
  function ProxyOutcome(
    settings: Settings, client: ClientState, request: InboundRequest, path: string,
    transport: OutboundRequest -> TransportResult): (r: Downstream<StreamingResponse>)
    ensures r.RaisedOther? <==> request.clientHost.None?
    ensures r.Returned? <==>
      (request.clientHost.Some? && client.Open?
        && transport(PreparedRequest(settings, request, path, request.clientHost.value)).Delivered?)
    ensures r.RaisedProxy? ==> r.exception.statusCode == 502 || r.exception.statusCode == 504
  {
    match request.clientHost
    case None => RaisedOther("'NoneType' object has no attribute 'host'")
    case Some(host) =>
      match Forward(client, settings.requestTimeout, PreparedRequest(settings, request, path, host), transport)
      case Failure(e) => RaisedProxy(e)
      case Response(up) =>
        Returned(StreamingResponse(up.statusCode, ResponseHeaders(up.headers), HeaderGet(up.headers, "content-type"), up.body))
  }

  /** A forwarding failure reaches the client as a JSON error, never as a streamed
      body: a timeout as 504, any other failure as 502, and a call made without an
      open client as 502 "Internal proxy error". */
  lemma ForwardingFailuresEndAsErrors(
    settings: Settings, client: ClientState, request: InboundRequest, path: string,
    transport: OutboundRequest -> TransportResult)
    requires request.clientHost.Some?
    ensures var sent := transport(PreparedRequest(settings, request, path, request.clientHost.value));
      var h := Dispatch(request.urlPath, ProxyOutcome(settings, client, request, path, transport));
      && (client.Open? && sent.Raised? && TimeoutError in sent.fault.classes ==> h.JsonError? && h.status == 504)
      && (client.Open? && sent.Raised? && TimeoutError !in sent.fault.classes ==> h.JsonError? && h.status == 502)
      && (client.Open? && sent.Raised? && ConnectError in sent.fault.classes && TimeoutError !in sent.fault.classes ==>
            h == JsonError(502, ErrorBody("Unable to connect to target server", 502, request.urlPath)))
      && (!client.Open? ==> h == JsonError(502, ErrorBody("Internal proxy error", 502, request.urlPath)))
  {
    var out := PreparedRequest(settings, request, path, request.clientHost.value);
    if client.Open? && transport(out).Raised? {
      ClassifyOutcomes(transport(out).fault, settings.requestTimeout);
    }
  }

  /** A delivered upstream response is relayed with its own status, its filtered
      headers plus the proxy marker, its content type and its body. */
  lemma SuccessRelaysUpstream(
    settings: Settings, client: ClientState, request: InboundRequest, path: string,
    transport: OutboundRequest -> TransportResult, host: string, up: UpstreamResponse)
    requires request.clientHost == Some(host) && client.Open?
    requires transport(PreparedRequest(settings, request, path, host)) == Delivered(up)
    ensures var h := Dispatch(request.urlPath, ProxyOutcome(settings, client, request, path, transport));
      && h.Passed?
      && h.response.statusCode == up.statusCode
      && h.response.headers == ResponseHeaders(up.headers)
      && h.response.mediaType == HeaderGet(up.headers, "content-type")
      && h.response.body == up.body
  {
  }

  /** Without a client address the header step fails with an ordinary exception,
      which the middleware turns into 500. */
  lemma MissingClientAddressEndsAs500(
    settings: Settings, client: ClientState, request: InboundRequest, path: string,
    transport: OutboundRequest -> TransportResult)
    requires request.clientHost.None?
    ensures Dispatch(request.urlPath, ProxyOutcome(settings, client, request, path, transport))
      == JsonError(500, ErrorBody("Internal server error", 500, request.urlPath))
  {
  }

  class ProxyService {
    const settings: Settings
    /** `self.client`. */
    var client: ClientState
    /** How many times `client.aclose()` has run. */
    var clientCloses: nat

    constructor (settings: Settings)
      ensures this.settings == settings && client == NoClient && clientCloses == 0
    {
      this.settings := settings;
      client := NoClient;
      clientCloses := 0;
    }

    /** `initialize`: a new open client with fixed pool limits and timeouts, read and
        write timeouts from the settings, redirects off. A client that was already
        there is replaced without being closed. */
    method Initialize()
      modifies this
      ensures client.Open? && clientCloses == old(clientCloses)
      ensures client.config.connectTimeout == 10 && client.config.poolTimeout == 10
      ensures client.config.readTimeout == settings.requestTimeout
      ensures client.config.writeTimeout == settings.requestTimeout
      ensures client.config.maxKeepaliveConnections == 20 && client.config.maxConnections == 100
      ensures !client.config.followRedirects && client.config.http2
      ensures client.config.verify == settings.sslVerify
    {
      client := Open(ClientConfig(
        connectTimeout := 10,
        readTimeout := settings.requestTimeout,
        writeTimeout := settings.requestTimeout,
        poolTimeout := 10,
        maxKeepaliveConnections := 20,
        maxConnections := 100,
        followRedirects := false,
        verify := settings.sslVerify,
        http2 := true));
    }

    /** `close`: nothing at all when no client was ever created; otherwise the
        client's `aclose` runs and the client is closed. */
    method Close()
      modifies this
      ensures old(client) == NoClient ==> client == NoClient && clientCloses == old(clientCloses)
      ensures old(client) != NoClient ==> client == Closed(old(client).config) && clientCloses == old(clientCloses) + 1
    {
      if client != NoClient {
        clientCloses := clientCloses + 1;
        client := Closed(client.config);
      }
    }

    /** `proxy_request`: builds the URL from the collapsed query, prepares the
        headers, forwards, and prepares the response headers. */
    method ProxyRequest(request: InboundRequest, path: string, transport: OutboundRequest -> TransportResult)
      returns (r: Downstream<StreamingResponse>)
      ensures r == ProxyOutcome(settings, client, request, path, transport)
    {
      var query := CollapseQuery(request.queryParams);
      var url := BuildTargetUrl(settings.targetUrl, path, query);
      if request.clientHost.None? {
        return RaisedOther("'NoneType' object has no attribute 'host'");
      }
      var headers := PrepareHeaders(request.headers, request.clientHost.value, request.scheme);
      var out := OutboundRequest(request.verb, url, headers, RequestContent(request.body));
      match Forward(client, settings.requestTimeout, out, transport)
      case Failure(e) =>
        r := RaisedProxy(e);
      case Response(up) =>
        var responseHeaders := PrepareResponseHeaders(up.headers);
        r := Returned(StreamingResponse(up.statusCode, responseHeaders, HeaderGet(up.headers, "content-type"), up.body));
    }
  }
}
