/** What the proxy exchanges with its HTTP client library: the client's
    configuration and lifecycle state, the request it sends, the response or
    the exception it gets back. The library itself is not modelled. */
module Transport {
  import opened Wrappers

  type Byte = b: int | 0 <= b < 256

  /** One piece of the response body, as `aiter_bytes` yields it. */
  type Chunk = seq<Byte>

  /** How the body iteration ends after its last chunk. */
  datatype Tail = Exhausted | Fails(message: string)

  /** The upstream body as the client library delivers it: chunks, then the end
      or a read error. */
  datatype Source = Source(chunks: seq<Chunk>, tail: Tail)

  /** The upstream answer. `headers` is the client library's merged view of the
      header fields, which is what `headers.items()` and `headers.get` see: each
      name once, in lower case, with the values of repeated fields joined by
      `", "` into one. */
  datatype UpstreamResponse = UpstreamResponse(
    statusCode: int,
    headers: seq<(string, string)>,
    body: Source)

  /** The request handed to `client.request`; an absent content means no body. */
  datatype OutboundRequest = OutboundRequest(
    verb: string,
    url: string,
    headers: map<string, string>,
    content: Option<seq<Byte>>)

  /** The library exception classes the forwarder distinguishes. In the library a
      timeout or a connect error is also a request error, and a connect timeout is
      a timeout, not a connect error. */
  datatype ErrorClass = TimeoutError | ConnectError | RequestError

  /** A raised exception: the library classes it is an instance of (none for any
      other exception) and its message, `str(e)`. */
  datatype Fault = Fault(classes: set<ErrorClass>, message: string)

  /** What one call of `client.request` does. */
  datatype TransportResult = Delivered(response: UpstreamResponse) | Raised(fault: Fault)

  /** The settings `initialize` gives the client. Times are in seconds. */
  datatype ClientConfig = ClientConfig(
    connectTimeout: int,
    readTimeout: int,
    writeTimeout: int,
    poolTimeout: int,
    maxKeepaliveConnections: int,
    maxConnections: int,
    followRedirects: bool,
    verify: bool,
    http2: bool)

  /** `self.client`: never created, open, or closed by `aclose`. */
  datatype ClientState = NoClient | Open(config: ClientConfig) | Closed(config: ClientConfig)
}
