# A verified model of a transparent HTTP reverse proxy's forwarding core

The proxy sends every inbound request on to one fixed upstream origin. It keeps the
method, path, query, headers and body, and streams the upstream's answer back. This
project models the forwarding core of that service in Dafny:

- `ProxyService`: the shared HTTP client's lifecycle, the URL builder, the header
  filters in both directions, the forwarder that turns transport failures into typed
  exceptions, the stream relay, and `proxy_request`, which composes them;
- the exception classes, each with a fixed status code and a default detail;
- the error-handling middleware, which turns exceptions into JSON error responses.

Modules, one per component:

| file | module | models |
|---|---|---|
| text.dfy | `Wrappers`, `Text`, `Pairs` | `None`/value; `str.lower`, `str(int)`, `join`/`split`; insertion-ordered dictionaries and multi-maps |
| urlencode.dfy | `UrlEncode` | `urlencode(..., doseq=True)` with `quote_plus` |
| target_url.dfy | `TargetUrl` | `_build_target_url`, `dict(request.query_params)` |
| header_filter.dfy | `HeaderFilter` | `EXCLUDED_HEADERS`, `_prepare_headers`, `_prepare_response_headers` |
| exceptions.dfy | `Exceptions` | `ProxyException` and its three subclasses |
| transport.dfy | `Transport` | the data exchanged with the HTTP client library |
| forwarder.dfy | `Forwarder` | `_forward_request` |
| relay.dfy | `Relay` | `_stream_response` as a class |
| error_handler.dfy | `ErrorHandler` | `ErrorHandlerMiddleware.dispatch` |
| service.dfy | `Service` | `ProxyService` (`__init__`, `initialize`, `close`, `proxy_request`) |

How the model is built:

- **Pure code as functions.** The URL builder, the exception constructors, failure
  classification and the middleware are functions. Lemmas state their properties.
- **Loops as methods.** The two header loops fill a dictionary step by step, so they
  are methods with loop invariants. Each method is proved equal to a specification
  function, `OutboundHeaders` or `ResponseHeaders`. The lemmas are stated about those
  functions.
- **State as classes.** The relay (`Relay.StreamRelay`) and the service's client
  (`Service.ProxyService`) change in place, so they are classes whose methods state
  their new state.

The rest of the system appears as parameters:

- The HTTP client call is a function parameter `OutboundRequest -> TransportResult`.
  Its result is either a response or a raised exception, together with the library
  classes that exception belongs to.
- The inbound request is a value: its header items and query items in arrival order,
  its body, and the client address (absent when the server does not know it).
- The upstream body is a sequence of chunks that ends normally or with a read error.

Notes on the code as it stands:

- Repeated query names are not forwarded. `dict(request.query_params)`
  (app/services/proxy.py:126) keeps one entry per name, holding the last value, in
  first-appearance order. `TargetUrl.RepeatedParameterKeepsLast` shows `a=1&a=2`
  becoming `a=2`. The query is therefore an ordered list of distinct names, not a
  multi-map, and not an unordered map either, because `urlencode` writes the items in
  dictionary order.
- The detail for a generic request error includes the library's message:
  `Request failed: ` followed by `str(e)` (app/services/proxy.py:99). Only the
  timeout, connect-error and catch-all branches use fixed texts.
- `X-Forwarded-For` and the other added headers are plain dictionary keys with exact
  case. A client's own lower-case `x-forwarded-for` is kept next to the proxy's
  `X-Forwarded-For` (`HeaderFilter.ClientForwardedForKept`). Likewise, the default
  user agent is skipped only when the exact key `user-agent` is present.
- The path is not quoted again. The framework hands over the route's path
  percent-decoded, so a request for `/a%3Fb` reaches the URL builder as `a?b` and
  produces `base/a?b`, a `?` with no parameters (`TargetUrl.DecodedQueryMark`). A
  decoded `#` turns the rest of the path and the query into a fragment
  (`TargetUrl.DecodedFragmentMark`).
- Upstream header fields reach the client through the client library's merged view:
  each lower-case name once, repeated fields joined by `", "`. Two upstream
  `Set-Cookie` fields therefore arrive as one comma-joined field. The model's
  `UpstreamResponse.headers` is that merged view (`HeaderFilter.MergedViewRelayed`).
- `client.request` is called without streaming, so the library reads the whole
  upstream body before it returns. A read error therefore surfaces in the forwarder
  as a request error (502 `Request failed: ...`), and the relay iterates over a body
  that is already in memory.
- `X-Forwarded-Host` is read from the inbound `host` header before filtering. That
  header is then dropped as hop-by-hop.
- The client's `aclose` runs on every `close` once a client exists, including a
  second `close`. The model counts these calls (`clientCloses`); whether a second
  call is harmless is up to the client library.
- Forwarding without an open client still ends in a typed exception. With no client,
  the attribute access fails; with a closed client, the library refuses to send. The
  catch-all clause turns both into 502 `Internal proxy error`.
- `request.client.host` fails when the server gave no client address. That happens in
  `_prepare_headers`, outside the forwarder's `try`, so the middleware answers 500.
- The middleware is modelled as written. The web framework's own handler for HTTP
  exceptions runs inside this middleware, and `ProxyException` derives from the
  framework's HTTP exception. In the running application the status is the same;
  the body comes from that handler, which is not part of this model.

## Model

| member | source | states |
|---|---|---|
| `Text.IntToDecimal` | app/services/proxy.py:93 | `str()` of the configured timeout: a minus sign for a negative number, then decimal digits with no leading zero (except `0` itself) that read back as the number |
| `UrlEncode.QuotePlus` | app/services/proxy.py:54 | quoting uses only unreserved characters, `+` and `%`; it never shortens its input, and the result is empty exactly when the input is |
| `UrlEncode.QuotePlusKeepsUnreserved` | app/services/proxy.py:54 | text made only of unreserved characters is left unchanged |
| `UrlEncode.QueryStringHasNo` | app/services/proxy.py:54 | the encoded query holds no character except encoded ones, `=` and `&` (so no `?` or `#`) |
| `UrlEncode.QueryStringSplits` | app/services/proxy.py:54 | splitting the query string at `&` gives one piece per parameter, in order; splitting a piece at `=` gives the quoted name and the quoted value |
| `UrlEncode.QueryString` | app/services/proxy.py:53-55 | `urlencode` of the dictionary; the query string is empty exactly when there are no parameters |
| `TargetUrl.RStripSlash` | app/services/proxy.py:48 | the result is a prefix of the base that does not end in `/`, and every character removed is a `/` |
| `TargetUrl.LStripSlash` | app/services/proxy.py:49 | the result is a suffix of the path that does not start with `/`, and every character removed is a `/` |
| `Pairs.DictSet` | app/services/proxy.py:126 | dictionary assignment, entry by entry: an existing key keeps its position and takes the new value, other entries are unchanged, a new key is appended, and keys stay distinct |
| `Pairs.DictSetLookup` | app/services/proxy.py:126 | after the assignment the key maps to the new value and every other key maps to what it did before |
| `TargetUrl.CollapseQuery` | app/services/proxy.py:126 | `dict(query_params)` gives a dictionary whose keys are all distinct |
| `TargetUrl.CollapseQueryKeepsLastValue` | app/services/proxy.py:126 | each name maps to the last value the request gave for it; names the request did not give are absent |
| `TargetUrl.CollapseQueryFirstAppearanceOrder` | app/services/proxy.py:126 | the dictionary's keys are the parameter names, each once, in the order they first occur |
| `TargetUrl.RepeatedParameterKeepsLast` | app/services/proxy.py:126 | `a=1&a=2` is forwarded as `a=2` |
| `TargetUrl.JoinPath` | app/services/proxy.py:48-51 | the joined URL starts with the base stripped of trailing slashes and ends with the path stripped of leading slashes |
| `TargetUrl.BuildTargetUrl` | app/services/proxy.py:47-57 | the URL is the joined path, followed by `?` and the encoded query exactly when there are parameters |
| `TargetUrl.SingleSlashAtJoin` | app/services/proxy.py:48-51 | the URL starts with the stripped base, followed by exactly one `/` and the stripped path when that path is non-empty; otherwise the URL is the stripped base alone |
| `TargetUrl.JoinPathIgnoresExtraSlashes` | app/services/proxy.py:48-51 | an extra trailing slash on the base or leading slash on the path does not change the URL |
| `TargetUrl.TargetUrlSplitsAtQueryMark` | app/services/proxy.py:47-57 | assuming no `?` in the base or path, splitting the URL at `?` gives the joined path alone when there are no parameters, otherwise the joined path and the encoded query |
| `TargetUrl.QueryMarkIffParameters` | app/services/proxy.py:53-57 | assuming no `?` in the base or path, the URL contains `?` exactly when the query has parameters |
| `TargetUrl.PathCharacterReachesUrl` | app/services/proxy.py:49-51 | every character of the path other than `/` appears in the URL: the path is not quoted again |
| `TargetUrl.DecodedQueryMark` | app/services/proxy.py:47-57 | for a base such as `https://u` and the decoded path `a?b` with no parameters, the URL is `https://u/a?b`: a `?` but no query |
| `TargetUrl.DecodedFragmentMark` | app/services/proxy.py:47-57 | for a base such as `https://u`, the decoded path `a#b` and `q=1`, the URL is `https://u/a#b?q=1`, where the query falls inside the fragment |
| `Text.Lower` | app/services/proxy.py:63 | `key.lower()`: the same length, each ASCII capital replaced by its small letter, every other character kept |
| `HeaderFilter.ExcludedIgnoresCase` | app/services/proxy.py:12-16 | a name is excluded exactly when its lower-case form is one of the eleven `EXCLUDED_HEADERS`, whatever its letter case |
| `HeaderFilter.FilterHeaders` | app/services/proxy.py:62-64 | the copy loop keeps no header whose lower-case name is in `EXCLUDED_HEADERS` |
| `HeaderFilter.FilterHeadersKeepsLast` | app/services/proxy.py:62-64 | a name is copied exactly when it occurs and is not excluded; its value is the one from the last item with that name |
| `HeaderFilter.HeaderGet` | app/services/proxy.py:68 | `headers.get(name)` finds a value exactly when some item's name matches case-insensitively, and the value is that of the first matching item |
| `HeaderFilter.AddedNamesNotExcluded` | app/services/proxy.py:66-72 | none of the names the filters add is in the excluded set |
| `HeaderFilter.OutboundHeaders` | app/services/proxy.py:59-74 | no outbound request header is hop-by-hop or framing, in any letter case; the four forwarding headers are always set, and a user agent is always present |
| `HeaderFilter.OutboundForwardingMetadata` | app/services/proxy.py:66-69 | `X-Forwarded-For` and `X-Real-IP` are the client address, `X-Forwarded-Proto` is the scheme, and `X-Forwarded-Host` is the value of the first inbound `host` item, or `""` when there is none |
| `HeaderFilter.OutboundUserAgent` | app/services/proxy.py:71-72 | the default `User-Agent` is added exactly when no `user-agent` key survived filtering; otherwise the inbound user agent is kept untouched |
| `HeaderFilter.OutboundCopiesLastInbound` | app/services/proxy.py:62-64 | every other outbound header is present exactly when its name occurs inbound and is not excluded, with the last inbound value |
| `HeaderFilter.ClientForwardedForKept` | app/services/proxy.py:62-66 | a client-sent lower-case `x-forwarded-for` is forwarded alongside the proxy's `X-Forwarded-For` |
| `HeaderFilter.ResponseHeaders` | app/services/proxy.py:104-113 | no response header is excluded, and `X-Proxy-By` is `AI-Proxy-Service` |
| `HeaderFilter.ResponseHeadersKeepUpstream` | app/services/proxy.py:104-113 | over the items the response loop receives: none excluded; `X-Proxy-By` is `AI-Proxy-Service`; every other name is kept exactly when it occurs and is not excluded, with its last value |
| `HeaderFilter.MergedViewRelayed` | app/services/proxy.py:107-109 | over the client library's merged header view (each lower-case name once), every field that is not excluded reaches the client with its merged value |
| `HeaderFilter.PrepareHeaders` | app/services/proxy.py:59-74 | the loop and the additions produce exactly `OutboundHeaders` |
| `HeaderFilter.PrepareResponseHeaders` | app/services/proxy.py:104-113 | the loop and the marker produce exactly `ResponseHeaders` |
| `Exceptions.NewProxyException` | app/core/exceptions.py:4-6 | a proxy exception stores exactly the status code and detail it is given |
| `Exceptions.StatusOf` | app/core/exceptions.py:9-21 | the status each subclass fixes is an error status; it is a client error only for an invalid request and 504 only for a timeout |
| `Exceptions.DefaultDetail` | app/core/exceptions.py:10-20 | each subclass has a non-empty default detail |
| `Exceptions.Raise` | app/core/exceptions.py:9-21 | each subclass constructor yields an exception of its own class |
| `Exceptions.SubclassStatusAndDetail` | app/core/exceptions.py:9-21 | the subclasses carry 502, 504 and 400 whatever the detail; a supplied detail replaces the default; an absent one gives the class's default text |
| `Exceptions.StatusIndependentOfDetail` | app/core/exceptions.py:9-21 | two exceptions of the same class have the same status, whatever their details |
| `Forwarder.RequestContent` | app/services/proxy.py:88 | the request goes with no body exactly when the inbound body is empty, and reading no body as the empty body gives back exactly the inbound bytes |
| `Forwarder.Classify` | app/services/proxy.py:91-102 | a fault becomes a timeout exception exactly when it is a timeout; anything else becomes a target-server exception |
| `Forwarder.ClassifyOutcomes` | app/services/proxy.py:91-102 | clauses in order: timeout gives 504 `Request timed out after {timeout}s` even when also a connect error; connect error gives 502 `Unable to connect to target server`; other request errors give 502 `Request failed: {message}`; any other exception gives 502 `Internal proxy error` |
| `Forwarder.Forward` | app/services/proxy.py:83-102 | every failure is a proxy exception with 502 or 504, so no raw exception escapes; 504 only for a timeout on an open client; the response comes back exactly when the client is open and delivers it, and it is unchanged |
| `Relay.ConcatOfPrefix` | app/services/proxy.py:117-118 | the bytes of the chunks yielded so far are a prefix of the whole body |
| `Relay.StreamRelay.constructor` | app/services/proxy.py:115 | a new relay has not started, has yielded nothing and has released nothing |
| `Relay.StreamRelay.Next` | app/services/proxy.py:115-123 | yields the next upstream chunk in order, with the delivered bytes growing by exactly that chunk. After the last chunk, the `finally` clause releases once, then iteration ends or the read error is re-raised, and the delivered bytes equal the body. At most one release ever happens |
| `Relay.StreamRelay.Abort` | app/services/proxy.py:115-123 | closing a suspended relay releases once; closing a finished one changes nothing; closing one that never started releases nothing |
| `ErrorHandler.Dispatch` | app/middleware/error_handler.py:9-31 | a normal response passes through; an error body always repeats the HTTP status and the request path |
| `ErrorHandler.DispatchOutcomes` | app/middleware/error_handler.py:10-31 | response unchanged; `ProxyException` gives its status and `{error: detail, status_code: status, path}`; any other exception gives 500 `Internal server error` |
| `Service.ProxyOutcome` | app/services/proxy.py:125-149 | `proxy_request` as a value: an ordinary exception exactly when there is no client address; a response exactly when the client is open and the upstream delivers; otherwise a proxy exception with 502 or 504 |
| `Service.ForwardingFailuresEndAsErrors` | app/services/proxy.py:133-138 | through the middleware: an upstream timeout ends as 504, other failures as 502, a connect error as 502 `Unable to connect to target server`, and no open client as 502 `Internal proxy error`. Every one is a JSON error, never a streamed body |
| `Service.SuccessRelaysUpstream` | app/services/proxy.py:140-149 | a delivered response is relayed with the upstream status, the filtered headers, the upstream content type and the upstream body |
| `Service.MissingClientAddressEndsAs500` | app/services/proxy.py:66 | with no client address, the request ends as 500 `Internal server error` |
| `Service.ProxyService.constructor` | app/services/proxy.py:18-20 | a new service has no client |
| `Service.ProxyService.Initialize` | app/services/proxy.py:22-41 | opens a client with connect and pool timeouts of 10 s, read and write timeouts equal to the request timeout, 20 keep-alive and 100 total connections, redirects off, HTTP/2 on and certificate checking from the settings |
| `Service.ProxyService.Close` | app/services/proxy.py:43-45 | does nothing when no client was ever created; otherwise calls the client's `aclose` once and leaves the client closed |
| `Service.ProxyService.ProxyRequest` | app/services/proxy.py:125-149 | the composed handler returns exactly `ProxyOutcome`: collapsed query, built URL, prepared headers, forwarding, then response headers and content type |

## Left out

- `Relay.StreamRelay.Abort`: weaker than "released exactly once on every exit path".
  A Python generator closed before its first pull finishes without running its body,
  so its `finally` clause never runs. The model releases nothing on that path. Every
  relay that has started and finished releases exactly once.
- `TargetUrl.TargetUrlSplitsAtQueryMark`: holds only for a base and path without
  `?`. A decoded path may contain `?` (`TargetUrl.DecodedQueryMark`), and then the
  URL splits at that `?` too.
- `TargetUrl.QueryMarkIffParameters`: holds only for a base and path without `?`. A
  path holding `?` gives a URL with `?` even without parameters
  (`TargetUrl.PathCharacterReachesUrl`).
- `HeaderFilter.FilterHeaders`: `str.lower()` is modelled for ASCII letters only.
  Non-ASCII characters that Python lower-cases into ASCII, such as the Kelvin sign,
  are not folded.
- Asynchronous execution and scheduling: each request is modelled as one sequential
  run.
- The HTTP client library: connection pooling, HTTP/2, TLS, real timeouts, and the
  merging of repeated header fields. The call is a function parameter, and its
  response carries the merged header view.
  `initialize` records only the configured values.
- The `proxy_buffer_size` bound on chunk sizes. It comes from the client library's
  chunking, not from code in this core; chunks are whatever the body source holds.
- Read errors raised after the streaming response has started. The relay reports
  them as a re-raised step (`Fails` tail), and they do not change the status already
  sent. Because `client.request` is called without streaming and buffers the body,
  the code as written cannot reach that path; the model keeps it for a streaming
  client.
- Failures of `request.body()` and of `aclose` itself.
- Logging, request-logging middleware (clock and ids), routing, health endpoints,
  CORS, application wiring and settings loading. `Service.DefaultSettings` records
  the default values. `max_retries` and `retry_backoff_factor` are never read, so
  there is no retry logic to model.
- The live-upstream test file.
