/** The header filter, in both directions: hop-by-hop and framing headers are
    dropped, forwarding metadata is added to the request, a proxy marker to the
    response. A Python `dict` with string keys is a map here: keys compare with
    their exact case, a later assignment to a key replaces the earlier value. */
module HeaderFilter {
  import opened Wrappers
  import opened Text
  import opened Pairs

  /** `EXCLUDED_HEADERS`: the hop-by-hop headers of section 7.6.1 of RFC 9110,
      together with the framing headers the relay re-frames. */
  const Excluded: set<string> := {
    "host", "connection", "keep-alive", "proxy-authenticate",
    "proxy-authorization", "te", "trailers", "transfer-encoding",
    "upgrade", "content-length", "content-encoding"
  }

  const ForwardedFor := "X-Forwarded-For"
  const ForwardedProto := "X-Forwarded-Proto"
  const ForwardedHost := "X-Forwarded-Host"
  const RealIp := "X-Real-IP"
  const UserAgent := "User-Agent"
  const DefaultUserAgent := "AI-Proxy-Service/1.0"
  const ProxyBy := "X-Proxy-By"
  const ProxyMarker := "AI-Proxy-Service"

  /** The four keys the request side always sets. */
  const Injected: set<string> := {ForwardedFor, ForwardedProto, ForwardedHost, RealIp}

  predicate IsExcluded(name: string)
  {
    Lower(name) in Excluded
  }

  /** The copy loop both filters share, as the dictionary it has built after
      the given items: excluded names skipped, later items overwriting earlier ones. */
  function FilterHeaders(items: seq<(string, string)>): (h: map<string, string>)
    ensures forall k :: k in h ==> !IsExcluded(k)
  {
    if items == [] then map[]
    else
      var h := FilterHeaders(items[..|items| - 1]);
      var (k, v) := items[|items| - 1];
      if IsExcluded(k) then h else h[k := v]
  }

  /** What the copy loop keeps, stated against the items directly: a name is kept
      exactly when it is not excluded and occurs, and it keeps its last value. */
  lemma {:induction false} FilterHeadersKeepsLast(items: seq<(string, string)>, k: string)
    ensures k in FilterHeaders(items) <==> !IsExcluded(k) && LastValue(items, k).Some?
    ensures k in FilterHeaders(items) ==> FilterHeaders(items)[k] == LastValue(items, k).value
  {
    if items != [] {
      FilterHeadersKeepsLast(items[..|items| - 1], k);
    }
  }

  /** `request.headers.get(name, "")` and `response.headers.get(name)`: the value of
      the first item whose name matches case-insensitively. */
  function HeaderGet(items: seq<(string, string)>, name: string): (r: Option<string>)
    ensures r.Some? <==> exists i :: 0 <= i < |items| && Lower(items[i].0) == name
    ensures r.Some? ==>
      exists i :: 0 <= i < |items| && Lower(items[i].0) == name && items[i].1 == r.value
        && forall j :: 0 <= j < i ==> Lower(items[j].0) != name
  {
    if items == [] then None
    else if Lower(items[0].0) == name then Some(items[0].1)
    else
      var r := HeaderGet(items[1..], name);
      assert forall i :: 1 <= i < |items| ==> items[i] == items[1..][i - 1];
      if r.Some? then
        var i :| 0 <= i < |items| - 1 && Lower(items[1..][i].0) == name && items[1..][i].1 == r.value
          && forall j :: 0 <= j < i ==> Lower(items[1..][j].0) != name;
        assert forall j :: 0 <= j < i + 1 ==> Lower(items[j].0) != name;
        r
      else r
  }

  /** The request headers `_prepare_headers` returns, as a value: no excluded name
      in any letter case, the four forwarding keys, and a user agent. */
  function OutboundHeaders(items: seq<(string, string)>, clientHost: string, scheme: string): (out: map<string, string>)
    ensures forall k :: k in out ==> !IsExcluded(k)
    ensures Injected <= out.Keys
    ensures UserAgent in out || "user-agent" in out
  {
    AddedNamesNotExcluded();
    var h := FilterHeaders(items)[ForwardedFor := clientHost][ForwardedProto := scheme]
      [ForwardedHost := HeaderGet(items, "host").GetOr("")][RealIp := clientHost];
    if "user-agent" in h then h else h[UserAgent := DefaultUserAgent]
  }

  /** The response headers `_prepare_response_headers` returns, as a value: no
      excluded name, and the proxy marker. */
  function ResponseHeaders(items: seq<(string, string)>): (out: map<string, string>)
    ensures forall k :: k in out ==> !IsExcluded(k)
    ensures ProxyBy in out && out[ProxyBy] == ProxyMarker
  {
    AddedNamesNotExcluded();
    FilterHeaders(items)[ProxyBy := ProxyMarker]
  }

  /** Exclusion ignores letter case: a name and its lower-case form are excluded
      together, as the filter compares `key.lower()`. */
  lemma ExcludedIgnoresCase(name: string)
    ensures IsExcluded(name) <==> IsExcluded(Lower(name))
    ensures IsExcluded(name) <==> Lower(name) in Excluded
  {
    assert Lower(Lower(name)) == Lower(name);
  }

  /** The names the filter adds are themselves never excluded. */
  lemma AddedNamesNotExcluded()
    ensures !IsExcluded(ForwardedFor) && !IsExcluded(ForwardedProto) && !IsExcluded(ForwardedHost)
    ensures !IsExcluded(RealIp) && !IsExcluded(UserAgent) && !IsExcluded(ProxyBy)
  {
    assert Lower(ForwardedFor)[0] == 'x' && Lower(ForwardedProto)[0] == 'x';
    assert Lower(ForwardedHost)[0] == 'x' && Lower(RealIp)[0] == 'x' && Lower(ProxyBy)[0] == 'x';
    assert Lower(UserAgent)[0] == 'u' && |Lower(UserAgent)| == 10;
  }

  /** The forwarding metadata: client address twice, the scheme, and the value of
      the first inbound `host` item, or the empty string when there is none. */
  lemma OutboundForwardingMetadata(items: seq<(string, string)>, clientHost: string, scheme: string)
    ensures var out := OutboundHeaders(items, clientHost, scheme);
      && ForwardedFor in out && out[ForwardedFor] == clientHost
      && RealIp in out && out[RealIp] == clientHost
      && ForwardedProto in out && out[ForwardedProto] == scheme
      && ForwardedHost in out
      && ((forall i :: 0 <= i < |items| ==> Lower(items[i].0) != "host") ==> out[ForwardedHost] == "")
      && ((exists i :: 0 <= i < |items| && Lower(items[i].0) == "host") ==>
            exists i :: 0 <= i < |items| && Lower(items[i].0) == "host" && items[i].1 == out[ForwardedHost]
              && forall j :: 0 <= j < i ==> Lower(items[j].0) != "host")
  {
  }

  /** The default user agent is added exactly when the filtered headers have no
      `user-agent` key; an inbound `user-agent` is then kept untouched. */
  lemma OutboundUserAgent(items: seq<(string, string)>, clientHost: string, scheme: string)
    ensures var out, f := OutboundHeaders(items, clientHost, scheme), FilterHeaders(items);
      && ("user-agent" !in f ==> UserAgent in out && out[UserAgent] == DefaultUserAgent)
      && ("user-agent" in f ==> "user-agent" in out && out["user-agent"] == f["user-agent"])
      && ("user-agent" in f ==> (UserAgent in out <==> UserAgent in f))
      && ("user-agent" in f && UserAgent in f ==> out[UserAgent] == f[UserAgent])
  {
  }

  /** Every other outbound header comes from the inbound items: present exactly when
      its name occurs and is not excluded, with the last value given for it. */
  lemma OutboundCopiesLastInbound(items: seq<(string, string)>, clientHost: string, scheme: string, k: string)
    requires k !in Injected && k != UserAgent
    ensures var out := OutboundHeaders(items, clientHost, scheme);
      && (k in out <==> !IsExcluded(k) && LastValue(items, k).Some?)
      && (k in out ==> out[k] == LastValue(items, k).value)
  {
    FilterHeadersKeepsLast(items, k);
  }

  /** Header names compare with their exact case, so a client's own lower-case
      `x-forwarded-for` is forwarded next to the one the proxy sets. */
  lemma ClientForwardedForKept(clientHost: string, scheme: string, claimed: string)
    ensures var out := OutboundHeaders([("x-forwarded-for", claimed)], clientHost, scheme);
      && "x-forwarded-for" in out && out["x-forwarded-for"] == claimed
      && out[ForwardedFor] == clientHost
  {
    assert Lower("x-forwarded-for")[0] == 'x';
    OutboundCopiesLastInbound([("x-forwarded-for", claimed)], clientHost, scheme, "x-forwarded-for");
  }

  /** The response side: no excluded header, the proxy marker, and every other
      upstream header with its last value. */
  lemma ResponseHeadersKeepUpstream(items: seq<(string, string)>, k: string)
    ensures var out := ResponseHeaders(items);
      && (forall n :: n in out ==> !IsExcluded(n))
      && ProxyBy in out && out[ProxyBy] == ProxyMarker
      && (k != ProxyBy ==> (k in out <==> !IsExcluded(k) && LastValue(items, k).Some?))
      && (k != ProxyBy && k in out ==> out[k] == LastValue(items, k).value)
  {
    AddedNamesNotExcluded();
    FilterHeadersKeepsLast(items, k);
  }

  /** The items the client library hands the response filter are its merged view
      of the upstream header fields: each lower-case name once, repeated fields
      joined into one value. Over such items every field that is not excluded
      reaches the client under its own name with its merged value. */
  lemma MergedViewRelayed(items: seq<(string, string)>)
    requires DistinctKeys(items)
    requires forall i :: 0 <= i < |items| ==> Lower(items[i].0) == items[i].0
    ensures forall i :: 0 <= i < |items| && !IsExcluded(items[i].0) ==>
      items[i].0 in ResponseHeaders(items) && ResponseHeaders(items)[items[i].0] == items[i].1
  {
    forall i | 0 <= i < |items| && !IsExcluded(items[i].0)
      ensures items[i].0 in ResponseHeaders(items) && ResponseHeaders(items)[items[i].0] == items[i].1
    {
      var k := items[i].0;
      assert Lower(ProxyBy)[0] == 'x';
      assert k != ProxyBy;
      LastValueOfDistinct(items, i);
      FilterHeadersKeepsLast(items, k);
    }
  }

  /** `_prepare_headers`: the copy loop, then the forwarding metadata and the
      default user agent. */
  method PrepareHeaders(items: seq<(string, string)>, clientHost: string, scheme: string)
    returns (headers: map<string, string>)
    ensures headers == OutboundHeaders(items, clientHost, scheme)
  {
    headers := map[];
    var i := 0;
    while i < |items|
      invariant 0 <= i <= |items|
      invariant headers == FilterHeaders(items[..i])
    {
      var (key, value) := items[i];
      assert items[..i + 1][..i] == items[..i];
      if Lower(key) !in Excluded {
        headers := headers[key := value];
      }
      i := i + 1;
    }
    assert items[..i] == items;
    headers := headers[ForwardedFor := clientHost];
    headers := headers[ForwardedProto := scheme];
    headers := headers[ForwardedHost := HeaderGet(items, "host").GetOr("")];
    headers := headers[RealIp := clientHost];
    if "user-agent" !in headers {
      headers := headers[UserAgent := DefaultUserAgent];
    }
  }

  /** `_prepare_response_headers`: the copy loop, then the proxy marker. */
  method PrepareResponseHeaders(items: seq<(string, string)>) returns (headers: map<string, string>)
    ensures headers == ResponseHeaders(items)
  {
    headers := map[];
    var i := 0;
    while i < |items|
      invariant 0 <= i <= |items|
      invariant headers == FilterHeaders(items[..i])
    {
      var (key, value) := items[i];
      assert items[..i + 1][..i] == items[..i];
      if Lower(key) !in Excluded {
        headers := headers[key := value];
      }
      i := i + 1;
    }
    assert items[..i] == items;
    headers := headers[ProxyBy := ProxyMarker];
  }
}
