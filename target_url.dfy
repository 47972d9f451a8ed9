/** The URL builder: the upstream URL for an inbound path and query. */
module TargetUrl {
  import opened Wrappers
  import opened Text
  import opened Pairs
  import opened UrlEncode

  /** `s.rstrip("/")`: the longest prefix of `s` that does not end in `/`, all of
      whose removed characters are slashes. */
  function RStripSlash(s: string): (r: string)
    ensures |r| <= |s| && r == s[..|r|]
    ensures r == [] || r[|r| - 1] != '/'
    ensures forall i :: |r| <= i < |s| ==> s[i] == '/'
  {
    if |s| > 0 && s[|s| - 1] == '/' then RStripSlash(s[..|s| - 1]) else s
  }

  /** `s.lstrip("/")`: the longest suffix of `s` that does not start with `/`, all of
      whose removed characters are slashes. */
  function LStripSlash(s: string): (r: string)
    ensures |r| <= |s| && r == s[|s| - |r|..]
    ensures r == [] || r[0] != '/'
    ensures forall i :: 0 <= i < |s| - |r| ==> s[i] == '/'
  {
    if |s| > 0 && s[0] == '/' then LStripSlash(s[1..]) else s
  }

  /** `dict(request.query_params)`: one entry per parameter name, in the order the
      names first appear, each holding the name's last value. */
  function CollapseQuery(ps: seq<(string, string)>): (d: seq<(string, string)>)
    ensures DistinctKeys(d)
  {
    if ps == [] then []
    else DictSet(CollapseQuery(ps[..|ps| - 1]), ps[|ps| - 1].0, ps[|ps| - 1].1)
  }

  /** The dictionary keeps, for every name, the last value given for it, and holds
      no name that was not given. */
  lemma {:induction false} CollapseQueryKeepsLastValue(ps: seq<(string, string)>, k: string)
    ensures Lookup(CollapseQuery(ps), k) == LastValue(ps, k)
  {
    if ps != [] {
      CollapseQueryKeepsLastValue(ps[..|ps| - 1], k);
      DictSetLookup(CollapseQuery(ps[..|ps| - 1]), ps[|ps| - 1].0, ps[|ps| - 1].1, k);
    }
  }

  /** The names of a list of pairs, in order. */
  function Names(ps: seq<(string, string)>): (r: seq<string>)
    ensures |r| == |ps| && forall i :: 0 <= i < |ps| ==> r[i] == ps[i].0
  {
    seq(|ps|, i requires 0 <= i < |ps| => ps[i].0)
  }

  /** Each name once, in the order of its first occurrence. */
  function FirstAppearance(names: seq<string>): seq<string>
  {
    if names == [] then []
    else
      var seen := FirstAppearance(names[..|names| - 1]);
      if names[|names| - 1] in seen then seen else seen + [names[|names| - 1]]
  }

  /** A dictionary given by its items holds a key exactly when some item has it. */
  lemma {:induction false} LookupFindsKey(d: seq<(string, string)>, k: string)
    ensures Lookup(d, k).Some? <==> k in Names(d)
  {
    if d != [] {
      LookupFindsKey(d[1..], k);
      assert Names(d) == [d[0].0] + Names(d[1..]);
    }
  }

  /** Assigning to a key changes no name: the names stay, and a new key is added
      at the end. */
  lemma DictSetNames(d: seq<(string, string)>, k: string, v: string)
    requires DistinctKeys(d)
    ensures Lookup(d, k).Some? ==> Names(DictSet(d, k, v)) == Names(d)
    ensures Lookup(d, k).None? ==> Names(DictSet(d, k, v)) == Names(d) + [k]
  {
    var r := DictSet(d, k, v);
    assert forall i :: 0 <= i < |d| ==> Names(r)[i] == Names(d)[i];
    if Lookup(d, k).None? {
      assert Names(r)[|d|] == k;
    }
  }

  /** `dict()` orders its keys by first appearance: the keys of the collapsed query
      are the parameter names, each once, in the order they first occur. */
  lemma {:induction false} CollapseQueryFirstAppearanceOrder(ps: seq<(string, string)>)
    ensures Names(CollapseQuery(ps)) == FirstAppearance(Names(ps))
  {
    if ps != [] {
      var init := ps[..|ps| - 1];
      var k, v := ps[|ps| - 1].0, ps[|ps| - 1].1;
      var d := CollapseQuery(init);
      CollapseQueryFirstAppearanceOrder(init);
      var names := Names(ps);
      assert names[..|names| - 1] == Names(init);
      assert names[|names| - 1] == k;
      assert FirstAppearance(names) ==
        if k in Names(d) then Names(d) else Names(d) + [k];
      assert CollapseQuery(ps) == DictSet(d, k, v);
      LookupFindsKey(d, k);
      DictSetNames(d, k, v);
    }
  }

  /** Repeated names do not survive: of `a=1&a=2` only `a=2` is forwarded. */
  lemma RepeatedParameterKeepsLast()
    ensures QueryString(CollapseQuery([("a", "1"), ("a", "2")])) == "a=2"
  {
    var ps := [("a", "1"), ("a", "2")];
    assert ps[..1] == [("a", "1")];
    assert [("a", "1")][..0] == [];
    assert CollapseQuery(ps) == [("a", "2")];
    QuotePlusKeepsUnreserved("a");
    QuotePlusKeepsUnreserved("2");
  }

  /** Base URL and path, joined by one slash: the part of `_build_target_url`
      before the query. */
  function JoinPath(base: string, path: string): (r: string)
    ensures var b, p := RStripSlash(base), LStripSlash(path);
      |r| >= |b| + |p| && r[..|b|] == b && r[|r| - |p|..] == p
  {
    var b := RStripSlash(base);
    var p := LStripSlash(path);
    if p != "" then b + "/" + p else b
  }

  /** `_build_target_url`: the joined path, then `?` and the encoded query when
      there are parameters. */
  function BuildTargetUrl(base: string, path: string, query: seq<(string, string)>): (r: string)
    ensures var u := JoinPath(base, path);
      && |r| >= |u| && r[..|u|] == u
      && (|query| == 0 <==> |r| == |u|)
      && (|query| > 0 ==> r[|u|] == '?' && r[|u| + 1..] == QueryString(query))
  {
    var url := JoinPath(base, path);
    if |query| > 0 then url + "?" + QueryString(query) else url
  }

  /** Exactly one slash separates the base from the path: the base keeps none of its
      trailing slashes, the path none of its leading ones, and the URL holds the path
      unchanged after that one slash. With an empty stripped path the URL is the
      stripped base. */
  lemma SingleSlashAtJoin(base: string, path: string)
    ensures var b, p, u := RStripSlash(base), LStripSlash(path), JoinPath(base, path);
      && |b| <= |u| && u[..|b|] == b
      && (|b| > 0 ==> u[|b| - 1] != '/')
      && (p == "" ==> u == b)
      && (p != "" ==> |u| == |b| + 1 + |p| && u[|b|] == '/' && u[|b| + 1] != '/' && u[|b| + 1..] == p)
  {
    var b, p, u := RStripSlash(base), LStripSlash(path), JoinPath(base, path);
    if p != "" {
      assert u == b + "/" + p;
      assert u[|b| + 1..] == p;
    }
  }

  /** Whatever the slashes around it, the path text between them is kept: stripping
      slashes from either side of the base or path does not change the result. */
  lemma {:induction false} JoinPathIgnoresExtraSlashes(base: string, path: string)
    ensures JoinPath(base + "/", path) == JoinPath(base, path)
    ensures JoinPath(base, "/" + path) == JoinPath(base, path)
  {
    assert (base + "/")[..|base + "/"| - 1] == base;
    assert ("/" + path)[1..] == path;
  }

  /** The upstream reads the URL back: splitting at `?` gives the joined path alone
      when there are no parameters, and the joined path and the query string
      otherwise; the query string then splits into the encoded parameters. */
  lemma TargetUrlSplitsAtQueryMark(base: string, path: string, query: seq<(string, string)>)
    requires '?' !in base && '?' !in path
    ensures Split(BuildTargetUrl(base, path, query), '?') ==
      if |query| == 0 then [JoinPath(base, path)] else [JoinPath(base, path), QueryString(query)]
  {
    var u := JoinPath(base, path);
    assert '?' !in u by {
      var b, p := RStripSlash(base), LStripSlash(path);
      assert forall i :: 0 <= i < |b| ==> b[i] == base[i];
      assert forall i :: 0 <= i < |p| ==> p[i] == path[|path| - |p| + i];
      assert '?' !in b && '?' !in p;
    }
    if |query| == 0 {
      SplitNoSeparator(u, '?');
    } else {
      QueryStringHasNo(query, '?');
      SplitAtSeparator(u, '?', QueryString(query));
      SplitNoSeparator(QueryString(query), '?');
    }
  }

  /** A consequence: with no `?` in the base or the path, the URL contains `?`
      exactly when the query has parameters. */
  lemma QueryMarkIffParameters(base: string, path: string, query: seq<(string, string)>)
    requires '?' !in base && '?' !in path
    ensures '?' in BuildTargetUrl(base, path, query) <==> |query| > 0
  {
    var url := BuildTargetUrl(base, path, query);
    TargetUrlSplitsAtQueryMark(base, path, query);
    if |query| == 0 {
      SplitSinglePiece(url, '?');
    } else {
      assert url[|JoinPath(base, path)|] == '?';
    }
  }

  /** The path reaches the URL as it is given, character for character: it is not
      quoted again. The framework hands over the path percent-decoded, so a request
      for `/a%3Fb` carries a `?` and one for `/a%23b` a `#` into the URL. */
  lemma PathCharacterReachesUrl(base: string, path: string, query: seq<(string, string)>, c: char)
    requires c in path && c != '/'
    ensures c in BuildTargetUrl(base, path, query)
  {
    var p := LStripSlash(path);
    StrippedKeeps(path, c);
    var k :| 0 <= k < |p| && p[k] == c;
    var u := JoinPath(base, path);
    var j := |u| - |p| + k;
    assert u[j] == c by {
      assert u[|u| - |p|..][k] == p[k];
    }
    var r := BuildTargetUrl(base, path, query);
    assert r[j] == c by {
      assert r[..|u|][j] == u[j];
    }
  }

  /** Stripping leading slashes removes no other character. */
  lemma {:induction false} StrippedKeeps(path: string, c: char)
    requires c in path && c != '/'
    ensures c in LStripSlash(path)
  {
    if path[0] == '/' {
      assert c in path[1..];
      StrippedKeeps(path[1..], c);
    }
  }

  /** A decoded `?` in the path gives a URL with a `?` although there are no
      parameters: for base `https://u`, the URL `https://u/a?b`. */
  lemma DecodedQueryMark(base: string)
    requires base != [] && base[|base| - 1] != '/'
    ensures BuildTargetUrl(base, "a?b", []) == base + "/" + "a?b"
  {
    assert "a?b"[0] == 'a';
    assert LStripSlash("a?b") == "a?b";
    assert RStripSlash(base) == base;
  }

  /** A decoded `#` in the path turns the rest of the path and the whole query into
      a fragment, which is never sent upstream: for base `https://u`, the URL
      `https://u/a#b?q=1`. */
  lemma DecodedFragmentMark(base: string)
    requires base != [] && base[|base| - 1] != '/'
    ensures BuildTargetUrl(base, "a#b", [("q", "1")]) == base + "/" + "a#b" + "?" + "q=1"
  {
    assert "a#b"[0] == 'a';
    assert LStripSlash("a#b") == "a#b";
    assert RStripSlash(base) == base;
    QuotePlusKeepsUnreserved("q");
    QuotePlusKeepsUnreserved("1");
    assert EncodePair(("q", "1")) == "q" + "=" + "1";
    assert QueryString([("q", "1")]) == "q=1";
  }
}
