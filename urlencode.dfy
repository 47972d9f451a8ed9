/** Percent-encoding of query parameters, as `urllib.parse.urlencode` does it with
    its default `quote_plus`: unreserved characters (section 2.3 of RFC 3986) stay,
    a space becomes `+`, every other character is UTF-8 encoded and each byte
    written as `%` and two upper-case hexadecimal digits. */
module UrlEncode {
  import opened Text

  /** Letters, digits and `_.-~`, which `quote` never escapes. */
  predicate IsUnreserved(c: char)
  {
    ('A' <= c <= 'Z') || ('a' <= c <= 'z') || ('0' <= c <= '9') || c == '_' || c == '.' || c == '-' || c == '~'
  }

  /** A character that may appear in the output of `QuotePlus`. */
  predicate IsEncodedChar(c: char)
  {
    IsUnreserved(c) || c == '+' || c == '%'
  }

  function HexDigit(d: nat): (c: char)
    requires d < 16
    ensures IsUnreserved(c)
  {
    "0123456789ABCDEF"[d]
  }

  /** The UTF-8 encoding of one Unicode scalar value, byte by byte. */
  function Utf8(c: char): (bytes: seq<nat>)
    ensures 1 <= |bytes| <= 4
    ensures forall i :: 0 <= i < |bytes| ==> bytes[i] < 256
    ensures |bytes| == 1 <==> c as int < 0x80
    ensures |bytes| == 1 ==> bytes[0] == c as int
  {
    var n := c as int;
    if n < 0x80 then [n]
    else if n < 0x800 then [0xC0 + n / 64, 0x80 + n % 64]
    else if n < 0x10000 then [0xE0 + n / 4096, 0x80 + (n / 64) % 64, 0x80 + n % 64]
    else [0xF0 + n / 262144, 0x80 + (n / 4096) % 64, 0x80 + (n / 64) % 64, 0x80 + n % 64]
  }

  /** `%XY` for each byte. */
  function PercentBytes(bytes: seq<nat>): (r: string)
    requires forall i :: 0 <= i < |bytes| ==> bytes[i] < 256
    ensures |r| == 3 * |bytes|
    ensures forall i :: 0 <= i < |r| ==> IsEncodedChar(r[i])
  {
    if bytes == [] then ""
    else ['%', HexDigit(bytes[0] / 16), HexDigit(bytes[0] % 16)] + PercentBytes(bytes[1..])
  }

  function QuoteChar(c: char): (r: string)
    ensures |r| > 0
    ensures forall i :: 0 <= i < |r| ==> IsEncodedChar(r[i])
  {
    if IsUnreserved(c) then [c]
    else if c == ' ' then "+"
    else PercentBytes(Utf8(c))
  }

  /** `quote_plus(s)`: the encoded text uses only unreserved characters, `+` and `%`,
      and is empty exactly when `s` is. */
  function QuotePlus(s: string): (r: string)
    ensures forall i :: 0 <= i < |r| ==> IsEncodedChar(r[i])
    ensures |r| >= |s|
    ensures r == [] <==> s == []
  {
    if s == [] then "" else QuoteChar(s[0]) + QuotePlus(s[1..])
  }

  /** Text made only of unreserved characters is left as it is. */
  lemma {:induction false} QuotePlusKeepsUnreserved(s: string)
    requires forall i :: 0 <= i < |s| ==> IsUnreserved(s[i])
    ensures QuotePlus(s) == s
  {
    if s != [] {
      QuotePlusKeepsUnreserved(s[1..]);
      assert [s[0]] + s[1..] == s;
    }
  }

  /** `k=v` with both sides quoted. */
  function EncodePair(p: (string, string)): string
  {
    QuotePlus(p.0) + "=" + QuotePlus(p.1)
  }

  function EncodedPairs(q: seq<(string, string)>): (r: seq<string>)
    ensures |r| == |q|
    ensures forall i :: 0 <= i < |q| ==> r[i] == EncodePair(q[i])
  {
    seq(|q|, i requires 0 <= i < |q| => EncodePair(q[i]))
  }

  /** `urlencode(q, doseq=True)` for a dictionary whose values are strings,
      its items in the dictionary's order; empty exactly for the empty dictionary. */
  function QueryString(q: seq<(string, string)>): (r: string)
    ensures r == "" <==> q == []
  {
    var parts := EncodedPairs(q);
    if |q| > 0 then
      assert parts[0][|QuotePlus(q[0].0)|] == '=';
      assert |q| > 1 ==> Join(parts, '&')[..|parts[0]|] == parts[0];
      Join(parts, '&')
    else
      Join(parts, '&')
  }

  lemma EncodedHasNo(s: string, c: char)
    requires !IsEncodedChar(c)
    ensures c !in QuotePlus(s)
  {
  }

  /** The query string holds only encoded characters and the separators `=` and `&`. */
  lemma {:induction false} QueryStringHasNo(q: seq<(string, string)>, c: char)
    requires !IsEncodedChar(c) && c != '=' && c != '&'
    ensures c !in QueryString(q)
  {
    var parts := EncodedPairs(q);
    if |q| > 0 {
      EncodedHasNo(q[0].0, c);
      EncodedHasNo(q[0].1, c);
      assert c !in parts[0];
      if |q| > 1 {
        QueryStringHasNo(q[1..], c);
        assert parts[1..] == EncodedPairs(q[1..]);
      }
    }
  }

  /** The separators of the query string are exactly the ones `urlencode` puts there:
      splitting at `&` gives one piece per dictionary item, and splitting a piece at `=`
      gives its quoted key and its quoted value. */
  lemma QueryStringSplits(q: seq<(string, string)>)
    requires |q| > 0
    ensures Split(QueryString(q), '&') == EncodedPairs(q)
    ensures forall i :: 0 <= i < |q| ==> Split(EncodedPairs(q)[i], '=') == [QuotePlus(q[i].0), QuotePlus(q[i].1)]
  {
    var parts := EncodedPairs(q);
    forall i | 0 <= i < |q|
      ensures '&' !in parts[i]
      ensures Split(parts[i], '=') == [QuotePlus(q[i].0), QuotePlus(q[i].1)]
    {
      EncodedHasNo(q[i].0, '&');
      EncodedHasNo(q[i].1, '&');
      EncodedHasNo(q[i].0, '=');
      EncodedHasNo(q[i].1, '=');
      SplitAtSeparator(QuotePlus(q[i].0), '=', QuotePlus(q[i].1));
      SplitNoSeparator(QuotePlus(q[i].1), '=');
    }
    SplitJoin(parts, '&');
  }
}
