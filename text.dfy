/** The optional value, as Python's `None` or a present value. */
module Wrappers {
  datatype Option<+T> = None | Some(value: T) {
    /** The value, or `default` when there is none, as `dict.get(key, default)`. */
    function GetOr(default: T): T
    {
      match this
      case Some(v) => v
      case None => default
    }
  }
}

/** String helpers the proxy relies on: case folding of header names,
    decimal rendering of integers in messages, and separator-joined lists. */
module Text {

  /** ASCII case folding, as `str.lower()` acts on header names. */
  function LowerChar(c: char): char
  {
    if 'A' <= c <= 'Z' then (c as int + 32) as char else c
  }

  function Lower(s: string): (r: string)
    ensures |r| == |s|
    ensures forall i :: 0 <= i < |s| ==> r[i] == LowerChar(s[i])
  {
    seq(|s|, i requires 0 <= i < |s| => LowerChar(s[i]))
  }

  predicate IsDigit(c: char)
  {
    '0' <= c <= '9'
  }

  predicate AllDigits(s: string)
  {
    forall i :: 0 <= i < |s| ==> IsDigit(s[i])
  }

  /** The number a string of decimal digits denotes. */
  function DecimalValue(s: string): nat
    requires AllDigits(s)
  {
    if s == [] then 0 else DecimalValue(s[..|s| - 1]) * 10 + (s[|s| - 1] as int - '0' as int)
  }

  /** `str(n)` for a natural number: digits only, no leading zero, and it reads back as `n`. */
  function NatToDecimal(n: nat): (r: string)
    ensures |r| > 0 && AllDigits(r)
    ensures r[0] == '0' ==> r == "0"
    ensures DecimalValue(r) == n
    decreases n
  {
    var d := ((n % 10) + '0' as int) as char;
    if n < 10 then [d]
    else
      var prefix := NatToDecimal(n / 10);
      assert (prefix + [d])[..|prefix|] == prefix;
      prefix + [d]
  }

  /** `str(n)` for any Python int: a minus sign before the digits of a negative number. */
  function IntToDecimal(n: int): (r: string)
    ensures |r| > 0
    ensures n >= 0 ==> AllDigits(r) && DecimalValue(r) == n && (r[0] == '0' ==> r == "0")
    ensures n < 0 ==> |r| > 1 && r[0] == '-' && r[1] != '0' && AllDigits(r[1..]) && DecimalValue(r[1..]) == -n
  {
    if n < 0 then
      var digits := NatToDecimal(-n);
      assert ("-" + digits)[1..] == digits;
      "-" + digits
    else NatToDecimal(n)
  }

  /** `sep.join(parts)`. */
  function Join(parts: seq<string>, sep: char): string
  {
    if |parts| == 0 then ""
    else if |parts| == 1 then parts[0]
    else parts[0] + [sep] + Join(parts[1..], sep)
  }

  /** `s.split(sep)`: the pieces between successive separators; never empty. */
  function Split(s: string, sep: char): (r: seq<string>)
    ensures |r| > 0
  {
    if s == [] then [""]
    else
      var rest := Split(s[1..], sep);
      if s[0] == sep then [""] + rest else [[s[0]] + rest[0]] + rest[1..]
  }

  lemma {:induction false} SplitNoSeparator(s: string, sep: char)
    requires sep !in s
    ensures Split(s, sep) == [s]
  {
    if s != [] {
      SplitNoSeparator(s[1..], sep);
      assert [s[0]] + s[1..] == s;
    }
  }

  /** A string splits into a single piece only when it holds no separator. */
  lemma {:induction false} SplitSinglePiece(s: string, sep: char)
    requires |Split(s, sep)| == 1
    ensures sep !in s
  {
    if s != [] {
      SplitSinglePiece(s[1..], sep);
    }
  }

  lemma {:induction false} SplitAtSeparator(a: string, sep: char, b: string)
    requires sep !in a
    ensures Split(a + [sep] + b, sep) == [a] + Split(b, sep)
  {
    if a == [] {
      assert a + [sep] + b == [sep] + b;
      assert ([sep] + b)[1..] == b;
    } else {
      var s := a + [sep] + b;
      assert s[1..] == a[1..] + [sep] + b;
      SplitAtSeparator(a[1..], sep, b);
      assert [a[0]] + a[1..] == a;
    }
  }

  /** Splitting a joined list at the separator gives the list back, as long as
      no part contains the separator. */
  lemma {:induction false} SplitJoin(parts: seq<string>, sep: char)
    requires |parts| > 0
    requires forall i :: 0 <= i < |parts| ==> sep !in parts[i]
    ensures Split(Join(parts, sep), sep) == parts
  {
    if |parts| == 1 {
      SplitNoSeparator(parts[0], sep);
    } else {
      SplitJoin(parts[1..], sep);
      SplitAtSeparator(parts[0], sep, Join(parts[1..], sep));
      assert [parts[0]] + parts[1..] == parts;
    }
  }
}

/** Sequences of name/value pairs: the multi-maps the framework hands over
    (query parameters, header items) and the insertion-ordered dictionaries
    Python builds from them. */
module Pairs {
  import opened Wrappers

  /** The value of the last pair named `k`, the one a dictionary built from `ps` keeps. */
  function LastValue(ps: seq<(string, string)>, k: string): Option<string>
  {
    if ps == [] then None
    else if ps[|ps| - 1].0 == k then Some(ps[|ps| - 1].1)
    else LastValue(ps[..|ps| - 1], k)
  }

  /** No name occurs twice: the item list of a dictionary. */
  predicate DistinctKeys(d: seq<(string, string)>)
  {
    forall i, j :: 0 <= i < j < |d| ==> d[i].0 != d[j].0
  }

  /** In a list without repeated names, each pair is the last one with its name. */
  lemma {:induction false} LastValueOfDistinct(ps: seq<(string, string)>, i: nat)
    requires DistinctKeys(ps) && i < |ps|
    ensures LastValue(ps, ps[i].0) == Some(ps[i].1)
  {
    if i < |ps| - 1 {
      var init := ps[..|ps| - 1];
      assert init[i] == ps[i];
      LastValueOfDistinct(init, i);
    }
  }

  /** `d[k]` for a dictionary given by its items. */
  function Lookup(d: seq<(string, string)>, k: string): Option<string>
  {
    if d == [] then None
    else if d[0].0 == k then Some(d[0].1)
    else Lookup(d[1..], k)
  }

  /** A pair whose name is new in front of a list without repeated names. */
  lemma DistinctCons(p: (string, string), d: seq<(string, string)>)
    requires DistinctKeys(d)
    requires forall j :: 0 <= j < |d| ==> d[j].0 != p.0
    ensures DistinctKeys([p] + d)
  {
    var r := [p] + d;
    forall i, j | 0 <= i < j < |r|
      ensures r[i].0 != r[j].0
    {
      assert r[j] == d[j - 1];
      if i > 0 {
        assert r[i] == d[i - 1];
      }
    }
  }

  /** `d[k] = v`: an existing entry keeps its place and takes the new value,
      a new key goes at the end; keys stay distinct. */
  function DictSet(d: seq<(string, string)>, k: string, v: string): (r: seq<(string, string)>)
    requires DistinctKeys(d)
    ensures |r| == if Lookup(d, k).Some? then |d| else |d| + 1
    ensures forall i :: 0 <= i < |d| ==> r[i] == (if d[i].0 == k then (k, v) else d[i])
    ensures Lookup(d, k).None? ==> r[|d|] == (k, v)
    ensures DistinctKeys(r)
  {
    if d == [] then [(k, v)]
    else if d[0].0 == k then
      var r := [(k, v)] + d[1..];
      assert forall i :: 1 <= i < |d| ==> r[i] == d[i] && d[i].0 != k;
      r
    else
      var rest := DictSet(d[1..], k, v);
      assert forall j :: 0 <= j < |rest| ==> rest[j].0 != d[0].0 by {
        forall j | 0 <= j < |rest|
          ensures rest[j].0 != d[0].0
        {
          if j < |d| - 1 {
            assert d[1..][j] == d[j + 1];
          }
        }
      }
      DistinctCons(d[0], rest);
      assert Lookup(d, k) == Lookup(d[1..], k);
      var r := [d[0]] + rest;
      assert forall i :: 1 <= i < |d| ==> r[i] == rest[i - 1] && d[1..][i - 1] == d[i];
      r
  }

  /** After `d[k] = v`, looking up `k` gives `v` and every other key gives what
      it gave before. */
  lemma {:induction false} DictSetLookup(d: seq<(string, string)>, k: string, v: string, other: string)
    requires DistinctKeys(d)
    ensures Lookup(DictSet(d, k, v), k) == Some(v)
    ensures other != k ==> Lookup(DictSet(d, k, v), other) == Lookup(d, other)
  {
    var r := DictSet(d, k, v);
    if d == [] {
    } else if d[0].0 == k {
      assert r[1..] == d[1..];
    } else {
      var rest := DictSet(d[1..], k, v);
      DictSetLookup(d[1..], k, v, other);
      assert r == [d[0]] + rest;
      assert r[1..] == rest;
    }
  }
}
