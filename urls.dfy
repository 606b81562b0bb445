/**
 * URLs as the interception code sees them: a scheme, an optional host, a
 * path, the ordered name-value pairs of the query and an optional fragment,
 * with a small parser and a serialiser for the shapes the flow produces.
 */
module Urls {
  import opened Wrappers
  import opened Strings

  type Pair = (string, string)

  datatype Url = Url(scheme: string, host: Option<string>, path: string, query: seq<Pair>, fragment: Option<string>)

  predicate IsSchemeChar(c: char) { IsAsciiAlphanumeric(c) || c == '+' || c == '-' || c == '.' }

  /** An ASCII letter followed by letters, digits, '+', '-' or '.'. */
  predicate ValidScheme(s: string)
  {
    |s| > 0 && IsAsciiAlpha(s[0]) && forall k :: 0 <= k < |s| ==> IsSchemeChar(s[k])
  }

  /** A host as the parser produces it: non-empty, lower-case, free of the delimiters around it. */
  predicate ValidHost(h: string)
  {
    |h| > 0 && NoUpper(h) && '/' !in h && '?' !in h && '#' !in h && '@' !in h && ':' !in h
  }

  /** What follows the last `c` in `s` (all of `s` when it has none). */
  function AfterLast(s: string, c: char): (r: string)
    ensures c !in r
    ensures |r| <= |s| && r == s[|s| - |r|..]
    decreases |s|
  {
    var i := IndexOf(s, c);
    if i == |s| then s else AfterLast(s[i + 1..], c)
  }

  /** The host named by an authority: user information up to the last '@' and a ':' port are dropped, ASCII letters lowered. */
  function HostOf(authority: string): (h: string)
    ensures '@' !in h && ':' !in h && NoUpper(h)
    ensures '/' !in authority ==> '/' !in h
    ensures '?' !in authority ==> '?' !in h
    ensures '#' !in authority ==> '#' !in h
  {
    var a := AfterLast(authority, '@');
    var part := a[..IndexOf(a, ':')];
    HostKeepsAbsent(authority, a, part, '@');
    HostKeepsAbsent(authority, a, part, ':');
    HostKeepsAbsent(authority, a, part, '/');
    HostKeepsAbsent(authority, a, part, '?');
    HostKeepsAbsent(authority, a, part, '#');
    LowerAscii(part)
  }

  /** A character that is not a lower-case letter and is missing from a slice of a slice stays missing once lowered. */
  lemma HostKeepsAbsent(authority: string, a: string, part: string, c: char)
    requires |a| <= |authority| && a == authority[|authority| - |a|..]
    requires |part| <= |a| && part == a[..|part|]
    requires !IsAsciiLower(c)
    ensures c !in a || c !in part || c !in authority ==> c !in LowerAscii(part)
  {
    if c !in authority {
      NotInSlice(authority, c, |authority| - |a|, |authority|);
    }
    if c !in a {
      NotInSlice(a, c, 0, |part|);
    }
    if c !in part {
      LowerAsciiKeepsAbsent(part, c);
    }
  }

  /** One query piece split at its first '='; a piece without one has an empty value. */
  function SplitPair(piece: string): Pair
  {
    var e := IndexOf(piece, '=');
    if e == |piece| then (piece, "") else (piece[..e], piece[e + 1..])
  }

  function PairsOf(pieces: seq<string>): seq<Pair>
  {
    if pieces == [] then []
    else (if pieces[0] == "" then [] else [SplitPair(pieces[0])]) + PairsOf(pieces[1..])
  }

  /** The pairs of a query string in order: pieces between '&', empty pieces skipped. */
  function QueryPairs(q: string): seq<Pair>
  {
    PairsOf(Split(q, '&'))
  }

  /**
   * Parses an absolute URL. The scheme is what precedes the first ':'; the
   * fragment is everything after the first '#'; the query runs from the
   * first '?' before it. With "//" an authority follows, up to the first '/'.
   */
  function Parse(s: string): (r: Option<Url>)
    ensures r.Some? ==> ValidScheme(r.value.scheme) && NoUpper(r.value.scheme)
    ensures r.Some? && r.value.host.Some? ==> ValidHost(r.value.host.value)
  {
    var colon := IndexOf(s, ':');
    if colon == |s| || !ValidScheme(s[..colon]) then None
    else
      var scheme := LowerAscii(s[..colon]);
      assert ValidScheme(scheme) by {
        forall k | 0 <= k < |scheme| ensures IsSchemeChar(scheme[k]) {
          assert IsSchemeChar(s[..colon][k]);
        }
      }
      ParseAfterScheme(scheme, s[colon + 1..])
  }

  function ParseAfterScheme(scheme: string, rest: string): (r: Option<Url>)
    ensures r.Some? ==> r.value.scheme == scheme
    ensures r.Some? && r.value.host.Some? ==> ValidHost(r.value.host.value)
  {
    var (body, fragment) := CutFragment(rest);
    var (hier, query) := CutQuery(body);
    ParseHierarchy(scheme, hier, query, fragment)
  }

  /** The text before the first '#', and the fragment after it when there is one. */
  function CutFragment(rest: string): (r: (string, Option<string>))
    ensures '#' !in r.0
  {
    var hash := IndexOf(rest, '#');
    (rest[..hash], if hash < |rest| then Some(rest[hash + 1..]) else None)
  }

  /** The text before the first '?', and the pairs of the query after it when there is one. */
  function CutQuery(body: string): (r: (string, seq<Pair>))
    ensures '?' !in r.0
    ensures '#' !in body ==> '#' !in r.0
  {
    var qm := IndexOf(body, '?');
    if '#' !in body then NotInSlice(body, '#', 0, qm); (body[..qm], if qm < |body| then QueryPairs(body[qm + 1..]) else [])
    else (body[..qm], if qm < |body| then QueryPairs(body[qm + 1..]) else [])
  }

  function ParseHierarchy(scheme: string, hier: string, query: seq<Pair>, fragment: Option<string>): (r: Option<Url>)
    ensures r.Some? ==> r.value.scheme == scheme && r.value.query == query && r.value.fragment == fragment
    ensures r.Some? && r.value.host.Some? && '?' !in hier && '#' !in hier ==> ValidHost(r.value.host.value)
  {
    if |hier| >= 2 && hier[..2] == "//" then
      var rest := hier[2..];
      var slash := IndexOf(rest, '/');
      var authority := rest[..slash];
      var host := HostOf(authority);
      if host == "" then None
      else
        assert '?' !in hier && '#' !in hier ==> '?' !in authority && '#' !in authority by {
          if '?' !in hier && '#' !in hier {
            NotInSlice(hier, '?', 2, 2 + slash);
            NotInSlice(hier, '#', 2, 2 + slash);
            assert authority == hier[2..2 + slash];
          }
        }
        Some(Url(scheme, Some(host), if slash == |rest| then "/" else rest[slash..], query, fragment))
    else Some(Url(scheme, None, hier, query, fragment))
  }

  function EncodePair(p: Pair): string
  {
    p.0 + "=" + p.1
  }

  function Pieces(q: seq<Pair>): (r: seq<string>)
    ensures |r| == |q|
    ensures forall k :: 0 <= k < |q| ==> r[k] == EncodePair(q[k])
  {
    seq(|q|, k requires 0 <= k < |q| => EncodePair(q[k]))
  }

  /** The query string of the pairs, "name=value" joined by '&', without percent-encoding. */
  function EncodeQuery(q: seq<Pair>): string
  {
    Join(Pieces(q), "&")
  }

  function Hierarchy(u: Url): string
  {
    if u.host.Some? then "//" + u.host.value + u.path else u.path
  }

  function QueryPart(q: seq<Pair>): string
  {
    if q == [] then "" else "?" + EncodeQuery(q)
  }

  function FragmentPart(f: Option<string>): string
  {
    if f.Some? then "#" + f.value else ""
  }

  /** The text of a URL: scheme ':' authority-and-path, then '?' query and '#' fragment when present. */
  function Serialize(u: Url): string
  {
    u.scheme + ":" + AfterScheme(u)
  }

  function AfterScheme(u: Url): string
  {
    Hierarchy(u) + QueryPart(u.query) + FragmentPart(u.fragment)
  }

  predicate SafeName(n: string) { '&' !in n && '=' !in n && '#' !in n }

  predicate SafeValue(v: string) { '&' !in v && '#' !in v }

  /** Pairs that survive serialisation without percent-encoding. */
  predicate SafeQuery(q: seq<Pair>)
  {
    forall k :: 0 <= k < |q| ==> SafeName(q[k].0) && SafeValue(q[k].1)
  }

  predicate ValidPath(p: string)
  {
    |p| > 0 && p[0] == '/' && '?' !in p && '#' !in p
  }

  /** A hierarchical URL whose parts Serialize writes out unambiguously. */
  predicate WellFormed(u: Url)
  {
    && ValidScheme(u.scheme) && NoUpper(u.scheme)
    && u.host.Some? && ValidHost(u.host.value)
    && ValidPath(u.path)
    && SafeQuery(u.query)
  }

  lemma SplitPairEncode(p: Pair)
    requires '=' !in p.0
    ensures SplitPair(EncodePair(p)) == p
  {
    var piece := EncodePair(p);
    assert piece == p.0 + ("=" + p.1);
    IndexOfAppend(p.0, "=" + p.1, '=');
    assert piece[..|p.0|] == p.0;
    assert piece[|p.0| + 1..] == p.1;
  }

  lemma {:induction false} PairsOfPieces(q: seq<Pair>)
    requires SafeQuery(q)
    ensures PairsOf(Pieces(q)) == q
  {
    if q != [] {
      SplitPairEncode(q[0]);
      assert Pieces(q)[1..] == Pieces(q[1..]);
      PairsOfPieces(q[1..]);
      assert q == [q[0]] + q[1..];
    }
  }

  /** Reading back the query string of safe pairs gives the same pairs, in the same order. */
  lemma QueryRoundTrip(q: seq<Pair>)
    requires SafeQuery(q)
    ensures QueryPairs(EncodeQuery(q)) == q
  {
    if q == [] {
      assert EncodeQuery(q) == "";
      assert Split("", '&') == [""];
    } else {
      var ps := Pieces(q);
      forall k | 0 <= k < |ps| ensures '&' !in ps[k] {
        assert ps[k] == q[k].0 + "=" + q[k].1;
      }
      SplitJoin(ps, '&');
      PairsOfPieces(q);
    }
  }

  lemma EncodeQueryLacksHash(q: seq<Pair>)
    requires SafeQuery(q)
    ensures '#' !in QueryPart(q)
  {
    var ps := Pieces(q);
    forall k | 0 <= k < |ps| ensures '#' !in ps[k] {
      assert ps[k] == q[k].0 + "=" + q[k].1;
    }
    JoinLacks(ps, "&", '#');
  }

  lemma ParseHierarchyOf(u: Url)
    requires WellFormed(u)
    ensures ParseHierarchy(u.scheme, Hierarchy(u), u.query, u.fragment) == Some(u)
  {
    var host := u.host.value;
    var hier := Hierarchy(u);
    assert hier[..2] == "//";
    var rest := hier[2..];
    assert rest == host + u.path;
    IndexOfAppend(host, u.path, '/');
    var slash := IndexOf(rest, '/');
    assert rest[..slash] == host;
    assert rest[slash..] == u.path;
    HostOfValid(host);
    ParseHierarchyUnfold(u.scheme, hier, u.query, u.fragment, slash);
  }

  /** A valid host names itself. */
  lemma HostOfValid(h: string)
    requires ValidHost(h)
    ensures HostOf(h) == h
  {
    IndexOfAbsent(h, '@');
    assert AfterLast(h, '@') == h;
    IndexOfAbsent(h, ':');
    assert h[..|h|] == h;
    LowerAsciiFixed(h);
  }

  lemma ParseHierarchyUnfold(scheme: string, hier: string, query: seq<Pair>, fragment: Option<string>, slash: nat)
    requires |hier| >= 2 && hier[..2] == "//"
    requires slash == IndexOf(hier[2..], '/')
    requires HostOf(hier[2..][..slash]) != ""
    ensures ParseHierarchy(scheme, hier, query, fragment) ==
      Some(Url(scheme, Some(HostOf(hier[2..][..slash])), if slash == |hier[2..]| then "/" else hier[2..][slash..], query, fragment))
  {
  }

  lemma ParseSchemeOf(u: Url, rest: string)
    requires ValidScheme(u.scheme) && NoUpper(u.scheme)
    ensures Parse(u.scheme + ":" + rest) == ParseAfterScheme(u.scheme, rest)
  {
    var s := u.scheme + ":" + rest;
    assert s == u.scheme + (":" + rest);
    assert ':' !in u.scheme by {
      forall k | 0 <= k < |u.scheme| ensures u.scheme[k] != ':' {
        assert IsSchemeChar(u.scheme[k]);
      }
    }
    IndexOfAppend(u.scheme, ":" + rest, ':');
    assert s[..|u.scheme|] == u.scheme;
    assert s[|u.scheme| + 1..] == rest;
    LowerAsciiFixed(u.scheme);
  }

  lemma FragmentSplit(hq: string, frag: Option<string>)
    requires '#' !in hq
    ensures CutFragment(hq + FragmentPart(frag)) == (hq, frag)
  {
    var f := FragmentPart(frag);
    IndexOfAppend(hq, f, '#');
    assert (hq + f)[..|hq|] == hq;
    if frag.Some? {
      assert (hq + f)[|hq| + 1..] == frag.value;
    }
  }

  lemma QuerySplit(h: string, query: seq<Pair>)
    requires '?' !in h && SafeQuery(query)
    ensures CutQuery(h + QueryPart(query)) == (h, query)
  {
    var q := QueryPart(query);
    IndexOfAppend(h, q, '?');
    assert (h + q)[..|h|] == h;
    if query == [] {
      assert h + q == h;
    } else {
      assert IndexOf(q, '?') == 0;
      assert (h + q)[|h| + 1..] == EncodeQuery(query) by {
        assert (h + q)[|h| + 1..] == q[1..];
      }
      QueryRoundTrip(query);
    }
  }

  lemma ParseAfterSchemeOf(u: Url)
    requires WellFormed(u)
    ensures ParseAfterScheme(u.scheme, AfterScheme(u)) == ParseHierarchy(u.scheme, Hierarchy(u), u.query, u.fragment)
  {
    var h, q := Hierarchy(u), QueryPart(u.query);
    assert '?' !in h && '#' !in h;
    EncodeQueryLacksHash(u.query);
    FragmentSplit(h + q, u.fragment);
    QuerySplit(h, u.query);
  }

  /** A well-formed URL is read back from its text unchanged. */
  lemma ParseSerialize(u: Url)
    requires WellFormed(u)
    ensures Parse(Serialize(u)) == Some(u)
  {
    ParseSchemeOf(u, AfterScheme(u));
    ParseAfterSchemeOf(u);
    ParseHierarchyOf(u);
  }

  /** The pairs of names and values, position by position. */
  function Zip(names: seq<string>, values: seq<string>): (q: seq<Pair>)
    requires |names| == |values|
    ensures |q| == |names|
    ensures forall k :: 0 <= k < |q| ==> q[k] == (names[k], values[k])
  {
    seq(|names|, k requires 0 <= k < |names| => (names[k], values[k]))
  }

  lemma ZipSafe(names: seq<string>, values: seq<string>)
    requires |names| == |values|
    requires forall k :: 0 <= k < |names| ==> SafeName(names[k])
    requires forall k :: 0 <= k < |values| ==> SafeValue(values[k])
    ensures SafeQuery(Zip(names, values))
  {
  }

  /** The value of the first pair named `name`, if any. */
  function Find(pairs: seq<Pair>, name: string): (r: Option<string>)
    ensures r.None? <==> forall k :: 0 <= k < |pairs| ==> pairs[k].0 != name
    ensures r.Some? ==> pairs[FirstIndex(pairs, name)] == (name, r.value)
  {
    if pairs == [] then None
    else if pairs[0].0 == name then Some(pairs[0].1)
    else Find(pairs[1..], name)
  }

  /** Position of the first pair named `name`, or `|pairs|` when there is none. */
  function FirstIndex(pairs: seq<Pair>, name: string): (i: nat)
    ensures i <= |pairs|
    ensures i < |pairs| ==> pairs[i].0 == name
    ensures forall k :: 0 <= k < i ==> pairs[k].0 != name
  {
    if pairs == [] then 0 else if pairs[0].0 == name then 0 else 1 + FirstIndex(pairs[1..], name)
  }

  /** The pair at `i` is the first one named `name`, so its value is what Find returns. */
  lemma {:induction false} FindAt(pairs: seq<Pair>, name: string, i: nat)
    requires i < |pairs| && pairs[i].0 == name
    requires forall k :: 0 <= k < i ==> pairs[k].0 != name
    ensures Find(pairs, name) == Some(pairs[i].1)
  {
    if i > 0 {
      assert pairs[0].0 != name;
      assert pairs[1..][i - 1] == pairs[i];
      forall k | 0 <= k < i - 1 ensures pairs[1..][k].0 != name {
        assert pairs[1..][k] == pairs[k + 1];
      }
      FindAt(pairs[1..], name, i - 1);
    }
  }

  /** No two pairs share a name. */
  predicate DistinctNames(pairs: seq<Pair>)
  {
    forall i, j :: 0 <= i < j < |pairs| ==> pairs[i].0 != pairs[j].0
  }

  /** When names are distinct, every pair is found under its own name. */
  lemma FindDistinct(pairs: seq<Pair>, i: nat)
    requires DistinctNames(pairs) && i < |pairs|
    ensures Find(pairs, pairs[i].0) == Some(pairs[i].1)
  {
    FindAt(pairs, pairs[i].0, i);
  }

  /** Looking a name up in two lists run together finds it in the first list when it is there. */
  lemma {:induction false} FindAppend(p: seq<Pair>, q: seq<Pair>, name: string)
    ensures Find(p + q, name) == if Find(p, name).Some? then Find(p, name) else Find(q, name)
  {
    FirstIndexAppend(p, q, name);
    var i := FirstIndex(p, name);
    if i < |p| {
      assert (p + q)[i] == p[i];
    } else {
      assert (p + q)[|p| + FirstIndex(q, name)..] == q[FirstIndex(q, name)..];
    }
  }

  lemma {:induction false} FirstIndexAppend(p: seq<Pair>, q: seq<Pair>, name: string)
    ensures FirstIndex(p + q, name) == if FirstIndex(p, name) < |p| then FirstIndex(p, name) else |p| + FirstIndex(q, name)
  {
    if p == [] {
      assert p + q == q;
    } else {
      assert (p + q) != [] && (p + q)[0] == p[0];
      assert (p + q)[1..] == p[1..] + q;
      FirstIndexAppend(p[1..], q, name);
      if p[0].0 != name {
        assert FirstIndex(p + q, name) == 1 + FirstIndex(p[1..] + q, name);
        assert FirstIndex(p, name) == 1 + FirstIndex(p[1..], name);
      }
    }
  }
}
