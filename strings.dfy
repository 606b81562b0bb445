/** Character and string helpers shared by the URL, JSON and desktop-entry models. */
module Strings {

  /** Position of the first `c` in `s`, or `|s|` when `s` has none. */
  function IndexOf(s: string, c: char): (i: nat)
    ensures i <= |s|
    ensures i < |s| ==> s[i] == c
    ensures forall k :: 0 <= k < i ==> s[k] != c
  {
    if s == [] then 0 else if s[0] == c then 0 else 1 + IndexOf(s[1..], c)
  }

  /** The three clauses of IndexOf's contract determine it. */
  lemma IndexOfIs(s: string, c: char, i: nat)
    requires i <= |s|
    requires i < |s| ==> s[i] == c
    requires forall k :: 0 <= k < i ==> s[k] != c
    ensures IndexOf(s, c) == i
  {
  }

  lemma IndexOfAppend(a: string, b: string, c: char)
    requires c !in a
    ensures IndexOf(a + b, c) == |a| + IndexOf(b, c)
  {
    var j := IndexOf(b, c);
    forall k | 0 <= k < |a| + j
      ensures (a + b)[k] != c
    {
      if k >= |a| {
        assert (a + b)[k] == b[k - |a|];
      }
    }
    IndexOfIs(a + b, c, |a| + j);
  }

  lemma IndexOfAbsent(a: string, c: char)
    requires c !in a
    ensures IndexOf(a, c) == |a|
  {
    IndexOfIs(a, c, |a|);
  }

  /** Splits `s` at every occurrence of `c`; the pieces never contain `c`. */
  function Split(s: string, c: char): (r: seq<string>)
    ensures |r| >= 1
    ensures forall k :: 0 <= k < |r| ==> c !in r[k]
    decreases |s|
  {
    var i := IndexOf(s, c);
    if i == |s| then [s] else [s[..i]] + Split(s[i + 1..], c)
  }

  lemma SplitAt(s: string, c: char, i: nat)
    requires i == IndexOf(s, c) && i < |s|
    ensures Split(s, c) == [s[..i]] + Split(s[i + 1..], c)
  {
  }

  /** The pieces of `xs` with `sep` between neighbours. */
  function Join(xs: seq<string>, sep: string): string
  {
    if |xs| == 0 then "" else if |xs| == 1 then xs[0] else xs[0] + sep + Join(xs[1..], sep)
  }

  /** Joining with a one-character separator that no piece contains can be undone by Split. */
  lemma {:induction false} SplitJoin(xs: seq<string>, c: char)
    requires |xs| >= 1
    requires forall k :: 0 <= k < |xs| ==> c !in xs[k]
    ensures Split(Join(xs, [c]), c) == xs
  {
    if |xs| == 1 {
      IndexOfAbsent(xs[0], c);
    } else {
      var head, rest := xs[0], Join(xs[1..], [c]);
      var s := head + ([c] + rest);
      assert Join(xs, [c]) == s;
      IndexOfAppend(head, [c] + rest, c);
      assert s[..|head|] == head;
      assert s[|head| + 1..] == rest;
      SplitAt(s, c, |head|);
      SplitJoin(xs[1..], c);
      assert xs == [head] + xs[1..];
    }
  }

  lemma JoinLacks(xs: seq<string>, sep: string, c: char)
    requires c !in sep
    requires forall k :: 0 <= k < |xs| ==> c !in xs[k]
    ensures c !in Join(xs, sep)
  {
    if |xs| > 1 {
      JoinLacks(xs[1..], sep, c);
    }
  }

  lemma NotInSlice(s: string, c: char, i: nat, j: nat)
    requires i <= j <= |s| && c !in s
    ensures c !in s[i..j]
  {
  }

  /** Every `from` in `s` replaced by `to`, everything else kept in place. */
  function Replace(s: string, from: char, to: char): (r: string)
    ensures |r| == |s|
    ensures forall k :: 0 <= k < |s| ==> r[k] == (if s[k] == from then to else s[k])
  {
    seq(|s|, k requires 0 <= k < |s| => if s[k] == from then to else s[k])
  }

  lemma ReplaceAppend(a: string, b: string, from: char, to: char)
    ensures Replace(a + b, from, to) == Replace(a, from, to) + Replace(b, from, to)
  {
    var l, r := Replace(a + b, from, to), Replace(a, from, to) + Replace(b, from, to);
    forall k | 0 <= k < |l|
      ensures l[k] == r[k]
    {
      if k < |a| {
        assert (a + b)[k] == a[k];
      } else {
        assert (a + b)[k] == b[k - |a|];
      }
    }
    assert l == r;
  }

  /** Replacing the one occurrence of `from` changes only that character. */
  lemma ReplaceMark(a: string, b: string, from: char, to: char)
    requires from !in a && from !in b
    ensures Replace(a + [from] + b, from, to) == a + [to] + b
  {
    ReplaceAppend(a + [from], b, from, to);
    ReplaceAppend(a, [from], from, to);
    ReplaceAbsent(a, from, to);
    ReplaceAbsent(b, from, to);
  }

  lemma ReplaceAbsent(s: string, from: char, to: char)
    requires from !in s
    ensures Replace(s, from, to) == s
  {
  }

  predicate IsAsciiUpper(c: char) { 'A' <= c <= 'Z' }

  predicate IsAsciiLower(c: char) { 'a' <= c <= 'z' }

  predicate IsAsciiDigit(c: char) { '0' <= c <= '9' }

  predicate IsAsciiAlpha(c: char) { IsAsciiUpper(c) || IsAsciiLower(c) }

  predicate IsAsciiAlphanumeric(c: char) { IsAsciiAlpha(c) || IsAsciiDigit(c) }

  function ToLowerAscii(c: char): (r: char)
    ensures !IsAsciiUpper(r)
    ensures IsAsciiUpper(c) ==> IsAsciiLower(r) && r as int == c as int + 32
    ensures !IsAsciiUpper(c) ==> r == c
  {
    if IsAsciiUpper(c) then (c as int + 32) as char else c
  }

  /** `s` with ASCII upper-case letters lowered; nothing else changes. */
  function LowerAscii(s: string): (r: string)
    ensures |r| == |s|
    ensures forall k :: 0 <= k < |s| ==> r[k] == ToLowerAscii(s[k])
  {
    seq(|s|, k requires 0 <= k < |s| => ToLowerAscii(s[k]))
  }

  predicate NoUpper(s: string)
  {
    forall k :: 0 <= k < |s| ==> !IsAsciiUpper(s[k])
  }

  lemma LowerAsciiFixed(s: string)
    requires NoUpper(s)
    ensures LowerAscii(s) == s
  {
  }

  lemma LowerAsciiKeepsAbsent(s: string, c: char)
    requires c !in s && !IsAsciiLower(c)
    ensures c !in LowerAscii(s)
  {
    var r := LowerAscii(s);
    forall k | 0 <= k < |r|
      ensures r[k] != c
    {
      assert s[k] != c;
    }
  }
}
