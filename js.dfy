/**
  The JavaScript built-ins the tender-summary code relies on, with their
  JavaScript meaning: the `\s` and `\w` classes of a (non-unicode) regular
  expression, ASCII case mapping, `trim`, `includes`, `slice`, `join` and
  `filter`. Strings are sequences of characters.
 */
module Js {

  /** `\s` in a regular expression; `String.prototype.trim` removes the same characters. */
  predicate IsSpace(c: char) {
    c == ' ' || c == '\t' || c == '\n' || c == '\r' || c == '\U{B}' || c == '\U{C}'
    || c == '\U{A0}' || c == '\U{1680}' || ('\U{2000}' <= c <= '\U{200A}')
    || c == '\U{2028}' || c == '\U{2029}' || c == '\U{202F}' || c == '\U{205F}'
    || c == '\U{3000}' || c == '\U{FEFF}'
  }

  predicate IsUpperLetter(c: char) { 'A' <= c <= 'Z' }

  predicate IsLowerLetter(c: char) { 'a' <= c <= 'z' }

  predicate IsLetter(c: char) { IsUpperLetter(c) || IsLowerLetter(c) }

  predicate IsDigit(c: char) { '0' <= c <= '9' }

  /** `\w` without the unicode flag: `[A-Za-z0-9_]`. */
  predicate IsWordChar(c: char) { IsLetter(c) || IsDigit(c) || c == '_' }

  lemma WordCharIsNotSpace(c: char)
    requires IsWordChar(c)
    ensures !IsSpace(c)
  {
  }

  function LowerChar(c: char): char {
    if IsUpperLetter(c) then (c as int + 32) as char else c
  }

  function UpperChar(c: char): char {
    if IsLowerLetter(c) then (c as int - 32) as char else c
  }

  /** `toLowerCase`, on ASCII letters. */
  function Lower(s: string): string {
    seq(|s|, i requires 0 <= i < |s| => LowerChar(s[i]))
  }

  /** `toUpperCase`, on ASCII letters. */
  function Upper(s: string): string {
    seq(|s|, i requires 0 <= i < |s| => UpperChar(s[i]))
  }

  /** Case folding of the `i` flag of a regular expression, for the characters of
      the patterns matched with it here: ASCII letters, and the `â` of the
      mis-encoded rupee sign. */
  function FoldChar(c: char): char {
    if c == '\U{C2}' then '\U{E2}' else LowerChar(c)
  }

  predicate SubstringAt(s: string, sub: string, i: int) {
    0 <= i && i + |sub| <= |s| && s[i..i + |sub|] == sub
  }

  /** `String.prototype.includes`. */
  predicate Contains(s: string, sub: string) {
    exists i | 0 <= i <= |s| - |sub| :: SubstringAt(s, sub, i)
  }

  predicate StartsWith(s: string, prefix: string) {
    SubstringAt(s, prefix, 0)
  }

  /** `sub` occurs at `i` in `s` under the `i` flag. */
  predicate FoldMatchAt(s: string, sub: string, i: int) {
    0 <= i && i + |sub| <= |s| && forall k | 0 <= k < |sub| :: FoldChar(s[i + k]) == FoldChar(sub[k])
  }

  /** `/sub/i.test(s)` for a pattern made of literal characters. */
  predicate ContainsFold(s: string, sub: string) {
    exists i | 0 <= i <= |s| - |sub| :: FoldMatchAt(s, sub, i)
  }

  /** `String.prototype.trimStart`: drop the leading white space. */
  function TrimStart(s: string): (r: string)
    ensures |r| <= |s| && r == s[|s| - |r|..]
    ensures r == [] || !IsSpace(r[0])
  {
    if s != [] && IsSpace(s[0]) then TrimStart(s[1..]) else s
  }

  /** `String.prototype.trimEnd`: drop the trailing white space. */
  function TrimEnd(s: string): (r: string)
    ensures |r| <= |s| && r == s[..|r|]
    ensures r == [] || !IsSpace(r[|r| - 1])
  {
    if s != [] && IsSpace(s[|s| - 1]) then TrimEnd(s[..|s| - 1]) else s
  }

  /** `String.prototype.trim`: the longest infix without surrounding white space. */
  function Trim(s: string): (r: string)
    ensures |r| <= |s|
    ensures r == [] || (!IsSpace(r[0]) && !IsSpace(r[|r| - 1]))
    ensures |r| <= |TrimStart(s)| && r == s[|s| - |TrimStart(s)|..][..|r|]
  {
    TrimEnd(TrimStart(s))
  }

  /** A string without white space at either end is its own trim. */
  lemma TrimFixes(s: string)
    requires s == [] || (!IsSpace(s[0]) && !IsSpace(s[|s| - 1]))
    ensures Trim(s) == s
  {
    assert TrimStart(s) == s;
  }

  /** `trimStart` removes white space only. */
  lemma {:induction false} TrimStartDropsSpaces(s: string)
    ensures forall k | 0 <= k < |s| - |TrimStart(s)| :: IsSpace(s[k])
  {
    if s != [] && IsSpace(s[0]) {
      TrimStartDropsSpaces(s[1..]);
      forall k | 0 < k < |s| - |TrimStart(s)| ensures IsSpace(s[k]) {
        assert s[k] == s[1..][k - 1];
      }
    }
  }

  /** `trimEnd` removes white space only. */
  lemma {:induction false} TrimEndDropsSpaces(s: string)
    ensures forall k | |TrimEnd(s)| <= k < |s| :: IsSpace(s[k])
  {
    if s != [] && IsSpace(s[|s| - 1]) {
      TrimEndDropsSpaces(s[..|s| - 1]);
    }
  }

  /** `trim` removes white space only: every character outside the result,
      on either side, is white space. */
  lemma TrimDropsSpaces(s: string)
    ensures forall k | 0 <= k < |s| - |TrimStart(s)| :: IsSpace(s[k])
    ensures forall k | |s| - |TrimStart(s)| + |Trim(s)| <= k < |s| :: IsSpace(s[k])
  {
    var t := TrimStart(s);
    TrimStartDropsSpaces(s);
    TrimEndDropsSpaces(t);
    forall k | |s| - |t| + |Trim(s)| <= k < |s| ensures IsSpace(s[k]) {
      assert s[k] == t[k - (|s| - |t|)];
    }
  }

  /** A string that starts with a non-space character keeps its prefix up to
      the last non-space character when trimmed. */
  lemma {:induction false} TrimKeepsPrefix(s: string, p: string)
    requires StartsWith(s, p) && p != [] && !IsSpace(p[0]) && !IsSpace(p[|p| - 1])
    ensures StartsWith(Trim(s), p)
  {
    assert TrimStart(s) == s;
    TrimEndKeepsPrefix(s, p);
  }

  lemma {:induction false} TrimEndKeepsPrefix(s: string, p: string)
    requires StartsWith(s, p) && p != [] && !IsSpace(p[|p| - 1])
    ensures StartsWith(TrimEnd(s), p)
  {
    if s != [] && IsSpace(s[|s| - 1]) {
      assert |s| > |p|;
      assert s[..|s| - 1][..|p|] == s[..|p|];
      TrimEndKeepsPrefix(s[..|s| - 1], p);
    }
  }

  /** The position arithmetic of `Array.prototype.slice(start, end)`: a negative
      bound counts from the end, and bounds are clamped to the array. */
  function SliceBound(len: nat, bound: int): (b: nat)
    ensures b <= len
  {
    if bound < 0 then (if len + bound < 0 then 0 else len + bound)
    else if bound < len then bound else len
  }

  /** `Array.prototype.slice` and `String.prototype.slice`. */
  function Slice<T>(s: seq<T>, start: int, end: int): seq<T> {
    var from := SliceBound(|s|, start);
    var to := SliceBound(|s|, end);
    if from < to then s[from..to] else []
  }

  /** `slice(0, n)` for a non-negative `n`: the first `n` items, or all of them. */
  function Take<T>(s: seq<T>, n: nat): (r: seq<T>)
    ensures |r| <= n && |r| <= |s|
    ensures r == s[..|r|]
    ensures |r| == n || r == s
  {
    Slice(s, 0, n)
  }

  function Min(a: int, b: int): int {
    if a < b then a else b
  }

  lemma MulNonNegative(x: int, y: int)
    requires x >= 0 && y >= 0
    ensures x * y >= 0
  {
  }

  /** The slice of `limit` items from `skip` on, clamped to the items. */
  lemma SliceWindow<T>(all: seq<T>, skip: nat, limit: nat)
    ensures Slice(all, skip, skip + limit) == all[Min(skip, |all|)..Min(skip + limit, |all|)]
    ensures |Slice(all, skip, skip + limit)| <= limit
  {
  }

  /** `String.prototype.match` with a global regular expression that never
      matches the empty string, from position `from` on. `lengthAt(i)` is the
      length of the match that starts at `i`, or 0 when none does. Each match
      is taken at the leftmost position where one starts, and the search
      resumes where it ended. */
  function GlobalMatches(s: string, lengthAt: nat -> nat, from: nat): seq<string>
    requires from <= |s|
    decreases |s| - from
  {
    if from == |s| then []
    else
      var n := lengthAt(from);
      if 0 < n && from + n <= |s| then [s[from..from + n]] + GlobalMatches(s, lengthAt, from + n)
      else GlobalMatches(s, lengthAt, from + 1)
  }

  /** Every match is the text matched at some position where a match starts. */
  lemma {:induction false} GlobalMatchOrigin(s: string, lengthAt: nat -> nat, from: nat, j: nat) returns (i: nat)
    requires from <= |s| && j < |GlobalMatches(s, lengthAt, from)|
    ensures from <= i < |s| && 0 < lengthAt(i) && i + lengthAt(i) <= |s|
    ensures GlobalMatches(s, lengthAt, from)[j] == s[i..i + lengthAt(i)]
    decreases |s| - from
  {
    var n := lengthAt(from);
    if 0 < n && from + n <= |s| {
      var rest := GlobalMatches(s, lengthAt, from + n);
      assert GlobalMatches(s, lengthAt, from) == [s[from..from + n]] + rest;
      if j == 0 {
        i := from;
      } else {
        i := GlobalMatchOrigin(s, lengthAt, from + n, j - 1);
      }
    } else {
      i := GlobalMatchOrigin(s, lengthAt, from + 1, j);
    }
  }

  /** A prefix grows by the next item. */
  lemma PrefixSnoc<T>(s: seq<T>, i: nat)
    requires i < |s|
    ensures s[..i + 1] == s[..i] + [s[i]]
  {
  }

  /** `Array.prototype.join`. */
  function Join(parts: seq<string>, sep: string): string {
    if |parts| == 0 then ""
    else if |parts| == 1 then parts[0]
    else parts[0] + sep + Join(parts[1..], sep)
  }

  /** `Array.prototype.filter`. */
  function Filter<T>(s: seq<T>, p: T -> bool): (r: seq<T>)
    ensures |r| <= |s|
    ensures forall i | 0 <= i < |r| :: p(r[i])
  {
    if s == [] then []
    else if p(s[0]) then [s[0]] + Filter(s[1..], p)
    else Filter(s[1..], p)
  }

  /** `filter` keeps exactly the items that satisfy the predicate. */
  lemma {:induction false} FilterMembers<T>(s: seq<T>, p: T -> bool)
    ensures forall x :: x in Filter(s, p) <==> x in s && p(x)
  {
    if s != [] {
      FilterMembers(s[1..], p);
      assert forall x :: x in s <==> x == s[0] || x in s[1..];
    }
  }

  function Map<T, U>(s: seq<T>, f: T -> U): (r: seq<U>)
    ensures |r| == |s|
  {
    seq(|s|, i requires 0 <= i < |s| => f(s[i]))
  }

  /** `a` is `b` with some items left out, the rest in their order. */
  predicate IsSubsequence<T(==)>(a: seq<T>, b: seq<T>)
    decreases |b|
  {
    if a == [] then true
    else if b == [] then false
    else (a[0] == b[0] && IsSubsequence(a[1..], b[1..])) || IsSubsequence(a, b[1..])
  }

  lemma {:induction false} FilterIsSubsequence<T>(s: seq<T>, p: T -> bool)
    ensures IsSubsequence(Filter(s, p), s)
  {
    if s != [] {
      FilterIsSubsequence(s[1..], p);
      if !p(s[0]) {
        SubsequenceOfTail(Filter(s[1..], p), s);
      }
    }
  }

  lemma SubsequenceOfTail<T>(a: seq<T>, b: seq<T>)
    requires b != [] && IsSubsequence(a, b[1..])
    ensures IsSubsequence(a, b)
  {
  }

  lemma {:induction false} PrefixIsSubsequence<T>(a: seq<T>, b: seq<T>, n: nat)
    requires n <= |a| && IsSubsequence(a, b)
    ensures IsSubsequence(a[..n], b)
    decreases |b|
  {
    if n > 0 && a != [] && b != [] {
      if a[0] == b[0] && IsSubsequence(a[1..], b[1..]) {
        PrefixIsSubsequence(a[1..], b[1..], n - 1);
        assert a[..n][1..] == a[1..][..n - 1];
      } else {
        PrefixIsSubsequence(a, b[1..], n);
      }
    }
  }

  lemma {:induction false} SubsequenceMembers<T>(a: seq<T>, b: seq<T>)
    requires IsSubsequence(a, b)
    ensures forall x :: x in a ==> x in b
    decreases |b|
  {
    if a != [] && b != [] {
      if a[0] == b[0] && IsSubsequence(a[1..], b[1..]) {
        SubsequenceMembers(a[1..], b[1..]);
        assert forall x :: x in a ==> x == a[0] || x in a[1..];
      } else {
        SubsequenceMembers(a, b[1..]);
      }
    }
  }
  /** `filter` with a predicate every item satisfies changes nothing. */
  lemma {:induction false} FilterKeepsAll<T>(s: seq<T>, p: T -> bool)
    requires forall i | 0 <= i < |s| :: p(s[i])
    ensures Filter(s, p) == s
  {
    if s != [] {
      FilterKeepsAll(s[1..], p);
    }
  }

  /** `filter` depends only on the predicate's answers for the items. */
  lemma {:induction false} FilterExt<T>(s: seq<T>, p: T -> bool, q: T -> bool)
    requires forall i | 0 <= i < |s| :: p(s[i]) == q(s[i])
    ensures Filter(s, p) == Filter(s, q)
  {
    if s != [] {
      assert forall i | 0 <= i < |s[1..]| :: s[1..][i] == s[i + 1];
      FilterExt(s[1..], p, q);
    }
  }

  /** Filtering by `p` and then by `q` is filtering once by their conjunction `r`. */
  lemma {:induction false} FilterFilter<T>(s: seq<T>, p: T -> bool, q: T -> bool, r: T -> bool)
    requires forall i | 0 <= i < |s| :: r(s[i]) == (p(s[i]) && q(s[i]))
    ensures Filter(Filter(s, p), q) == Filter(s, r)
  {
    if s != [] {
      assert forall i | 0 <= i < |s[1..]| :: s[1..][i] == s[i + 1];
      FilterFilter(s[1..], p, q, r);
    }
  }

  lemma {:induction false} FilterSnoc<T>(s: seq<T>, x: T, p: T -> bool)
    ensures Filter(s + [x], p) == Filter(s, p) + (if p(x) then [x] else [])
  {
    if s != [] {
      assert (s + [x])[1..] == s[1..] + [x];
      FilterSnoc(s[1..], x, p);
    } else {
      assert Filter([x][1..], p) == [];
    }
  }

  /** Every item `filter` keeps comes from a position of `s` at or after its own. */
  lemma {:induction false} FilterOrigin<T>(s: seq<T>, p: T -> bool, j: nat) returns (k: nat)
    requires j < |Filter(s, p)|
    ensures j <= k < |s| && s[k] == Filter(s, p)[j]
  {
    var t := s[1..];
    if p(s[0]) {
      assert Filter(s, p) == [s[0]] + Filter(t, p);
      if j == 0 {
        k := 0;
      } else {
        k := FilterOrigin(t, p, j - 1);
        k := k + 1;
      }
    } else {
      k := FilterOrigin(t, p, j);
      k := k + 1;
    }
  }

  /** `filter` keeps items in their order: when `pos` increases along `s`, it
      increases along the result. */
  lemma {:induction false} FilterKeepsIncreasing<T>(s: seq<T>, p: T -> bool, pos: T -> int)
    requires forall i, j | 0 <= i < j < |s| :: pos(s[i]) < pos(s[j])
    ensures forall i, j | 0 <= i < j < |Filter(s, p)| :: pos(Filter(s, p)[i]) < pos(Filter(s, p)[j])
  {
    if s != [] {
      var t := s[1..];
      assert forall i, j | 0 <= i < j < |t| :: pos(t[i]) < pos(t[j]) by {
        forall i, j | 0 <= i < j < |t| ensures pos(t[i]) < pos(t[j]) {
          assert t[i] == s[i + 1] && t[j] == s[j + 1];
        }
      }
      FilterKeepsIncreasing(t, p, pos);
      if p(s[0]) {
        var r := Filter(s, p);
        var rest := Filter(t, p);
        assert r == [s[0]] + rest;
        forall i, j | 0 <= i < j < |r| ensures pos(r[i]) < pos(r[j]) {
          if i == 0 {
            var k := FilterOrigin(t, p, j - 1);
            assert s[k + 1] == r[j];
          } else {
            assert r[i] == rest[i - 1] && r[j] == rest[j - 1];
          }
        }
      }
    }
  }

  /** The first item `filter` keeps is the first item of `s` that satisfies `p`. */
  lemma {:induction false} FilterHead<T>(s: seq<T>, p: T -> bool)
    requires Filter(s, p) != []
    ensures exists i | 0 <= i < |s| :: s[i] == Filter(s, p)[0] && p(s[i]) && forall j | 0 <= j < i :: !p(s[j])
  {
    if !p(s[0]) {
      FilterHead(s[1..], p);
      var i :| 0 <= i < |s[1..]| && s[1..][i] == Filter(s[1..], p)[0] && p(s[1..][i]) && forall j | 0 <= j < i :: !p(s[1..][j]);
      assert s[i + 1] == Filter(s, p)[0];
      forall j | 0 <= j < i + 1 ensures !p(s[j]) {
        if j > 0 { assert s[j] == s[1..][j - 1]; }
      }
    } else {
      assert s[0] == Filter(s, p)[0];
    }
  }

  /** `Set.prototype.add` on a set kept, as JavaScript keeps it, in insertion order. */
  function AddUnique<T(==,!new)>(items: seq<T>, x: T): (r: seq<T>)
    ensures x in r
    ensures forall y :: y in r <==> y in items || y == x
  {
    if x in items then items else items + [x]
  }

  /** Adding every item of `xs`, in order, to the set `items`. */
  function AddAll<T(==,!new)>(items: seq<T>, xs: seq<T>): (r: seq<T>)
  {
    if xs == [] then items else AddUnique(AddAll(items, xs[..|xs| - 1]), xs[|xs| - 1])
  }

  /** The set holds what it held and what was added, nothing else. */
  lemma {:induction false} AddAllMembers<T(!new)>(items: seq<T>, xs: seq<T>)
    ensures forall y :: y in AddAll(items, xs) <==> y in items || y in xs
  {
    if xs != [] {
      var init := xs[..|xs| - 1];
      AddAllMembers(items, init);
      assert xs == init + [xs[|xs| - 1]];
      assert forall y :: y in xs <==> y in init || y == xs[|xs| - 1];
    }
  }

  lemma AddUniqueDistinct<T(!new)>(items: seq<T>, x: T)
    requires Distinct(items)
    ensures Distinct(AddUnique(items, x))
  {
    if x !in items {
      var r := items + [x];
      forall i, j | 0 <= i < j < |r| ensures r[i] != r[j] {
        if j == |items| {
          assert r[i] == items[i];
        }
      }
    }
  }

  /** Adding keeps a set free of duplicates. */
  lemma {:induction false} AddAllDistinct<T(!new)>(items: seq<T>, xs: seq<T>)
    requires Distinct(items)
    ensures Distinct(AddAll(items, xs))
  {
    if xs != [] {
      AddAllDistinct(items, xs[..|xs| - 1]);
      AddUniqueDistinct(AddAll(items, xs[..|xs| - 1]), xs[|xs| - 1]);
    }
  }

  /** No item occurs twice. */
  predicate Distinct<T(==)>(s: seq<T>) {
    forall i, j | 0 <= i < j < |s| :: s[i] != s[j]
  }

  lemma {:induction false} SubsequenceOfDistinct<T>(a: seq<T>, b: seq<T>)
    requires IsSubsequence(a, b) && Distinct(b)
    ensures Distinct(a)
    decreases |b|
  {
    if a != [] && b != [] {
      if a[0] == b[0] && IsSubsequence(a[1..], b[1..]) {
        SubsequenceOfDistinct(a[1..], b[1..]);
        SubsequenceMembers(a[1..], b[1..]);
        forall i, j | 0 <= i < j < |a| ensures a[i] != a[j] {
          if i == 0 {
            assert a[j] in a[1..];
            assert a[j] in b[1..];
          } else {
            assert a[i] == a[1..][i - 1] && a[j] == a[1..][j - 1];
          }
        }
      } else {
        SubsequenceOfDistinct(a, b[1..]);
      }
    }
  }
}
