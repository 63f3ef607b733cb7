/**
  `Array.prototype.sort` with a comparator `(a, b) => key(b) - key(a)`: a stable
  sort into non-increasing key order (the language has required stability
  since ECMAScript 2019). It is written as an insertion sort that places each
  item in front of the later items whose key is not larger, which keeps equal
  keys in their original order.
 */
module Sorting {

  ghost predicate SortedDesc<T>(s: seq<T>, key: T -> int) {
    forall i, j | 0 <= i < j < |s| :: key(s[i]) >= key(s[j])
  }

  /** Items with equal keys appear in increasing `pos` order. */
  ghost predicate TiesOrdered<T>(s: seq<T>, key: T -> int, pos: T -> int) {
    forall i, j | 0 <= i < j < |s| && key(s[i]) == key(s[j]) :: pos(s[i]) < pos(s[j])
  }

  /** Where `x` goes: in front of the first item whose key is not larger. */
  function InsertPos<T>(x: T, s: seq<T>, key: T -> int): (k: nat)
    ensures k <= |s|
    ensures forall i | 0 <= i < k :: key(s[i]) > key(x)
    ensures k < |s| ==> key(s[k]) <= key(x)
  {
    if s == [] || key(s[0]) <= key(x) then 0 else 1 + InsertPos(x, s[1..], key)
  }

  function Insert<T>(x: T, s: seq<T>, key: T -> int): (r: seq<T>)
    ensures multiset(r) == multiset(s) + multiset{x}
    ensures |r| == |s| + 1
  {
    var k := InsertPos(x, s, key);
    assert s == s[..k] + s[k..];
    s[..k] + [x] + s[k..]
  }

  function SortByKeyDesc<T>(s: seq<T>, key: T -> int): (r: seq<T>)
    ensures multiset(r) == multiset(s)
    ensures |r| == |s|
  {
    if s == [] then []
    else
      assert s == [s[0]] + s[1..];
      Insert(s[0], SortByKeyDesc(s[1..], key), key)
  }

  /** Each item's place after the insertion. */
  lemma InsertIndex<T>(x: T, s: seq<T>, key: T -> int, i: nat)
    requires i <= |s|
    ensures Insert(x, s, key)[i] ==
      var k := InsertPos(x, s, key); if i < k then s[i] else if i == k then x else s[i - 1]
  {
  }

  lemma InsertSorted<T>(x: T, s: seq<T>, key: T -> int)
    requires SortedDesc(s, key)
    ensures SortedDesc(Insert(x, s, key), key)
  {
    var k := InsertPos(x, s, key);
    var r := Insert(x, s, key);
    forall i, j | 0 <= i < j < |r| ensures key(r[i]) >= key(r[j]) {
      InsertIndex(x, s, key, i);
      InsertIndex(x, s, key, j);
    }
  }

  lemma {:induction false} SortByKeyDescSorted<T>(s: seq<T>, key: T -> int)
    ensures SortedDesc(SortByKeyDesc(s, key), key)
  {
    if s != [] {
      SortByKeyDescSorted(s[1..], key);
      InsertSorted(s[0], SortByKeyDesc(s[1..], key), key);
    }
  }

  /** Inserting an item that comes before every item of `s` keeps equal keys in `pos` order. */
  lemma InsertTiesOrdered<T>(x: T, s: seq<T>, key: T -> int, pos: T -> int)
    requires TiesOrdered(s, key, pos)
    requires forall i | 0 <= i < |s| :: pos(x) < pos(s[i])
    ensures TiesOrdered(Insert(x, s, key), key, pos)
  {
    var k := InsertPos(x, s, key);
    var r := Insert(x, s, key);
    forall i, j | 0 <= i < j < |r| && key(r[i]) == key(r[j]) ensures pos(r[i]) < pos(r[j]) {
      InsertIndex(x, s, key, i);
      InsertIndex(x, s, key, j);
    }
  }

  /** The sort is stable: when the input lists items in increasing `pos`, items
      with equal keys leave the sort in increasing `pos`. */
  lemma {:induction false} SortByKeyDescStable<T>(s: seq<T>, key: T -> int, pos: T -> int)
    requires forall i, j | 0 <= i < j < |s| :: pos(s[i]) < pos(s[j])
    ensures TiesOrdered(SortByKeyDesc(s, key), key, pos)
  {
    if s != [] {
      SortByKeyDescStable(s[1..], key, pos);
      var t := SortByKeyDesc(s[1..], key);
      forall i | 0 <= i < |t| ensures pos(s[0]) < pos(t[i]) {
        assert t[i] in multiset(s[1..]);
        var k :| 0 <= k < |s[1..]| && s[1..][k] == t[i];
        assert s[k + 1] == t[i];
      }
      InsertTiesOrdered(s[0], t, key, pos);
    }
  }
  /** The total of `f` over the items. */
  function SumBy<T>(s: seq<T>, f: T -> int): int {
    if s == [] then 0 else f(s[0]) + SumBy(s[1..], f)
  }

  lemma {:induction false} SumByConcat<T>(a: seq<T>, b: seq<T>, f: T -> int)
    ensures SumBy(a + b, f) == SumBy(a, f) + SumBy(b, f)
  {
    if a != [] {
      assert (a + b)[1..] == a[1..] + b;
      SumByConcat(a[1..], b, f);
    } else {
      assert a + b == b;
    }
  }

  lemma SumByInsert<T>(x: T, t: seq<T>, key: T -> int, f: T -> int)
    ensures SumBy(Insert(x, t, key), f) == f(x) + SumBy(t, f)
  {
    var k := InsertPos(x, t, key);
    var tail := [x] + t[k..];
    assert Insert(x, t, key) == t[..k] + tail;
    SumByConcat(t[..k], tail, f);
    assert tail[1..] == t[k..];
    SumByConcat(t[..k], t[k..], f);
    assert t == t[..k] + t[k..];
  }

  /** Sorting rearranges the items and so keeps their total. */
  lemma {:induction false} SortKeepsSum<T>(s: seq<T>, key: T -> int, f: T -> int)
    ensures SumBy(SortByKeyDesc(s, key), f) == SumBy(s, f)
  {
    if s != [] {
      SortKeepsSum(s[1..], key, f);
      SumByInsert(s[0], SortByKeyDesc(s[1..], key), key, f);
    }
  }

  /** Sorting neither adds nor drops an item. */
  lemma SortedMembers<T>(s: seq<T>, key: T -> int)
    ensures forall x :: x in SortByKeyDesc(s, key) <==> x in s
  {
    var r := SortByKeyDesc(s, key);
    forall x ensures x in r <==> x in s {
      assert x in r <==> x in multiset(r);
      assert x in s <==> x in multiset(s);
    }
  }
}
