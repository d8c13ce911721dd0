/**
 * Ordering by a numeric key, as the `sort { $0.key < $1.key }` calls of the
 * renderers and view models use it.
 */
module Sorting {

  ghost predicate SortedBy<T>(s: seq<T>, key: T -> real)
  {
    forall i, j :: 0 <= i < j < |s| ==> key(s[i]) <= key(s[j])
  }

  /** `x` placed before the first element whose key is larger than its own. */
  function Insert<T>(x: T, s: seq<T>, key: T -> real): (r: seq<T>)
    ensures |r| == |s| + 1
    ensures multiset(r) == multiset(s) + multiset{x}
  {
    if s == [] || key(x) < key(s[0]) then [x] + s
    else
      assert s == [s[0]] + s[1..];
      [s[0]] + Insert(x, s[1..], key)
  }

  /** The sequence ordered by ascending key. */
  function SortBy<T>(s: seq<T>, key: T -> real): (r: seq<T>)
    ensures |r| == |s|
    ensures multiset(r) == multiset(s)
  {
    if s == [] then []
    else
      assert s == s[..|s| - 1] + [s[|s| - 1]];
      Insert(s[|s| - 1], SortBy(s[..|s| - 1], key), key)
  }

  lemma {:induction false} InsertSorted<T>(x: T, s: seq<T>, key: T -> real)
    requires SortedBy(s, key)
    ensures SortedBy(Insert(x, s, key), key)
  {
    if s != [] && key(x) >= key(s[0]) {
      InsertSorted(x, s[1..], key);
      var r := Insert(x, s, key);
      var tail := Insert(x, s[1..], key);
      assert r == [s[0]] + tail;
      forall k | 0 <= k < |tail|
        ensures key(s[0]) <= key(tail[k])
      {
        assert tail[k] in multiset(s[1..]) + multiset{x};
        if tail[k] in multiset(s[1..]) {
          var m :| 0 <= m < |s[1..]| && s[1..][m] == tail[k];
          assert s[m + 1] == tail[k];
        }
      }
    }
  }

  /** The result is ordered by key and holds exactly the input's elements. */
  lemma {:induction false} SortByIsSortedPermutation<T>(s: seq<T>, key: T -> real)
    ensures SortedBy(SortBy(s, key), key)
    ensures multiset(SortBy(s, key)) == multiset(s)
  {
    if s != [] {
      SortByIsSortedPermutation(s[..|s| - 1], key);
      InsertSorted(s[|s| - 1], SortBy(s[..|s| - 1], key), key);
    }
  }

  /** The first `m` of the sorted sequence are ordered and drawn from the input. */
  lemma SortedPrefix<T>(s: seq<T>, key: T -> real, m: nat)
    requires m <= |s|
    ensures SortedBy(SortBy(s, key)[..m], key)
    ensures multiset(SortBy(s, key)[..m]) <= multiset(s)
  {
    var sorted := SortBy(s, key);
    var kept := sorted[..m];
    assert SortedBy(kept, key) by {
      SortByIsSortedPermutation(s, key);
      forall i, j | 0 <= i < j < |kept|
        ensures key(kept[i]) <= key(kept[j])
      {
        assert kept[i] == sorted[i] && kept[j] == sorted[j];
      }
    }
    PrefixMultiset(sorted, m);
  }

  lemma PrefixMultiset<T>(a: seq<T>, m: nat)
    requires m <= |a|
    ensures multiset(a[..m]) <= multiset(a)
  {
    assert a == a[..m] + a[m..];
  }

  /** No element left out of the first `m` of the sorted sequence has a smaller key than one kept. */
  lemma SmallestFirst<T>(s: seq<T>, key: T -> real, m: nat)
    requires m <= |s|
    ensures forall i, x :: 0 <= i < m && x in multiset(s) - multiset(SortBy(s, key)[..m]) ==>
      key(SortBy(s, key)[i]) <= key(x)
  {
    SortByIsSortedPermutation(s, key);
    SortedSplit(SortBy(s, key), key, m);
  }

  lemma SortedSplit<T>(sorted: seq<T>, key: T -> real, m: nat)
    requires m <= |sorted| && SortedBy(sorted, key)
    ensures forall i, x :: 0 <= i < m && x in multiset(sorted) - multiset(sorted[..m]) ==> key(sorted[i]) <= key(x)
  {
    var kept := sorted[..m];
    var rest := sorted[m..];
    assert sorted == kept + rest;
    assert multiset(sorted) == multiset(kept) + multiset(rest);
    forall i, x | 0 <= i < m && x in multiset(sorted) - multiset(kept)
      ensures key(sorted[i]) <= key(x)
    {
      assert multiset(rest)[x] > 0;
      assert x in rest;
      var j :| 0 <= j < |rest| && rest[j] == x;
      assert sorted[m + j] == x;
    }
  }
}
