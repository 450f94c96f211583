/**
 * The ordering the services ask of the document store (`.sort({...})`) and of
 * `Array.prototype.sort` with a comparator: an insertion sort by a total preorder.
 * `le(a, b)` holds when the comparator lets `a` stand before `b`
 * (`compare(a, b) <= 0`).
 */
module Sorting {

  ghost predicate TotalPreorder<T(!new)>(le: (T, T) -> bool) {
    && (forall a, b :: le(a, b) || le(b, a))
    && (forall a, b, c :: le(a, b) && le(b, c) ==> le(a, c))
  }

  predicate Sorted<T>(s: seq<T>, le: (T, T) -> bool) {
    forall i, j :: 0 <= i < j < |s| ==> le(s[i], s[j])
  }

  /** Places `x` before the first element it may precede. */
  function Insert<T>(x: T, s: seq<T>, le: (T, T) -> bool): (r: seq<T>)
    ensures multiset(r) == multiset(s) + multiset{x}
    decreases |s|
  {
    if s == [] then [x]
    else if le(x, s[0]) then [x] + s
    else
      assert s == [s[0]] + s[1..];
      [s[0]] + Insert(x, s[1..], le)
  }

  /** Inserting into a sorted sequence keeps it sorted. */
  lemma {:induction false} InsertSorted<T(!new)>(x: T, s: seq<T>, le: (T, T) -> bool)
    requires TotalPreorder(le) && Sorted(s, le)
    ensures Sorted(Insert(x, s, le), le)
    decreases |s|
  {
    if s == [] {
    } else if le(x, s[0]) {
      var r := [x] + s;
      forall i, j | 0 <= i < j < |r| ensures le(r[i], r[j]) {
        if i == 0 {
          assert r[j] == s[j - 1];
          if j > 1 { assert le(s[0], s[j - 1]); }
        } else {
          assert r[i] == s[i - 1] && r[j] == s[j - 1];
        }
      }
    } else {
      assert le(s[0], x);
      InsertSorted(x, s[1..], le);
      var tail := Insert(x, s[1..], le);
      var r := [s[0]] + tail;
      forall k | 0 <= k < |tail| ensures le(s[0], tail[k]) {
        assert tail[k] in multiset(tail);
        assert tail[k] == x || tail[k] in multiset(s[1..]);
        if tail[k] != x {
          var m :| 0 <= m < |s[1..]| && s[1..][m] == tail[k];
          assert s[m + 1] == tail[k];
        }
      }
      forall i, j | 0 <= i < j < |r| ensures le(r[i], r[j]) {
        if i == 0 {
          assert r[j] == tail[j - 1];
        } else {
          assert r[i] == tail[i - 1] && r[j] == tail[j - 1];
        }
      }
    }
  }

  /** Insertion sort: a sorted permutation of `s`. */
  function SortBy<T(!new)>(s: seq<T>, le: (T, T) -> bool): (r: seq<T>)
    requires TotalPreorder(le)
    ensures multiset(r) == multiset(s)
    ensures |r| == |s|
    ensures Sorted(r, le)
    decreases |s|
  {
    if s == [] then []
    else
      assert s == [s[0]] + s[1..];
      InsertSorted(s[0], SortBy(s[1..], le), le);
      Insert(s[0], SortBy(s[1..], le), le)
  }

  /** An element of a sorted sequence that is past its first `n` may follow the `n`-th. */
  /** A prefix of a sorted sequence is sorted and takes each element at most as often as the whole. */
  lemma SortedPrefix<T>(s: seq<T>, n: nat, le: (T, T) -> bool)
    requires Sorted(s, le) && n <= |s|
    ensures Sorted(s[..n], le)
    ensures multiset(s[..n]) <= multiset(s)
    ensures forall x :: x in s[..n] ==> x in s
  {
    assert s == s[..n] + s[n..];
  }

  /** The first `n` elements of the sorted sequence (`.sort(...).limit(n)`). */
  function Page<T(!new)>(s: seq<T>, n: nat, le: (T, T) -> bool): (r: seq<T>)
    requires TotalPreorder(le) && n > 0
    ensures Sorted(r, le)
    ensures multiset(r) <= multiset(s)
    ensures forall x :: x in r ==> x in s
    ensures |r| == if |s| <= n then |s| else n
    ensures forall x :: x in s && x !in r ==> |r| == n && le(r[n - 1], x)
  {
    var sorted := SortBy(s, le);
    var k := if |sorted| <= n then |sorted| else n;
    SortedPrefix(sorted, k, le);
    PageLeavesOutOnlyLater(s, sorted, k, le);
    forall x | x in sorted[..k] ensures x in s {
      SortedMembers(s, le, x);
    }
    sorted[..k]
  }

  lemma PageLeavesOutOnlyLater<T(!new)>(s: seq<T>, sorted: seq<T>, k: nat, le: (T, T) -> bool)
    requires TotalPreorder(le) && sorted == SortBy(s, le) && k <= |sorted| && (k == 0 ==> sorted == [])
    ensures forall x :: x in s && x !in sorted[..k] ==> 0 < k < |sorted| && le(sorted[k - 1], x)
  {
    forall x | x in s && x !in sorted[..k] ensures 0 < k < |sorted| && le(sorted[k - 1], x) {
      SortedMembers(s, le, x);
      assert sorted[..|sorted|] == sorted;
      PastPrefix(sorted, k, x, le);
    }
  }

  lemma PastPrefix<T>(s: seq<T>, n: nat, x: T, le: (T, T) -> bool)
    requires Sorted(s, le) && 0 < n < |s| && x in s && x !in s[..n]
    ensures le(s[n - 1], x)
  {
    var j :| 0 <= j < |s| && s[j] == x;
    assert forall k :: 0 <= k < n ==> s[k] == s[..n][k];
  }

  /** The sort's output holds exactly the input's elements. */
  lemma SortedMembers<T(!new)>(s: seq<T>, le: (T, T) -> bool, x: T)
    requires TotalPreorder(le)
    ensures x in SortBy(s, le) <==> x in s
  {
    var r := SortBy(s, le);
    assert x in r <==> x in multiset(r);
    assert x in s <==> x in multiset(s);
  }
}
