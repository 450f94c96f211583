/**
 * `items.reduce((groups, item) => { (groups[key(item)] ??= []).push(item); return groups }, {})`:
 * a left fold that files every item under its key, creating a group the first
 * time a key is seen.
 */
module Grouping {

  /** The items with key `k`, in their original order. */
  function WithKey<T(==,!new), K(==,!new)>(s: seq<T>, key: T -> K, k: K): (r: seq<T>)
    ensures forall x :: x in r <==> x in s && key(x) == k
    ensures |r| <= |s|
    decreases |s|
  {
    if s == [] then []
    else
      var front := s[..|s| - 1];
      assert s == front + [s[|s| - 1]];
      WithKey(front, key, k) + (if key(s[|s| - 1]) == k then [s[|s| - 1]] else [])
  }

  /** No item has key `k`, so its group would be empty. */
  lemma {:induction false} NoneWithKey<T(!new), K(!new)>(s: seq<T>, key: T -> K, k: K)
    requires forall i :: 0 <= i < |s| ==> key(s[i]) != k
    ensures WithKey(s, key, k) == []
    decreases |s|
  {
    if s != [] {
      NoneWithKey(s[..|s| - 1], key, k);
    }
  }

  /** The three facts `GroupBy` promises about `groups` for the items `s`. */
  ghost predicate Grouped<T(!new), K(!new)>(s: seq<T>, key: T -> K, groups: map<K, seq<T>>) {
    && (forall k :: k in groups <==> exists i :: 0 <= i < |s| && key(s[i]) == k)
    && (forall k :: k in groups ==> groups[k] == WithKey(s, key, k))
    && (forall k :: k in groups ==> |groups[k]| > 0)
  }

  /** The group of `k` after one more item: that item joins it when its key is `k`. */
  lemma WithKeySnoc<T(!new), K(!new)>(front: seq<T>, x: T, key: T -> K, k: K)
    ensures WithKey(front + [x], key, k) == WithKey(front, key, k) + (if key(x) == k then [x] else [])
  {
    assert (front + [x])[..|front|] == front;
  }

  /** Filing one more item keeps the groups right. */
  lemma GroupStep<T(!new), K(!new)>(front: seq<T>, x: T, key: T -> K, g: map<K, seq<T>>)
    requires Grouped(front, key, g)
    ensures Grouped(front + [x], key, if key(x) in g then g[key(x) := g[key(x)] + [x]] else g[key(x) := [x]])
  {
    var s := front + [x];
    var g' := if key(x) in g then g[key(x) := g[key(x)] + [x]] else g[key(x) := [x]];
    forall k | k in g'
      ensures exists i :: 0 <= i < |s| && key(s[i]) == k
    {
      if k == key(x) {
        assert key(s[|front|]) == k;
      } else {
        var i :| 0 <= i < |front| && key(front[i]) == k;
        assert key(s[i]) == k;
      }
    }
    forall k | exists i :: 0 <= i < |s| && key(s[i]) == k
      ensures k in g'
    {
      var i :| 0 <= i < |s| && key(s[i]) == k;
      if i < |front| {
        assert key(front[i]) == k;
      }
    }
    forall k | k in g'
      ensures g'[k] == WithKey(s, key, k)
    {
      WithKeySnoc(front, x, key, k);
      if k == key(x) && key(x) !in g {
        NoneWithKey(front, key, k);
      }
    }
  }

  /** The fold itself, item by item from the left. */
  function GroupBy<T(==,!new), K(==,!new)>(s: seq<T>, key: T -> K): (groups: map<K, seq<T>>)
    ensures forall k :: k in groups <==> exists i :: 0 <= i < |s| && key(s[i]) == k
    ensures forall k :: k in groups ==> groups[k] == WithKey(s, key, k)
    ensures forall k :: k in groups ==> |groups[k]| > 0
    decreases |s|
  {
    if s == [] then map[]
    else
      var front := s[..|s| - 1];
      var x := s[|s| - 1];
      var g := GroupBy(front, key);
      assert s == front + [x];
      GroupStep(front, x, key, g);
      if key(x) in g then g[key(x) := g[key(x)] + [x]] else g[key(x) := [x]]
  }

  /** Every item lands in the group of its own key, and only there. */
  lemma {:induction false} ItemInOwnGroup<T(!new), K(!new)>(s: seq<T>, key: T -> K, x: T, k: K)
    requires x in s
    ensures key(x) in GroupBy(s, key)
    ensures k in GroupBy(s, key) ==> (x in GroupBy(s, key)[k] <==> key(x) == k)
  {
    var i :| 0 <= i < |s| && s[i] == x;
    var g := GroupBy(s, key);
    assert key(s[i]) in g;
  }
}
