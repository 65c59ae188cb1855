/** Stable sort into non-increasing order of a numeric key. It stands for
    `Array.prototype.sort((a, b) => key(b) - key(a))` (stable since ES2019)
    and for the document store's `.sort({ field: -1 })`. */
module Sorting {

  ghost predicate SortedDesc<T>(s: seq<T>, key: T -> real) {
    forall i, j :: 0 <= i < j < |s| ==> key(s[i]) >= key(s[j])
  }

  /** Puts `x` in front of the first element whose key is not larger, so `x`
      precedes the elements it ties with. */
  function Insert<T>(x: T, s: seq<T>, key: T -> real): (r: seq<T>)
    requires SortedDesc(s, key)
    ensures SortedDesc(r, key)
    ensures multiset(r) == multiset(s) + multiset{x}
    ensures |r| == |s| + 1
  {
    if s == [] || key(s[0]) <= key(x) then
      assert forall k :: 0 <= k < |s| ==> key(s[k]) <= key(s[0]);
      PrependSorted(x, s, key);
      [x] + s
    else
      var t := Insert(x, s[1..], key);
      assert s == [s[0]] + s[1..];
      BoundedPermutation(t, s[1..], x, key, key(s[0]));
      PrependSorted(s[0], t, key);
      [s[0]] + t
  }

  /** An element whose key bounds a sorted sequence can go in front of it. */
  lemma PrependSorted<T>(h: T, t: seq<T>, key: T -> real)
    requires SortedDesc(t, key)
    requires forall k :: 0 <= k < |t| ==> key(t[k]) <= key(h)
    ensures SortedDesc([h] + t, key)
  {
    forall i, j | 0 <= i < j < |[h] + t| ensures key(([h] + t)[i]) >= key(([h] + t)[j]) {
      assert ([h] + t)[j] == t[j - 1];
      if i > 0 {
        assert ([h] + t)[i] == t[i - 1];
      }
    }
  }

  /** A bound on the keys of `s` and of `x` bounds every key of a
      rearrangement of `s` with `x` added. */
  lemma BoundedPermutation<T>(t: seq<T>, s: seq<T>, x: T, key: T -> real, b: real)
    requires multiset(t) == multiset(s) + multiset{x}
    requires key(x) <= b && forall k :: 0 <= k < |s| ==> key(s[k]) <= b
    ensures forall k :: 0 <= k < |t| ==> key(t[k]) <= b
  {
    forall k | 0 <= k < |t| ensures key(t[k]) <= b {
      assert t[k] in multiset(t);
      assert t[k] == x || t[k] in s;
    }
  }

  /** Insertion sort by descending key. */
  function SortDesc<T>(s: seq<T>, key: T -> real): (r: seq<T>)
    ensures SortedDesc(r, key)
    ensures multiset(r) == multiset(s)
    ensures |r| == |s|
  {
    if s == [] then []
    else
      assert s == [s[0]] + s[1..];
      Insert(s[0], SortDesc(s[1..], key), key)
  }

  /** The elements of `s` whose key is `v`, in their order in `s`. */
  function WithKey<T>(s: seq<T>, key: T -> real, v: real): seq<T> {
    if s == [] then [] else (if key(s[0]) == v then [s[0]] else []) + WithKey(s[1..], key, v)
  }

  /** Inserting `x` puts it in front of the elements it ties with and keeps
      their order: among the elements of any one key, `x` comes first. */
  lemma {:induction false} InsertStable<T>(x: T, s: seq<T>, key: T -> real, v: real)
    requires SortedDesc(s, key)
    ensures WithKey(Insert(x, s, key), key, v) == (if key(x) == v then [x] else []) + WithKey(s, key, v)
  {
    var r := Insert(x, s, key);
    if s == [] || key(s[0]) <= key(x) {
      assert r[1..] == s;
    } else {
      var t := Insert(x, s[1..], key);
      assert r[1..] == t;
      InsertStable(x, s[1..], key, v);
    }
  }

  /** The sort is stable: the elements of any one key keep their input
      order, as `Array.prototype.sort` has promised since ES2019. */
  lemma {:induction false} SortDescStable<T>(s: seq<T>, key: T -> real)
    ensures forall v :: WithKey(SortDesc(s, key), key, v) == WithKey(s, key, v)
  {
    if s != [] {
      SortDescStable(s[1..], key);
      forall v ensures WithKey(SortDesc(s, key), key, v) == WithKey(s, key, v) {
        InsertStable(s[0], SortDesc(s[1..], key), key, v);
      }
    }
  }

  /** The first `n` elements of a descending sort are the top `n`: every
      element left out has a key no larger than any element kept. */
  lemma {:induction false} TopOfSorted<T>(s: seq<T>, key: T -> real, n: nat, x: T)
    requires SortedDesc(s, key)
    requires n <= |s|
    requires x in s && x !in s[..n]
    ensures forall k :: 0 <= k < n ==> key(x) <= key(s[k])
  {
    var j :| 0 <= j < |s| && s[j] == x;
  }
}
