// Python's `list.sort(key=...)` for keys that are pairs compared
// lexicographically: ascending, and equal keys keep their order.
module StableSort {

  type Key = (int, int)

  predicate KeyLe(a: Key, b: Key) {
    a.0 < b.0 || (a.0 == b.0 && a.1 <= b.1)
  }

  predicate Sorted<T>(key: T -> Key, s: seq<T>) {
    forall i, j :: 0 <= i < j < |s| ==> KeyLe(key(s[i]), key(s[j]))
  }

  // The members of s with key k, in order: what a stable sort must not disturb.
  function WithKey<T>(key: T -> Key, s: seq<T>, k: Key): seq<T> {
    if s == [] then []
    else (if key(s[0]) == k then [s[0]] else []) + WithKey(key, s[1..], k)
  }

  function Insert<T>(key: T -> Key, x: T, s: seq<T>): (r: seq<T>)
    ensures multiset(r) == multiset{x} + multiset(s)
  {
    if s == [] || KeyLe(key(x), key(s[0])) then [x] + s
    else
      assert s == [s[0]] + s[1..];
      [s[0]] + Insert(key, x, s[1..])
  }

  function Sort<T>(key: T -> Key, s: seq<T>): (r: seq<T>)
    ensures multiset(r) == multiset(s)
  {
    if s == [] then []
    else
      assert s == [s[0]] + s[1..];
      Insert(key, s[0], Sort(key, s[1..]))
  }

  lemma {:induction false} InsertKeepsSorted<T>(key: T -> Key, x: T, s: seq<T>)
    requires Sorted(key, s)
    ensures Sorted(key, Insert(key, x, s))
  {
    if s == [] || KeyLe(key(x), key(s[0])) {
    } else {
      var rest := Insert(key, x, s[1..]);
      InsertKeepsSorted(key, x, s[1..]);
      forall i | 0 <= i < |rest|
        ensures KeyLe(key(s[0]), key(rest[i]))
      {
        assert rest[i] in multiset(rest);
        assert rest[i] == x || rest[i] in s[1..];
      }
    }
  }

  lemma {:induction false} InsertIsStable<T>(key: T -> Key, x: T, s: seq<T>, k: Key)
    ensures WithKey(key, Insert(key, x, s), k) == (if key(x) == k then [x] else []) + WithKey(key, s, k)
  {
    if s == [] || KeyLe(key(x), key(s[0])) {
      assert ([x] + s)[1..] == s;
    } else {
      var rest := Insert(key, x, s[1..]);
      assert ([s[0]] + rest)[1..] == rest;
      InsertIsStable(key, x, s[1..], k);
    }
  }

  // Sorted, and for every key the members with that key come out in the order
  // they went in: together these determine the result.
  lemma {:induction false} SortSpec<T>(key: T -> Key, s: seq<T>)
    ensures Sorted(key, Sort(key, s))
    ensures forall k :: WithKey(key, Sort(key, s), k) == WithKey(key, s, k)
  {
    if s == [] {
    } else {
      var rest := Sort(key, s[1..]);
      SortSpec(key, s[1..]);
      InsertKeepsSorted(key, s[0], rest);
      forall k ensures WithKey(key, Sort(key, s), k) == WithKey(key, s, k) {
        InsertIsStable(key, s[0], rest, k);
      }
    }
  }

  lemma {:induction false} SortMembers<T>(key: T -> Key, s: seq<T>)
    ensures |Sort(key, s)| == |s|
    ensures forall x :: x in Sort(key, s) <==> x in s
  {
    var r := Sort(key, s);
    assert |multiset(r)| == |r| && |multiset(s)| == |s|;
    forall x ensures x in r <==> x in s {
      assert x in multiset(r) <==> x in multiset(s);
    }
  }
}
