/** A stable sort by an integer key, on values.

    The modelled code sorts with two library routines: `radsort::sort_by_cached_key`
    (a stable radix sort; the brick instances, by distance) and `slice::sort` (a stable
    merge sort; the timing samples). Their algorithms are not modelled, only what they
    promise: the result is ordered by the key, is a permutation of the input, and keeps
    the input order among equal keys. `SortByKey` is an insertion sort that is proved
    to have exactly these three properties. */
module Sorting {

  /** Non-decreasing in `key`. */
  ghost predicate SortedBy<T>(s: seq<T>, key: T -> int)
  {
    forall i, j :: 0 <= i < j < |s| ==> key(s[i]) <= key(s[j])
  }

  /** The elements of `s` whose key is `k`, in the order of `s`. */
  function KeyClass<T>(s: seq<T>, key: T -> int, k: int): seq<T>
  {
    if s == [] then []
    else (if key(s[0]) == k then [s[0]] else []) + KeyClass(s[1..], key, k)
  }

  /** Puts `x` in front of the first element whose key is at least `x`'s. */
  function Insert<T>(x: T, s: seq<T>, key: T -> int): seq<T>
  {
    if s == [] then [x]
    else if key(x) <= key(s[0]) then [x] + s
    else [s[0]] + Insert(x, s[1..], key)
  }

  /** Inserting adds exactly `x`. */
  lemma {:induction false} InsertPermutes<T>(x: T, s: seq<T>, key: T -> int)
    ensures multiset(Insert(x, s, key)) == multiset(s) + multiset{x}
  {
    if s != [] && key(x) > key(s[0]) {
      InsertPermutes(x, s[1..], key);
      assert s == [s[0]] + s[1..];
    }
  }

  /** Inserting into an ordered sequence keeps it ordered. */
  lemma {:induction false} InsertSorted<T>(x: T, s: seq<T>, key: T -> int)
    requires SortedBy(s, key)
    ensures SortedBy(Insert(x, s, key), key)
  {
    if s != [] && key(x) > key(s[0]) {
      var rest := Insert(x, s[1..], key);
      assert SortedBy(s[1..], key);
      InsertSorted(x, s[1..], key);
      InsertPermutes(x, s[1..], key);
      forall i | 0 <= i < |rest|
        ensures key(s[0]) <= key(rest[i])
      {
        assert rest[i] in multiset(rest);
        if rest[i] != x {
          assert rest[i] in multiset(s[1..]);
          var j :| 0 <= j < |s[1..]| && s[1..][j] == rest[i];
          assert s[j + 1] == rest[i];
        }
      }
      ConsSorted(s[0], rest, key);
    }
  }

  lemma ConsSorted<T>(y: T, s: seq<T>, key: T -> int)
    requires SortedBy(s, key)
    requires forall i :: 0 <= i < |s| ==> key(y) <= key(s[i])
    ensures SortedBy([y] + s, key)
  {
    var r := [y] + s;
    forall i, j | 0 <= i < j < |r|
      ensures key(r[i]) <= key(r[j])
    {
      assert r[j] == s[j - 1];
      if i > 0 {
        assert r[i] == s[i - 1];
      }
    }
  }

  /** The result is ordered by `key` and holds the same elements as `s`. */
  function SortByKey<T>(s: seq<T>, key: T -> int): (r: seq<T>)
    ensures SortedBy(r, key)
    ensures multiset(r) == multiset(s)
  {
    if s == [] then []
    else
      var sorted := SortByKey(s[1..], key);
      InsertSorted(s[0], sorted, key);
      InsertPermutes(s[0], sorted, key);
      assert s == [s[0]] + s[1..];
      Insert(s[0], sorted, key)
  }

  lemma KeyClassCons<T>(y: T, s: seq<T>, key: T -> int, k: int)
    ensures KeyClass([y] + s, key, k) == (if key(y) == k then [y] else []) + KeyClass(s, key, k)
  {
    assert ([y] + s)[1..] == s;
  }

  /** Inserting `x` puts it in its key class after nothing that came before it. */
  lemma {:induction false} InsertStable<T>(x: T, t: seq<T>, key: T -> int, k: int)
    ensures KeyClass(Insert(x, t, key), key, k)
         == (if key(x) == k then [x] else []) + KeyClass(t, key, k)
  {
    if t == [] {
      KeyClassCons(x, t, key, k);
      assert [x] + t == [x];
    } else if key(x) <= key(t[0]) {
      KeyClassCons(x, t, key, k);
    } else {
      var rest := Insert(x, t[1..], key);
      assert Insert(x, t, key) == [t[0]] + rest;
      InsertStable(x, t[1..], key, k);
      KeyClassCons(t[0], rest, key, k);
      KeyClassCons(t[0], t[1..], key, k);
      assert t == [t[0]] + t[1..];
      if key(t[0]) == k {
        assert key(x) != k;
      }
    }
  }

  /** Stability: for every key, the elements with that key keep their input order. */
  lemma {:induction false} SortByKeyStable<T>(s: seq<T>, key: T -> int, k: int)
    ensures KeyClass(SortByKey(s, key), key, k) == KeyClass(s, key, k)
  {
    if s != [] {
      SortByKeyStable(s[1..], key, k);
      InsertStable(s[0], SortByKey(s[1..], key), key, k);
    }
  }
}
