/** `sorted(xs, key=...)`: the one stable order by a key. */
module Sorting {
  /** Where `x` goes among rows already in order: after every row whose key is no greater. */
  function Place<T>(xs: seq<T>, x: T, key: T -> int): seq<T> {
    if xs == [] || key(xs[|xs| - 1]) <= key(x) then xs + [x]
    else Place(xs[..|xs| - 1], x, key) + [xs[|xs| - 1]]
  }

  function Sorted<T>(xs: seq<T>, key: T -> int): seq<T> {
    if xs == [] then [] else Place(Sorted(xs[..|xs| - 1], key), xs[|xs| - 1], key)
  }

  ghost predicate Ascending<T>(xs: seq<T>, key: T -> int) {
    forall i, j :: 0 <= i < j < |xs| ==> key(xs[i]) <= key(xs[j])
  }

  ghost predicate StrictlyAscending<T>(xs: seq<T>, key: T -> int) {
    forall i, j :: 0 <= i < j < |xs| ==> key(xs[i]) < key(xs[j])
  }

  /** The rows with one key, in the order they stand. */
  function Keyed<T>(xs: seq<T>, key: T -> int, k: int): seq<T> {
    if xs == [] then [] else
      Keyed(xs[..|xs| - 1], key, k) + if key(xs[|xs| - 1]) == k then [xs[|xs| - 1]] else []
  }

  lemma {:induction false} PlacePermutes<T>(xs: seq<T>, x: T, key: T -> int)
    ensures multiset(Place(xs, x, key)) == multiset(xs) + multiset{x}
  {
    if xs != [] && key(xs[|xs| - 1]) > key(x) {
      var n := |xs| - 1;
      PlacePermutes(xs[..n], x, key);
      assert xs == xs[..n] + [xs[n]];
    }
  }

  lemma {:induction false} PlaceAscends<T>(xs: seq<T>, x: T, key: T -> int)
    requires Ascending(xs, key)
    ensures Ascending(Place(xs, x, key), key)
    ensures forall i :: 0 <= i < |Place(xs, x, key)| ==>
              key(Place(xs, x, key)[i]) <= key(x) || (xs != [] && key(Place(xs, x, key)[i]) <= key(xs[|xs| - 1]))
  {
    if xs != [] && key(xs[|xs| - 1]) > key(x) {
      PlaceAscends(xs[..|xs| - 1], x, key);
    }
  }

  lemma {:induction false} KeyedOfPlace<T>(xs: seq<T>, x: T, key: T -> int, k: int)
    requires Ascending(xs, key)
    ensures Keyed(Place(xs, x, key), key, k) == Keyed(xs, key, k) + if key(x) == k then [x] else []
  {
    if xs == [] || key(xs[|xs| - 1]) <= key(x) {
      assert (xs + [x])[..|xs|] == xs;
    } else {
      var n := |xs| - 1;
      KeyedOfPlace(xs[..n], x, key, k);
      var placed := Place(xs[..n], x, key);
      assert (placed + [xs[n]])[..|placed|] == placed;
    }
  }

  lemma {:induction false} SortedAscends<T>(xs: seq<T>, key: T -> int)
    ensures Ascending(Sorted(xs, key), key)
  {
    if xs != [] {
      SortedAscends(xs[..|xs| - 1], key);
      PlaceAscends(Sorted(xs[..|xs| - 1], key), xs[|xs| - 1], key);
    }
  }

  lemma {:induction false} SortedPermutes<T>(xs: seq<T>, key: T -> int)
    ensures multiset(Sorted(xs, key)) == multiset(xs)
  {
    if xs != [] {
      var n := |xs| - 1;
      SortedPermutes(xs[..n], key);
      PlacePermutes(Sorted(xs[..n], key), xs[n], key);
      assert xs == xs[..n] + [xs[n]];
    }
  }

  lemma {:induction false} SortedIsStable<T>(xs: seq<T>, key: T -> int, k: int)
    ensures Keyed(Sorted(xs, key), key, k) == Keyed(xs, key, k)
  {
    if xs != [] {
      var n := |xs| - 1;
      SortedIsStable(xs[..n], key, k);
      SortedAscends(xs[..n], key);
      KeyedOfPlace(Sorted(xs[..n], key), xs[n], key, k);
    }
  }

  /** The result is in order, a permutation of the rows, and keeps rows with equal keys in the order
      they came. */
  lemma SortedSorts<T>(xs: seq<T>, key: T -> int)
    ensures Ascending(Sorted(xs, key), key)
    ensures multiset(Sorted(xs, key)) == multiset(xs)
    ensures forall k :: Keyed(Sorted(xs, key), key, k) == Keyed(xs, key, k)
  {
    SortedAscends(xs, key);
    SortedPermutes(xs, key);
    forall k ensures Keyed(Sorted(xs, key), key, k) == Keyed(xs, key, k) {
      SortedIsStable(xs, key, k);
    }
  }

  ghost predicate Distinct<T>(xs: seq<T>, key: T -> int) {
    forall i, j :: 0 <= i < j < |xs| ==> key(xs[i]) != key(xs[j])
  }

  lemma LastIsGreatest<T>(xs: seq<T>, x: T, key: T -> int)
    requires StrictlyAscending(xs, key) && xs != [] && x in multiset(xs)
    ensures key(x) < key(xs[|xs| - 1]) || x == xs[|xs| - 1]
  {
    var i :| 0 <= i < |xs| && xs[i] == x;
  }

  lemma WithoutLast<T>(xs: seq<T>)
    requires xs != []
    ensures multiset(xs[..|xs| - 1]) == multiset(xs) - multiset{xs[|xs| - 1]}
    ensures xs[|xs| - 1] in multiset(xs)
  {
    assert xs == xs[..|xs| - 1] + [xs[|xs| - 1]];
  }

  lemma SameLast<T>(xs: seq<T>, ys: seq<T>, key: T -> int)
    requires StrictlyAscending(xs, key) && StrictlyAscending(ys, key) && multiset(xs) == multiset(ys)
    requires xs != [] && ys != []
    ensures xs[|xs| - 1] == ys[|ys| - 1]
    ensures multiset(xs[..|xs| - 1]) == multiset(ys[..|ys| - 1])
  {
    WithoutLast(xs);
    WithoutLast(ys);
    LastIsGreatest(xs, ys[|ys| - 1], key);
    LastIsGreatest(ys, xs[|xs| - 1], key);
  }

  lemma EmptyTogether<T>(xs: seq<T>, ys: seq<T>)
    requires multiset(xs) == multiset(ys)
    ensures xs == [] <==> ys == []
  {
    if xs != [] { assert xs[0] in multiset(ys); }
    if ys != [] { assert ys[0] in multiset(xs); }
  }

  /** Rows with distinct keys have one order. */
  lemma {:induction false} OneStrictOrder<T>(xs: seq<T>, ys: seq<T>, key: T -> int)
    requires StrictlyAscending(xs, key) && StrictlyAscending(ys, key) && multiset(xs) == multiset(ys)
    ensures xs == ys
    decreases |xs|
  {
    EmptyTogether(xs, ys);
    if xs != [] {
      SameLast(xs, ys, key);
      OneStrictOrder(xs[..|xs| - 1], ys[..|ys| - 1], key);
      assert xs == xs[..|xs| - 1] + [xs[|xs| - 1]] && ys == ys[..|ys| - 1] + [ys[|ys| - 1]];
    }
  }

  lemma {:induction false} KeyedFinds<T>(xs: seq<T>, key: T -> int, k: int)
    requires Keyed(xs, key, k) != []
    ensures exists i :: 0 <= i < |xs| && key(xs[i]) == k
  {
    var n := |xs| - 1;
    if key(xs[n]) != k {
      KeyedFinds(xs[..n], key, k);
      var i :| 0 <= i < n && key(xs[..n][i]) == k;
      assert key(xs[i]) == k;
    }
  }

  lemma {:induction false} DistinctKeysOnce<T>(xs: seq<T>, key: T -> int, k: int)
    requires Distinct(xs, key)
    ensures |Keyed(xs, key, k)| <= 1
  {
    if xs != [] {
      var n := |xs| - 1;
      DistinctKeysOnce(xs[..n], key, k);
      if key(xs[n]) == k && Keyed(xs[..n], key, k) != [] {
        KeyedFinds(xs[..n], key, k);
      }
    }
  }

  lemma {:induction false} EqualKeysTwice<T>(xs: seq<T>, key: T -> int, i: nat, j: nat)
    requires i < j < |xs| && key(xs[i]) == key(xs[j])
    ensures |Keyed(xs, key, key(xs[i]))| >= 2
  {
    var n := |xs| - 1;
    if j < n {
      EqualKeysTwice(xs[..n], key, i, j);
    } else {
      KeyedOnce(xs[..n], key, i);
    }
  }

  lemma {:induction false} KeyedOnce<T>(xs: seq<T>, key: T -> int, i: nat)
    requires i < |xs|
    ensures |Keyed(xs, key, key(xs[i]))| >= 1
  {
    if i < |xs| - 1 {
      KeyedOnce(xs[..|xs| - 1], key, i);
    }
  }

  lemma SortedStrictly<T>(xs: seq<T>, key: T -> int)
    requires Distinct(xs, key)
    ensures StrictlyAscending(Sorted(xs, key), key)
  {
    SortedSorts(xs, key);
    var ys := Sorted(xs, key);
    forall i, j | 0 <= i < j < |ys| ensures key(ys[i]) < key(ys[j]) {
      if key(ys[i]) == key(ys[j]) {
        DistinctKeysOnce(xs, key, key(ys[i]));
        EqualKeysTwice(ys, key, i, j);
      }
    }
  }

  /** The sort of rows with distinct keys does not depend on the order they came in. */
  lemma SortedForgetsOrder<T>(xs: seq<T>, ys: seq<T>, key: T -> int)
    requires multiset(xs) == multiset(ys) && Distinct(xs, key) && Distinct(ys, key)
    ensures Sorted(xs, key) == Sorted(ys, key)
  {
    SortedStrictly(xs, key);
    SortedStrictly(ys, key);
    SortedSorts(xs, key);
    SortedSorts(ys, key);
    OneStrictOrder(Sorted(xs, key), Sorted(ys, key), key);
  }
}
