/** Rust's stable `sort_by_key`, as an insertion sort on a lexicographic key, with the facts that
    pin a stable sort down: sorted, same elements, and each key's elements in their old order. */
module Sorting {
  import opened Sequences

  datatype Key = Key(rank: int, time: int)

  predicate KeyLe(a: Key, b: Key) {
    a.rank < b.rank || (a.rank == b.rank && a.time <= b.time)
  }

  predicate SortedBy<T>(key: T -> Key, xs: seq<T>) {
    forall i, j :: 0 <= i < j < |xs| ==> KeyLe(key(xs[i]), key(xs[j]))
  }

  /** The elements of `xs` that satisfy `p`, in order. */
  function Filter<T>(p: T -> bool, xs: seq<T>): seq<T> {
    if xs == [] then [] else (if p(xs[0]) then [xs[0]] else []) + Filter(p, xs[1..])
  }

  /** The elements of `xs` whose key is `k`, in order. */
  function WithKey<T>(key: T -> Key, k: Key, xs: seq<T>): seq<T> {
    if xs == [] then [] else (if key(xs[0]) == k then [xs[0]] else []) + WithKey(key, k, xs[1..])
  }

  /** Puts `x` in front of the first element whose key is not smaller. */
  function Insert<T>(key: T -> Key, x: T, xs: seq<T>): seq<T> {
    if xs == [] then [x]
    else if KeyLe(key(x), key(xs[0])) then [x] + xs
    else [xs[0]] + Insert(key, x, xs[1..])
  }

  function StableSort<T>(key: T -> Key, xs: seq<T>): seq<T> {
    if xs == [] then [] else Insert(key, xs[0], StableSort(key, xs[1..]))
  }

  lemma {:induction false} FilterConcat<T>(p: T -> bool, xs: seq<T>, ys: seq<T>)
    ensures Filter(p, xs + ys) == Filter(p, xs) + Filter(p, ys)
  {
    if xs == [] {
      assert xs + ys == ys;
    } else {
      assert (xs + ys)[0] == xs[0] && (xs + ys)[1..] == xs[1..] + ys;
      FilterConcat(p, xs[1..], ys);
      Associates(if p(xs[0]) then [xs[0]] else [], Filter(p, xs[1..]), Filter(p, ys));
    }
  }

  lemma {:induction false} InsertElements<T>(key: T -> Key, x: T, xs: seq<T>)
    ensures multiset(Insert(key, x, xs)) == multiset{x} + multiset(xs)
  {
    if xs != [] {
      assert xs == [xs[0]] + xs[1..];
      InsertElements(key, x, xs[1..]);
    }
  }

  lemma {:induction false} InsertSorted<T>(key: T -> Key, x: T, xs: seq<T>)
    requires SortedBy(key, xs)
    ensures SortedBy(key, Insert(key, x, xs))
  {
    if xs != [] && !KeyLe(key(x), key(xs[0])) {
      InsertSorted(key, x, xs[1..]);
      var tail := Insert(key, x, xs[1..]);
      InsertElements(key, x, xs[1..]);
      forall i | 0 <= i < |tail| ensures KeyLe(key(xs[0]), key(tail[i])) {
        assert tail[i] in multiset(tail);
      }
    }
  }

  lemma {:induction false} InsertStable<T>(key: T -> Key, x: T, xs: seq<T>, k: Key)
    requires SortedBy(key, xs)
    ensures WithKey(key, k, Insert(key, x, xs)) == (if key(x) == k then [x] else []) + WithKey(key, k, xs)
  {
    if xs == [] || KeyLe(key(x), key(xs[0])) {
      assert ([x] + xs)[1..] == xs;
    } else {
      InsertStable(key, x, xs[1..], k);
      assert Insert(key, x, xs)[1..] == Insert(key, x, xs[1..]);
      assert key(x) != key(xs[0]);
    }
  }

  lemma {:induction false} StableSortSorted<T>(key: T -> Key, xs: seq<T>)
    ensures SortedBy(key, StableSort(key, xs))
  {
    if xs != [] {
      StableSortSorted(key, xs[1..]);
      InsertSorted(key, xs[0], StableSort(key, xs[1..]));
    }
  }

  lemma {:induction false} StableSortElements<T>(key: T -> Key, xs: seq<T>)
    ensures multiset(StableSort(key, xs)) == multiset(xs)
  {
    if xs != [] {
      StableSortElements(key, xs[1..]);
      InsertElements(key, xs[0], StableSort(key, xs[1..]));
      assert xs == [xs[0]] + xs[1..];
    }
  }

  /** Elements with equal keys keep their order. */
  lemma {:induction false} StableSortStable<T>(key: T -> Key, xs: seq<T>, k: Key)
    ensures WithKey(key, k, StableSort(key, xs)) == WithKey(key, k, xs)
  {
    if xs != [] {
      StableSortStable(key, xs[1..], k);
      StableSortSorted(key, xs[1..]);
      InsertStable(key, xs[0], StableSort(key, xs[1..]), k);
    }
  }

  lemma TailElements<T>(xs: seq<T>)
    requires xs != []
    ensures multiset(xs[1..]) == multiset(xs) - multiset{xs[0]}
  {
    assert xs == [xs[0]] + xs[1..];
  }

  /** The least element of a sorted sequence comes first. */
  lemma HeadIsLeast<T>(key: T -> Key, xs: seq<T>, x: T)
    requires SortedBy(key, xs) && x in multiset(xs)
    ensures xs != [] && KeyLe(key(xs[0]), key(x))
  {
    var i :| 0 <= i < |xs| && xs[i] == x;
  }

  lemma SameHead<T>(key: T -> Key, xs: seq<T>, ys: seq<T>)
    requires SortedBy(key, xs) && SortedBy(key, ys) && multiset(xs) == multiset(ys) && xs != []
    requires forall i, j :: 0 <= i < j < |xs| ==> key(xs[i]) != key(xs[j])
    ensures ys != [] && xs[0] == ys[0]
  {
    assert xs[0] in multiset(ys);
    HeadIsLeast(key, ys, xs[0]);
    assert ys[0] in multiset(xs);
    HeadIsLeast(key, xs, ys[0]);
    var i :| 0 <= i < |xs| && xs[i] == ys[0];
  }

  /** Two sorted sequences with the same elements, no two of them with equal keys, are equal. */
  lemma {:induction false} StrictSortUnique<T>(key: T -> Key, xs: seq<T>, ys: seq<T>)
    requires SortedBy(key, xs) && SortedBy(key, ys)
    requires multiset(xs) == multiset(ys)
    requires forall i, j :: 0 <= i < j < |xs| ==> key(xs[i]) != key(xs[j])
    ensures xs == ys
  {
    if xs == [] {
      assert |multiset(ys)| == 0;
    } else {
      SameHead(key, xs, ys);
      TailElements(xs);
      TailElements(ys);
      StrictSortUnique(key, xs[1..], ys[1..]);
      assert xs == [xs[0]] + xs[1..] && ys == [ys[0]] + ys[1..];
    }
  }
}
