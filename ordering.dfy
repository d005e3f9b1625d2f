/** `ORDER BY key ASC|DESC`, as both the ORM and the database SDK apply it
    to an album's photos: the rows come back as a permutation of the
    matching rows, sorted by the key in the requested direction. Ties may
    come back in any order; this model keeps them in input order. */
module Ordering {

  /** `a` may come before `b`. */
  predicate InOrder(a: int, b: int, ascending: bool) {
    if ascending then a <= b else a >= b
  }

  predicate SortedBy<T>(xs: seq<T>, key: T -> int, ascending: bool) {
    forall i, j :: 0 <= i < j < |xs| ==> InOrder(key(xs[i]), key(xs[j]), ascending)
  }

  function Insert<T>(x: T, xs: seq<T>, key: T -> int, ascending: bool): (r: seq<T>)
    requires SortedBy(xs, key, ascending)
    ensures multiset(r) == multiset(xs) + multiset{x}
    ensures SortedBy(r, key, ascending)
  {
    if xs == [] then [x]
    else if InOrder(key(x), key(xs[0]), ascending) then
      SortedCons(x, xs, key, ascending);
      [x] + xs
    else
      var tail := xs[1..];
      SortedTail(xs, key, ascending);
      var rest := Insert(x, tail, key, ascending);
      assert xs == [xs[0]] + tail;
      HeadComesFirst(xs[0], x, tail, rest, key, ascending);
      [xs[0]] + rest
  }

  /** A row that may precede the first row of a sorted list may precede
      all of it. */
  lemma SortedCons<T>(x: T, xs: seq<T>, key: T -> int, ascending: bool)
    requires xs != [] && SortedBy(xs, key, ascending)
    requires InOrder(key(x), key(xs[0]), ascending)
    ensures SortedBy([x] + xs, key, ascending)
  {
    var r := [x] + xs;
    forall i, j | 0 <= i < j < |r| ensures InOrder(key(r[i]), key(r[j]), ascending) {
      assert r[j] == xs[j - 1];
      if i > 0 {
        assert r[i] == xs[i - 1];
      } else {
        assert InOrder(key(xs[0]), key(xs[j - 1]), ascending);
      }
    }
  }

  /** Dropping the first row keeps a list sorted. */
  lemma SortedTail<T>(xs: seq<T>, key: T -> int, ascending: bool)
    requires xs != [] && SortedBy(xs, key, ascending)
    ensures SortedBy(xs[1..], key, ascending)
  {
    var tail := xs[1..];
    forall i, j | 0 <= i < j < |tail| ensures InOrder(key(tail[i]), key(tail[j]), ascending) {
      assert tail[i] == xs[i + 1] && tail[j] == xs[j + 1];
    }
  }

  /** A row that may precede `x` and every row of `tail` may head a sorted
      list made of `x` and the rows of `tail`. */
  lemma HeadComesFirst<T>(h: T, x: T, tail: seq<T>, rest: seq<T>, key: T -> int, ascending: bool)
    requires SortedBy([h] + tail, key, ascending)
    requires !InOrder(key(x), key(h), ascending)
    requires multiset(rest) == multiset(tail) + multiset{x}
    requires SortedBy(rest, key, ascending)
    ensures SortedBy([h] + rest, key, ascending)
  {
    var xs := [h] + tail;
    forall k | 0 <= k < |rest| ensures InOrder(key(h), key(rest[k]), ascending) {
      assert rest[k] in multiset(rest);
      if rest[k] != x {
        assert rest[k] in multiset(tail);
        var m :| 0 <= m < |tail| && tail[m] == rest[k];
        assert xs[m + 1] == rest[k] && xs[0] == h;
      }
    }
    var r := [h] + rest;
    forall i, j | 0 <= i < j < |r| ensures InOrder(key(r[i]), key(r[j]), ascending) {
      assert r[j] == rest[j - 1];
      if i > 0 {
        assert r[i] == rest[i - 1];
      }
    }
  }

  /** The rows in the requested order. */
  function OrderBy<T>(xs: seq<T>, key: T -> int, ascending: bool): (r: seq<T>)
    ensures multiset(r) == multiset(xs)
    ensures SortedBy(r, key, ascending)
  {
    if xs == [] then []
    else
      assert xs == xs[..|xs| - 1] + [xs[|xs| - 1]];
      Insert(xs[|xs| - 1], OrderBy(xs[..|xs| - 1], key, ascending), key, ascending)
  }
}
