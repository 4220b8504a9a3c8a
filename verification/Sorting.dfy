/** Stable sorting by any order, as JavaScript's arrays are sorted. */
module Sorting {

  type Order<!T> = (T, T) -> bool

  /** Before the first greater item, so after all that are as great. */
  function Insert<T>(less: Order<T>, xs: seq<T>, x: T): (r: seq<T>)
    ensures |r| == |xs| + 1
    decreases |xs|
  {
    if xs == [] || less(x, xs[0]) then [x] + xs else [xs[0]] + Insert(less, xs[1..], x)
  }

  function Sort<T>(less: Order<T>, xs: seq<T>): (r: seq<T>)
    ensures |r| == |xs|
    decreases |xs|
  {
    if xs == [] then [] else Insert(less, Sort(less, xs[..|xs| - 1]), xs[|xs| - 1])
  }

  /** No item is less than one in front of it. */
  ghost predicate Ordered<T>(less: Order<T>, xs: seq<T>) {
    forall i, j | 0 <= i < j < |xs| :: !less(xs[j], xs[i])
  }

  /** Being less is one-way, and not being less is transitive. */
  ghost predicate Weak<T(!new)>(less: Order<T>) {
    && (forall x, y | less(x, y) :: !less(y, x))
    && (forall x, y, z | !less(x, y) && !less(y, z) :: !less(x, z))
  }

  lemma {:induction false} InsertKeepsItems<T>(less: Order<T>, xs: seq<T>, x: T)
    ensures multiset(Insert(less, xs, x)) == multiset(xs) + multiset{x}
    decreases |xs|
  {
    if xs != [] && !less(x, xs[0]) {
      InsertKeepsItems(less, xs[1..], x);
      assert xs == [xs[0]] + xs[1..];
    }
  }

  lemma {:induction false} SortKeepsItems<T>(less: Order<T>, xs: seq<T>)
    ensures multiset(Sort(less, xs)) == multiset(xs)
    decreases |xs|
  {
    if xs != [] {
      var most, last := xs[..|xs| - 1], xs[|xs| - 1];
      SortKeepsItems(less, most);
      InsertKeepsItems(less, Sort(less, most), last);
      assert xs == most + [last];
    }
  }

  lemma SortKeepsMembers<T>(less: Order<T>, xs: seq<T>, x: T)
    ensures x in Sort(less, xs) <==> x in xs
  {
    SortKeepsItems(less, xs);
    assert x in multiset(Sort(less, xs)) <==> x in multiset(xs);
  }

  lemma InsertKeepsMembers<T>(less: Order<T>, xs: seq<T>, x: T, y: T)
    ensures y in Insert(less, xs, x) <==> y in xs || y == x
  {
    InsertKeepsItems(less, xs, x);
    assert y in multiset(Insert(less, xs, x)) <==> y in multiset(xs) || y == x;
  }

  lemma FirstPrecedes<T(!new)>(less: Order<T>, xs: seq<T>, x: T)
    requires Weak(less) && Ordered(less, xs) && xs != [] && less(x, xs[0])
    ensures Ordered(less, [x] + xs)
  {
    forall y | y in xs ensures !less(y, x) {
      var j :| 0 <= j < |xs| && xs[j] == y;
      assert !less(y, xs[0]) && !less(xs[0], x);
    }
  }

  lemma OrderedAfterFirst<T>(less: Order<T>, x: T, rest: seq<T>)
    requires Ordered(less, rest) && forall y | y in rest :: !less(y, x)
    ensures Ordered(less, [x] + rest)
  {
    forall j | 0 <= j < |rest| ensures !less(rest[j], x) {
      assert rest[j] in rest;
    }
  }

  lemma {:induction false} InsertIsOrdered<T(!new)>(less: Order<T>, xs: seq<T>, x: T)
    requires Weak(less) && Ordered(less, xs)
    ensures Ordered(less, Insert(less, xs, x))
    decreases |xs|
  {
    if xs != [] {
      if less(x, xs[0]) {
        FirstPrecedes(less, xs, x);
      } else {
        InsertIsOrdered(less, xs[1..], x);
        forall y | y in Insert(less, xs[1..], x) ensures !less(y, xs[0]) {
          InsertKeepsMembers(less, xs[1..], x, y);
        }
        OrderedAfterFirst(less, xs[0], Insert(less, xs[1..], x));
      }
    }
  }

  /** A sort by a sensible order puts the items in order. */
  lemma {:induction false} SortIsOrdered<T(!new)>(less: Order<T>, xs: seq<T>)
    requires Weak(less)
    ensures Ordered(less, Sort(less, xs))
    decreases |xs|
  {
    if xs != [] {
      SortIsOrdered(less, xs[..|xs| - 1]);
      InsertIsOrdered(less, Sort(less, xs[..|xs| - 1]), xs[|xs| - 1]);
    }
  }

  lemma {:induction false} InsertLast<T>(less: Order<T>, xs: seq<T>, x: T)
    requires forall i | 0 <= i < |xs| :: !less(x, xs[i])
    ensures Insert(less, xs, x) == xs + [x]
    decreases |xs|
  {
    if xs != [] {
      InsertLast(less, xs[1..], x);
      assert xs == [xs[0]] + xs[1..];
    }
  }

  /** What is in order stays as it is. */
  lemma {:induction false} OrderedStays<T>(less: Order<T>, xs: seq<T>)
    requires Ordered(less, xs)
    ensures Sort(less, xs) == xs
    decreases |xs|
  {
    if xs != [] {
      var most := xs[..|xs| - 1];
      OrderedStays(less, most);
      InsertLast(less, most, xs[|xs| - 1]);
    }
  }
}
