/** Sorting by a text key, and what it does not depend on. */
module TextSort {
  import opened Sorting

  /** The order of JavaScript's `<` on strings. */
  predicate Less(a: string, b: string) {
    if b == "" then false
    else if a == "" then true
    else a[0] < b[0] || (a[0] == b[0] && Less(a[1..], b[1..]))
  }

  lemma {:induction false} LessIsTotal(a: string, b: string)
    ensures Less(a, b) || Less(b, a) || a == b
    ensures !(Less(a, b) && Less(b, a)) && !Less(a, a)
    decreases |a|
  {
    if a != "" {
      LessIsTotal(a[1..], a[1..]);
      if b != "" {
        LessIsTotal(a[1..], b[1..]);
        assert a == [a[0]] + a[1..] && b == [b[0]] + b[1..];
      }
    }
  }

  lemma {:induction false} LessIsTransitive(a: string, b: string, c: string)
    requires Less(a, b) && Less(b, c)
    ensures Less(a, c)
    decreases |a|
  {
    if a != "" && a[0] == b[0] == c[0] {
      LessIsTransitive(a[1..], b[1..], c[1..]);
    }
  }

  function ByText<T>(key: T -> string): Order<T> {
    (x, y) => Less(key(x), key(y))
  }

  lemma TextsAreWeak<T(!new)>(key: T -> string)
    ensures Weak(ByText(key))
  {
    forall x, y | Less(key(x), key(y)) ensures !Less(key(y), key(x)) {
      LessIsTotal(key(x), key(y));
    }
    forall x, y, z | !Less(key(x), key(y)) && !Less(key(y), key(z)) ensures !Less(key(x), key(z)) {
      NotLessIsTransitive(key(x), key(y), key(z));
    }
  }

  lemma NotLessIsTransitive(a: string, b: string, c: string)
    requires !Less(a, b) && !Less(b, c)
    ensures !Less(a, c)
  {
    LessIsTotal(a, b);
    LessIsTotal(b, c);
    if Less(a, c) {
      if b == a {
        LessIsTotal(a, c);
      } else {
        LessIsTransitive(b, a, c);
      }
    }
  }

  ghost predicate Ascending<T>(key: T -> string, xs: seq<T>) {
    forall i, j | 0 <= i < j < |xs| :: Less(key(xs[i]), key(xs[j]))
  }

  predicate DistinctKeys<T>(key: T -> string, xs: seq<T>) {
    forall i, j | 0 <= i < j < |xs| :: key(xs[i]) != key(xs[j])
  }

  /** With distinct keys, nothing is left in the order the items came in. */
  lemma SortAscends<T(!new)>(key: T -> string, xs: seq<T>)
    requires DistinctKeys(key, xs)
    ensures Ascending(key, Sort(ByText(key), xs))
  {
    var r := Sort(ByText(key), xs);
    TextsAreWeak(key);
    SortIsOrdered(ByText(key), xs);
    SortKeepsItems(ByText(key), xs);
    DistinctForgetsOrder(key, xs, r);
    forall i, j | 0 <= i < j < |r| ensures Less(key(r[i]), key(r[j])) {
      assert !ByText(key)(r[j], r[i]);
      LessIsTotal(key(r[i]), key(r[j]));
    }
  }

  /** There is one way to put items in strictly ascending order. */
  lemma {:induction false} AscendingIsUnique<T>(key: T -> string, xs: seq<T>, ys: seq<T>)
    requires Ascending(key, xs) && Ascending(key, ys) && multiset(xs) == multiset(ys)
    ensures xs == ys
    decreases |xs|
  {
    if xs == [] {
      assert |multiset(ys)| == 0;
    } else {
      assert |multiset(xs)| == |multiset(ys)|;
      FirstIsLeast(key, xs, ys);
      assert xs == [xs[0]] + xs[1..] && ys == [ys[0]] + ys[1..];
      assert multiset(xs[1..]) == multiset(xs) - multiset{xs[0]};
      assert multiset(ys[1..]) == multiset(ys) - multiset{ys[0]};
      AscendingIsUnique(key, xs[1..], ys[1..]);
    }
  }

  lemma FirstIsLeast<T>(key: T -> string, xs: seq<T>, ys: seq<T>)
    requires Ascending(key, xs) && Ascending(key, ys) && multiset(xs) == multiset(ys) && xs != [] && ys != []
    ensures xs[0] == ys[0]
  {
    assert xs[0] in multiset(ys) && ys[0] in multiset(xs);
    var i :| 0 <= i < |ys| && ys[i] == xs[0];
    var j :| 0 <= j < |xs| && xs[j] == ys[0];
    if i > 0 && j > 0 {
      assert Less(key(ys[0]), key(ys[i])) && Less(key(xs[0]), key(xs[j]));
      LessIsTotal(key(xs[0]), key(ys[0]));
    }
  }

  lemma SortOfAscending<T(!new)>(key: T -> string, xs: seq<T>)
    requires Ascending(key, xs)
    ensures DistinctKeys(key, xs) && Sort(ByText(key), xs) == xs
  {
    forall i, j | 0 <= i < j < |xs| ensures key(xs[i]) != key(xs[j]) && !Less(key(xs[j]), key(xs[i])) {
      LessIsTotal(key(xs[i]), key(xs[j]));
    }
    OrderedStays(ByText(key), xs);
  }

  /** Sorting forgets the order in which items with distinct keys came. */
  lemma SortForgetsOrder<T(!new)>(key: T -> string, xs: seq<T>, ys: seq<T>)
    requires multiset(xs) == multiset(ys) && DistinctKeys(key, xs)
    ensures DistinctKeys(key, ys) && Sort(ByText(key), xs) == Sort(ByText(key), ys)
  {
    DistinctForgetsOrder(key, xs, ys);
    SortAscends(key, xs);
    SortAscends(key, ys);
    SortKeepsItems(ByText(key), xs);
    SortKeepsItems(ByText(key), ys);
    AscendingIsUnique(key, Sort(ByText(key), xs), Sort(ByText(key), ys));
  }

  lemma {:induction false} DistinctMeansOnce<T>(key: T -> string, xs: seq<T>, x: T)
    requires DistinctKeys(key, xs)
    ensures multiset(xs)[x] <= 1
    decreases |xs|
  {
    if xs != [] {
      DistinctMeansOnce(key, xs[1..], x);
      assert xs == [xs[0]] + xs[1..];
      forall z | z in xs[1..] ensures key(z) != key(xs[0]) {
        var k :| 0 <= k < |xs[1..]| && xs[1..][k] == z;
        assert z == xs[k + 1];
      }
    }
  }

  lemma TwiceMeansTwo<T>(ys: seq<T>, i: nat, j: nat)
    requires i < j < |ys| && ys[i] == ys[j]
    ensures multiset(ys)[ys[i]] >= 2
  {
    assert ys == ys[..j] + ys[j..];
    assert ys[i] in ys[..j] && ys[j] in ys[j..];
  }

  lemma DistinctForgetsOrder<T>(key: T -> string, xs: seq<T>, ys: seq<T>)
    requires multiset(xs) == multiset(ys) && DistinctKeys(key, xs)
    ensures DistinctKeys(key, ys)
  {
    forall i, j | 0 <= i < j < |ys| ensures key(ys[i]) != key(ys[j]) {
      if ys[i] == ys[j] {
        TwiceMeansTwo(ys, i, j);
        DistinctMeansOnce(key, xs, ys[i]);
      } else {
        assert ys[i] in multiset(xs) && ys[j] in multiset(xs);
        var h :| 0 <= h < |xs| && xs[h] == ys[i];
        var k :| 0 <= k < |xs| && xs[k] == ys[j];
        assert h != k;
      }
    }
  }
}
