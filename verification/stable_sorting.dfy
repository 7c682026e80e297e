/** Stable sorting by a total preorder, the behaviour of `list.sort`: what it guarantees and that this fixes the
    result. */
module StableSorting {

  ghost predicate TotalPreorder<T(!new)>(le: (T, T) -> bool) {
    && (forall a, b :: le(a, b) || le(b, a))
    && (forall a, b, c :: le(a, b) && le(b, c) ==> le(a, c))
  }

  predicate SortedBy<T>(xs: seq<T>, le: (T, T) -> bool) {
    forall i, j :: 0 <= i < j < |xs| ==> le(xs[i], xs[j])
  }

  /** The elements that tie with `pivot`, in the order they appear. */
  function Ties<T>(xs: seq<T>, pivot: T, le: (T, T) -> bool): seq<T> {
    if xs == [] then []
    else (if le(xs[0], pivot) && le(pivot, xs[0]) then [xs[0]] else []) + Ties(xs[1..], pivot, le)
  }

  function Insert<T>(x: T, sorted: seq<T>, le: (T, T) -> bool): seq<T> {
    if sorted == [] || le(x, sorted[0]) then [x] + sorted
    else [sorted[0]] + Insert(x, sorted[1..], le)
  }

  function Sort<T>(xs: seq<T>, le: (T, T) -> bool): seq<T> {
    if xs == [] then [] else Insert(xs[0], Sort(xs[1..], le), le)
  }

  lemma {:induction false} InsertKeepsElements<T>(x: T, sorted: seq<T>, le: (T, T) -> bool)
    ensures multiset(Insert(x, sorted, le)) == multiset{x} + multiset(sorted)
  {
    if sorted == [] || le(x, sorted[0]) {
    } else {
      InsertKeepsElements(x, sorted[1..], le);
      assert sorted == [sorted[0]] + sorted[1..];
    }
  }

  lemma {:induction false} InsertSorts<T(!new)>(x: T, sorted: seq<T>, le: (T, T) -> bool)
    requires TotalPreorder(le) && SortedBy(sorted, le)
    ensures SortedBy(Insert(x, sorted, le), le)
  {
    if sorted == [] || le(x, sorted[0]) {
    } else {
      var rest := Insert(x, sorted[1..], le);
      InsertSorts(x, sorted[1..], le);
      forall y | y in rest ensures le(sorted[0], y) {
        InsertKeepsElements(x, sorted[1..], le);
        assert y in multiset(rest);
        assert y == x || y in sorted[1..];
      }
      HeadSorts(sorted[0], rest, le);
    }
  }

  lemma HeadSorts<T>(head: T, rest: seq<T>, le: (T, T) -> bool)
    requires SortedBy(rest, le) && forall y :: y in rest ==> le(head, y)
    ensures SortedBy([head] + rest, le)
  {
  }

  lemma {:induction false} InsertKeepsTies<T(!new)>(x: T, sorted: seq<T>, pivot: T, le: (T, T) -> bool)
    requires TotalPreorder(le) && SortedBy(sorted, le)
    ensures Ties(Insert(x, sorted, le), pivot, le) == Ties([x] + sorted, pivot, le)
  {
    assert ([x] + sorted)[1..] == sorted;
    if sorted == [] || le(x, sorted[0]) {
    } else {
      var rest := Insert(x, sorted[1..], le);
      InsertKeepsTies(x, sorted[1..], pivot, le);
      assert ([sorted[0]] + rest)[1..] == rest;
      assert ([x] + sorted[1..])[1..] == sorted[1..];
    }
  }

  /** The result is sorted, has the same elements, and keeps ties in their original order. */
  lemma {:induction false} SortIsStable<T(!new)>(xs: seq<T>, le: (T, T) -> bool)
    requires TotalPreorder(le)
    ensures SortedBy(Sort(xs, le), le)
    ensures multiset(Sort(xs, le)) == multiset(xs) && |Sort(xs, le)| == |xs|
    ensures forall pivot :: Ties(Sort(xs, le), pivot, le) == Ties(xs, pivot, le)
  {
    if xs != [] {
      var sorted := Sort(xs[1..], le);
      SortIsStable(xs[1..], le);
      InsertSorts(xs[0], sorted, le);
      InsertKeepsElements(xs[0], sorted, le);
      assert xs == [xs[0]] + xs[1..];
      assert |multiset(Sort(xs, le))| == |xs|;
      forall pivot ensures Ties(Sort(xs, le), pivot, le) == Ties(xs, pivot, le) {
        InsertKeepsTies(xs[0], sorted, pivot, le);
        assert ([xs[0]] + sorted)[1..] == sorted;
      }
    }
  }

  lemma {:induction false} TiesNonEmpty<T(!new)>(xs: seq<T>, x: T, le: (T, T) -> bool)
    requires TotalPreorder(le) && x in xs
    ensures Ties(xs, x, le) != []
  {
    if xs[0] != x { TiesNonEmpty(xs[1..], x, le); }
  }

  lemma {:induction false} TiesAreElements<T(!new)>(xs: seq<T>, pivot: T, le: (T, T) -> bool)
    ensures forall y :: y in Ties(xs, pivot, le) ==> y in xs && le(y, pivot) && le(pivot, y)
  {
    if xs != [] { TiesAreElements(xs[1..], pivot, le); }
  }

  /** The first element of a sorted list ties with any tie it has, so equal tie classes mean equal first elements. */
  lemma SameHead<T(!new)>(xs: seq<T>, ys: seq<T>, le: (T, T) -> bool)
    requires TotalPreorder(le) && SortedBy(xs, le) && SortedBy(ys, le) && xs != []
    requires forall pivot :: Ties(xs, pivot, le) == Ties(ys, pivot, le)
    ensures ys != [] && ys[0] == xs[0]
  {
    TiesNonEmpty(xs, xs[0], le);
    assert Ties(ys, xs[0], le) == Ties(xs, xs[0], le);
    TiesAreElements(ys, xs[0], le);
    var z := Ties(ys, xs[0], le)[0];
    assert z in ys;
    TiesNonEmpty(ys, ys[0], le);
    TiesAreElements(xs, ys[0], le);
    var w := Ties(xs, ys[0], le)[0];
    assert w in xs;
    assert le(ys[0], z) && le(z, xs[0]) && le(xs[0], w) && le(w, ys[0]);
    assert Ties(ys, xs[0], le)[0] == ys[0] && Ties(xs, xs[0], le)[0] == xs[0];
  }

  /** Being sorted with ties in order fixes a list completely. */
  lemma {:induction false} StableOrderIsUnique<T(!new)>(xs: seq<T>, ys: seq<T>, le: (T, T) -> bool)
    requires TotalPreorder(le) && SortedBy(xs, le) && SortedBy(ys, le)
    requires forall pivot :: Ties(xs, pivot, le) == Ties(ys, pivot, le)
    ensures xs == ys
  {
    if xs == [] {
      if ys != [] { SameHead(ys, xs, le); }
    } else {
      SameHead(xs, ys, le);
      forall pivot ensures Ties(xs[1..], pivot, le) == Ties(ys[1..], pivot, le) {
        var first := if le(xs[0], pivot) && le(pivot, xs[0]) then 1 else 0;
        assert Ties(xs[1..], pivot, le) == Ties(xs, pivot, le)[first..];
        assert Ties(ys[1..], pivot, le) == Ties(ys, pivot, le)[first..];
      }
      StableOrderIsUnique(xs[1..], ys[1..], le);
    }
  }
}
