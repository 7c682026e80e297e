/** The order Python compares strings by, code point by code point. */
module TextOrder {
  import opened Tally
  import opened StableSorting

  predicate TextLe(a: string, b: string) {
    if a == "" then true
    else if b == "" then false
    else if a[0] != b[0] then a[0] < b[0]
    else TextLe(a[1..], b[1..])
  }

  predicate TextLess(a: string, b: string) { TextLe(a, b) && a != b }

  function ByText(): (string, string) -> bool { (a: string, b: string) => TextLe(a, b) }

  lemma {:induction false} TextLeIsTotal(a: string, b: string)
    ensures TextLe(a, b) || TextLe(b, a)
  {
    if a != "" && b != "" && a[0] == b[0] { TextLeIsTotal(a[1..], b[1..]); }
  }

  lemma {:induction false} TextLeIsTransitive(a: string, b: string, c: string)
    requires TextLe(a, b) && TextLe(b, c)
    ensures TextLe(a, c)
  {
    if a != "" && a[0] == b[0] && b[0] == c[0] { TextLeIsTransitive(a[1..], b[1..], c[1..]); }
  }

  lemma {:induction false} TextLeIsAntisymmetric(a: string, b: string)
    requires TextLe(a, b) && TextLe(b, a)
    ensures a == b
  {
    if a != "" && b != "" { TextLeIsAntisymmetric(a[1..], b[1..]); }
  }

  lemma ByTextIsTotalPreorder()
    ensures TotalPreorder(ByText())
  {
    forall a, b ensures ByText()(a, b) || ByText()(b, a) { TextLeIsTotal(a, b); }
    forall a, b, c | ByText()(a, b) && ByText()(b, c) ensures ByText()(a, c) { TextLeIsTransitive(a, b, c); }
  }

  /** In a list without repeats a string ties only with itself. */
  lemma {:induction false} TiesOfDistinct(xs: seq<string>, pivot: string)
    requires Distinct(xs)
    ensures Ties(xs, pivot, ByText()) == if pivot in xs then [pivot] else []
  {
    if xs != [] {
      TiesOfDistinct(xs[1..], pivot);
      if ByText()(xs[0], pivot) && ByText()(pivot, xs[0]) { TextLeIsAntisymmetric(xs[0], pivot); }
      TextLeIsTotal(pivot, pivot);
    }
  }

  function Sorted(keys: seq<string>): seq<string> { Sort(keys, ByText()) }

  /** Sorting distinct keys gives a strictly increasing list of the same keys. */
  lemma SortedKeys(keys: seq<string>)
    requires Distinct(keys)
    ensures |Sorted(keys)| == |keys| && Distinct(Sorted(keys)) && forall x :: x in Sorted(keys) <==> x in keys
    ensures forall i, j :: 0 <= i < j < |keys| ==> TextLess(Sorted(keys)[i], Sorted(keys)[j])
  {
    ByTextIsTotalPreorder();
    SortIsStable(keys, ByText());
    var sorted := Sorted(keys);
    forall x ensures x in sorted <==> x in keys {
      assert x in multiset(sorted) <==> x in multiset(keys);
    }
    forall i, j | 0 <= i < j < |sorted| ensures sorted[i] != sorted[j] {
      DistinctMeansOnce(keys, sorted[i]);
      if sorted[i] == sorted[j] { TwiceInMultiset(sorted, i, j); }
    }
    forall i, j | 0 <= i < j < |sorted| ensures TextLess(sorted[i], sorted[j]) {
      assert ByText()(sorted[i], sorted[j]);
    }
  }

  lemma {:induction false} DistinctMeansOnce(keys: seq<string>, x: string)
    requires Distinct(keys)
    ensures multiset(keys)[x] <= 1
  {
    if keys != [] {
      assert keys == [keys[0]] + keys[1..];
      DistinctMeansOnce(keys[1..], x);
      if keys[0] == x { assert x !in multiset(keys[1..]); }
    }
  }

  lemma TwiceInMultiset(xs: seq<string>, i: int, j: int)
    requires 0 <= i < j < |xs| && xs[i] == xs[j]
    ensures multiset(xs)[xs[i]] >= 2
  {
    assert xs == xs[..j] + [xs[j]] + xs[j + 1..];
    assert xs[i] in xs[..j];
  }

  /** The sorted list depends only on which keys there are, not on the order they arrived in. */
  lemma SortedIgnoresArrival(keys: seq<string>, others: seq<string>)
    requires Distinct(keys) && Distinct(others) && forall x :: x in keys <==> x in others
    ensures Sorted(keys) == Sorted(others)
  {
    ByTextIsTotalPreorder();
    SortIsStable(keys, ByText());
    SortIsStable(others, ByText());
    forall pivot ensures Ties(Sorted(keys), pivot, ByText()) == Ties(Sorted(others), pivot, ByText()) {
      TiesOfDistinct(keys, pivot);
      TiesOfDistinct(others, pivot);
    }
    StableOrderIsUnique(Sorted(keys), Sorted(others), ByText());
  }
}
