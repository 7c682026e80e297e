/** Counting: what a dictionary of counters holds after a list was counted into it. */
module Tally {
  import opened Common

  predicate Distinct<K(==)>(keys: seq<K>) {
    forall i, j :: 0 <= i < j < |keys| ==> keys[i] != keys[j]
  }

  function CountsOf<K>(keys: seq<K>, all: multiset<K>): (counts: seq<int>)
    ensures |counts| == |keys| && forall i :: 0 <= i < |keys| ==> counts[i] == all[keys[i]]
  {
    if keys == [] then [] else [all[keys[0]]] + CountsOf(keys[1..], all)
  }

  lemma {:induction false} AbsentKeyIgnored<K>(keys: seq<K>, all: multiset<K>, key: K)
    requires key !in keys
    ensures CountsOf(keys, all[key := 0]) == CountsOf(keys, all)
  {
    if keys != [] { AbsentKeyIgnored(keys[1..], all, key); }
  }

  /** The counts of distinct keys that cover everything counted add up to how much was counted. */
  lemma {:induction false} CountsSum<K>(keys: seq<K>, all: multiset<K>)
    requires Distinct(keys) && forall x :: x in all ==> x in keys
    ensures Sum(CountsOf(keys, all)) == |all|
  {
    if keys == [] {
      assert all == multiset{};
    } else {
      var rest := all[keys[0] := 0];
      AbsentKeyIgnored(keys[1..], all, keys[0]);
      forall x | x in rest ensures x in keys[1..] {
        assert x in all && x != keys[0];
      }
      CountsSum(keys[1..], rest);
      assert |all| == |rest| + all[keys[0]];
    }
  }

  /** Two listings of the same elements: where the last element of one sits in the other. */
  lemma SplitAt<T>(init: seq<T>, last: T, ys: seq<T>) returns (a: seq<T>, b: seq<T>)
    requires multiset(init + [last]) == multiset(ys)
    ensures ys == a + [last] + b && multiset(init) == multiset(a + b)
  {
    assert last in multiset(ys);
    var k :| 0 <= k < |ys| && ys[k] == last;
    a, b := ys[..k], ys[k + 1..];
    assert ys == a + [last] + b;
    assert multiset(init + [last]) == multiset(init) + multiset{last};
    assert multiset(ys) == multiset(a + b) + multiset{last};
    forall x ensures multiset(init)[x] == multiset(a + b)[x] {
      assert (multiset(init) + multiset{last})[x] == (multiset(a + b) + multiset{last})[x];
    }
  }
}
