/** Optional values, as used by the network layer's lookups. */
module Wrappers {
  datatype Option<+T> = None | Some(value: T)
}

/** Orders in which the elements of a set are visited. */
module Orders {
  predicate NoDuplicates<T(==)>(s: seq<T>) {
    forall i, j :: 0 <= i < j < |s| ==> s[i] != s[j]
  }

  /** `order` visits every element of `s` exactly once. */
  predicate Enumerates<T(==)>(order: seq<T>, s: set<T>) {
    NoDuplicates(order) && (set x | x in order) == s
  }

  lemma OneMoreVisited<T>(order: seq<T>, s: set<T>, x: T)
    requires Enumerates(order, s) && x !in s
    ensures Enumerates(order + [x], s + {x})
  {
    assert x !in order by {
      assert s == set y | y in order;
    }
  }
}
