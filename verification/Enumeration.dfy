/** Visiting orders of sets, for loops over maps in whatever order. */
module Enumeration {
  /** Every element once. */
  ghost predicate Enumerates<T(!new)>(order: seq<T>, keys: set<T>) {
    && (forall i, j :: 0 <= i < j < |order| ==> order[i] != order[j])
    && (forall k :: k in order <==> k in keys)
  }

  lemma EnumeratesGrows<T(!new)>(order: seq<T>, keys: set<T>, key: T)
    requires Enumerates(order, keys) && key !in keys
    ensures Enumerates(order + [key], keys + {key})
  {
    assert forall k :: k in order + [key] <==> k in order || k == key;
  }
}
