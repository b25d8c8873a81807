/** Filtered lists: which elements are kept, and in which order. */
module Filters {
  // How many of the first n elements are kept.
  ghost function KeptBefore<T>(list: seq<T>, keep: set<T>, n: nat): nat
    requires n <= |list|
  {
    |set i: nat | i < n && list[i] in keep|
  }

  lemma KeptNext<T>(list: seq<T>, keep: set<T>, n: nat)
    requires n < |list|
    ensures KeptBefore(list, keep, n + 1) == KeptBefore(list, keep, n) + if list[n] in keep then 1 else 0
  {
    var before := set i: nat | i < n && list[i] in keep;
    assert (set i: nat | i < n + 1 && list[i] in keep) == before + if list[n] in keep then {n} else {};
  }

  lemma KeptInFront<T>(list: seq<T>, keep: set<T>, n: nat, k: nat)
    requires k <= n <= |list|
    ensures KeptBefore(list[..n], keep, k) == KeptBefore(list, keep, k)
  {
    assert (set i: nat | i < k && list[..n][i] in keep) == set i: nat | i < k && list[i] in keep;
  }

  // An element to be kept stands where as many elements are before it as are kept before it, and there are no others.
  ghost predicate IsFiltered<T>(list: seq<T>, keep: set<T>, r: seq<T>) {
    && |r| == KeptBefore(list, keep, |list|)
    && forall k: nat | k < |list| && list[k] in keep ::
         KeptBefore(list, keep, k) < |r| && r[KeptBefore(list, keep, k)] == list[k]
  }

  lemma FilteredNext<T>(list: seq<T>, keep: set<T>, r: seq<T>)
    requires list != [] && IsFiltered(list[..|list| - 1], keep, r)
    ensures IsFiltered(list, keep, if list[|list| - 1] in keep then r + [list[|list| - 1]] else r)
  {
    var n := |list| - 1;
    KeptNext(list, keep, n);
    KeptInFront(list, keep, n, n);
    forall k: nat | k < n && list[k] in keep
      ensures KeptBefore(list, keep, k) < |r| && r[KeptBefore(list, keep, k)] == list[k]
    {
      KeptInFront(list, keep, n, k);
      assert list[..n][k] == list[k];
    }
  }
}
