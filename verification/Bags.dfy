/** Bags: the union of some of a list of bags, and counting occurrences. */
module Bags {
  function Union<T>(bags: seq<multiset<T>>, chosen: set<nat>, n: nat): multiset<T>
    requires n <= |bags|
  {
    if n == 0 then multiset{}
    else Union(bags, chosen, n - 1) + if n - 1 in chosen then bags[n - 1] else multiset{}
  }

  lemma {:induction false} UnionSame<T>(these: seq<multiset<T>>, those: seq<multiset<T>>, a: set<nat>, b: set<nat>, n: nat)
    requires n <= |these| && n <= |those|
    requires forall k | 0 <= k < n :: (k in a <==> k in b) && (k in a ==> these[k] == those[k])
    ensures Union(these, a, n) == Union(those, b, n)
  {
    if n > 0 { UnionSame(these, those, a, b, n - 1); }
  }

  lemma {:induction false} UnionWithout<T>(bags: seq<multiset<T>>, chosen: set<nat>, rest: set<nat>, k: nat, n: nat)
    requires k < n <= |bags| && k in chosen && k !in rest && forall i | i != k :: i in rest <==> i in chosen
    ensures Union(bags, chosen, n) == Union(bags, rest, n) + bags[k]
  {
    if k == n - 1 {
      UnionSame(bags, bags, chosen, rest, n - 1);
    } else {
      UnionWithout(bags, chosen, rest, k, n - 1);
    }
  }

  lemma {:induction false} UnionEmpty<T>(bags: seq<multiset<T>>, n: nat)
    requires n <= |bags|
    ensures Union(bags, {}, n) == multiset{}
  {
    if n > 0 { UnionEmpty(bags, n - 1); }
  }

  // Where x stands among the first n elements of list number k.
  ghost function SpotsIn<T>(s: seq<T>, k: nat, n: nat, x: T): set<(nat, nat)>
    requires n <= |s|
  {
    set i: nat | i < n && s[i] == x :: (k, i)
  }

  lemma SpotsInNext<T>(s: seq<T>, k: nat, n: nat, x: T)
    requires n < |s|
    ensures SpotsIn(s, k, n + 1, x) == SpotsIn(s, k, n, x) + if s[n] == x then {(k, n)} else {}
    ensures (k, n) !in SpotsIn(s, k, n, x)
  {
  }

  lemma OneMore<T>(s: seq<T>, n: nat, x: T)
    requires n < |s|
    ensures multiset(s[..n + 1])[x] == multiset(s[..n])[x] + if s[n] == x then 1 else 0
  {
    assert s[..n + 1] == s[..n] + [s[n]];
  }

  lemma {:induction false} SpotsInCount<T>(s: seq<T>, k: nat, n: nat, x: T)
    requires n <= |s|
    ensures |SpotsIn(s, k, n, x)| == multiset(s[..n])[x]
  {
    if n == 0 {
      assert SpotsIn(s, k, 0, x) == {};
    } else {
      SpotsInCount(s, k, n - 1, x);
      SpotsInNext(s, k, n - 1, x);
      OneMore(s, n - 1, x);
    }
  }

  lemma DisjointSizes(before: set<(nat, nat)>, more: set<(nat, nat)>, n: nat)
    requires (forall q | q in before :: q.0 < n) && forall q | q in more :: q.0 == n
    ensures |before + more| == |before| + |more|
  {
    assert before !! more;
  }
}
