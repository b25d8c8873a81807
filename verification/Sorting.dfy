/** Chunk lists: pruning expired chunks and sorting by address. */
module Sorting {
  import opened Filters

  // A weak pointer to a chunk: the chunk's address, and the number of its allocation. The memory of an expired chunk may
  // be given to another chunk later, which then has the same address but another number.
  datatype WeakPtr = WeakPtr(address: nat, serial: nat)

  // No two of these chunks are at one address, as with chunks that exist at the same time.
  ghost predicate Apart(chunks: set<WeakPtr>) {
    forall p, q | p in chunks && q in chunks :: p.address == q.address ==> p == q
  }

  ghost predicate AllApart(s: seq<WeakPtr>) {
    forall i, j | 0 <= i < |s| && 0 <= j < |s| :: s[i].address == s[j].address ==> s[i] == s[j]
  }

  predicate Ascending(s: seq<WeakPtr>) {
    forall i, j | 0 <= i <= j < |s| :: s[i].address <= s[j].address
  }

  function Insert(x: WeakPtr, s: seq<WeakPtr>): (r: seq<WeakPtr>) {
    if s == [] then [x]
    else if s[|s| - 1].address <= x.address then s + [x]
    else Insert(x, s[..|s| - 1]) + [s[|s| - 1]]
  }

  lemma {:induction false} InsertBag(x: WeakPtr, s: seq<WeakPtr>)
    ensures multiset(Insert(x, s)) == multiset(s) + multiset{x}
  {
    if s != [] && s[|s| - 1].address > x.address {
      InsertBag(x, s[..|s| - 1]);
      assert s == s[..|s| - 1] + [s[|s| - 1]];
    }
  }

  lemma {:induction false} InsertBelow(x: WeakPtr, s: seq<WeakPtr>, bound: nat)
    requires x.address <= bound && forall i | 0 <= i < |s| :: s[i].address <= bound
    ensures forall i | 0 <= i < |Insert(x, s)| :: Insert(x, s)[i].address <= bound
  {
    if s != [] { InsertBelow(x, s[..|s| - 1], bound); }
  }

  lemma {:induction false} InsertAscends(x: WeakPtr, s: seq<WeakPtr>)
    requires Ascending(s)
    ensures Ascending(Insert(x, s))
  {
    if s != [] && s[|s| - 1].address > x.address {
      InsertAscends(x, s[..|s| - 1]);
      InsertBelow(x, s[..|s| - 1], s[|s| - 1].address);
    }
  }

  // Any sorting algorithm: the result for chunks that exist is determined by what it is (see SortedIsUnique).
  function SortByAddress(s: seq<WeakPtr>): seq<WeakPtr> {
    if s == [] then [] else Insert(s[|s| - 1], SortByAddress(s[..|s| - 1]))
  }

  lemma {:induction false} SortSorts(s: seq<WeakPtr>)
    ensures Ascending(SortByAddress(s)) && multiset(SortByAddress(s)) == multiset(s)
    ensures |SortByAddress(s)| == |s|
  {
    if s != [] {
      var front, last := s[..|s| - 1], s[|s| - 1];
      SortSorts(front);
      InsertBag(last, SortByAddress(front));
      InsertAscends(last, SortByAddress(front));
      assert s == front + [last];
    }
    SameSize(SortByAddress(s), s);
  }

  lemma SameSize(a: seq<WeakPtr>, b: seq<WeakPtr>)
    requires multiset(a) == multiset(b)
    ensures |a| == |b|
  {
    assert |multiset(a)| == |multiset(b)|;
  }

  lemma LastIsLargest(s: seq<WeakPtr>, bag: multiset<WeakPtr>, p: WeakPtr)
    requires Ascending(s) && multiset(s) == bag && p in bag
    ensures |s| > 0 && p.address <= s[|s| - 1].address
  {
    assert p in multiset(s);
  }

  lemma FrontBag(s: seq<WeakPtr>, bag: multiset<WeakPtr>)
    requires |s| > 0 && multiset(s) == bag
    ensures multiset(s[..|s| - 1]) == bag - multiset{s[|s| - 1]} && s[|s| - 1] in bag
  {
    assert s == s[..|s| - 1] + [s[|s| - 1]];
  }

  lemma SameEnd(a: seq<WeakPtr>, b: seq<WeakPtr>)
    requires Ascending(a) && Ascending(b) && multiset(a) == multiset(b) && |a| > 0 && |b| > 0 && AllApart(a)
    ensures a[|a| - 1] == b[|b| - 1]
    ensures multiset(a[..|a| - 1]) == multiset(b[..|b| - 1])
  {
    var last := b[|b| - 1];
    FrontBag(a, multiset(b));
    FrontBag(b, multiset(a));
    LastIsLargest(a, multiset(b), last);
    LastIsLargest(b, multiset(a), a[|a| - 1]);
    var i := IndexIn(a, multiset(b), last);
    assert a[i].address == a[|a| - 1].address;
  }

  lemma IndexIn(list: seq<WeakPtr>, bag: multiset<WeakPtr>, p: WeakPtr) returns (i: nat)
    requires multiset(list) == bag && p in bag
    ensures i < |list| && list[i] == p
  {
    assert p in multiset(list);
    i :| i < |list| && list[i] == p;
  }

  lemma {:induction false} SortedIsUnique(a: seq<WeakPtr>, b: seq<WeakPtr>)
    requires Ascending(a) && Ascending(b) && multiset(a) == multiset(b) && AllApart(a)
    ensures a == b
    decreases |a|
  {
    SameSize(a, b);
    if |a| > 0 {
      SameEnd(a, b);
      SortedIsUnique(a[..|a| - 1], b[..|b| - 1]);
      assert a == a[..|a| - 1] + [a[|a| - 1]];
      assert b == b[..|b| - 1] + [b[|b| - 1]];
    }
  }

  lemma ApartMembers(s: seq<WeakPtr>, chunks: set<WeakPtr>, bag: multiset<WeakPtr>)
    requires Apart(chunks) && multiset(s) == bag && forall p | p in bag :: p in chunks
    ensures AllApart(s)
  {
    forall i | 0 <= i < |s| ensures s[i] in chunks {
      assert s[i] in multiset(s);
    }
  }

  lemma SortsAlike(a: seq<WeakPtr>, b: seq<WeakPtr>, chunks: set<WeakPtr>)
    requires multiset(a) == multiset(b) && Apart(chunks) && forall p | p in multiset(a) :: p in chunks
    ensures SortByAddress(a) == SortByAddress(b)
  {
    SortSorts(a);
    SortSorts(b);
    ApartMembers(SortByAddress(a), chunks, multiset(a));
    SortedIsUnique(SortByAddress(a), SortByAddress(b));
  }

  // Drops the chunks that no longer exist and keeps the others in order.
  function Prune(chunks: seq<WeakPtr>, live: set<WeakPtr>): seq<WeakPtr> {
    if chunks == [] then []
    else Prune(chunks[..|chunks| - 1], live) + if chunks[|chunks| - 1] in live then [chunks[|chunks| - 1]] else []
  }

  lemma {:induction false} PruneCounts(chunks: seq<WeakPtr>, live: set<WeakPtr>, p: WeakPtr)
    ensures multiset(Prune(chunks, live))[p] == if p in live then multiset(chunks)[p] else 0
  {
    if chunks != [] {
      PruneCounts(chunks[..|chunks| - 1], live, p);
      assert chunks == chunks[..|chunks| - 1] + [chunks[|chunks| - 1]];
    }
  }

  /** Pruning keeps the chunks that exist, in their order, and only these: chunk k of the list, if it exists, stands behind
      as many chunks as exist before it in the list. */
  lemma PruneKeepsOrder(chunks: seq<WeakPtr>, live: set<WeakPtr>)
    ensures |Prune(chunks, live)| == |set i: nat | i < |chunks| && chunks[i] in live|
    ensures forall k: nat | k < |chunks| && chunks[k] in live ::
              var at := |set i: nat | i < k && chunks[i] in live|;
              at < |Prune(chunks, live)| && Prune(chunks, live)[at] == chunks[k]
  {
    PruneFilters(chunks, live);
    forall k: nat | k < |chunks| && chunks[k] in live
      ensures var at := |set i: nat | i < k && chunks[i] in live|;
              at < |Prune(chunks, live)| && Prune(chunks, live)[at] == chunks[k]
    {
      assert KeptBefore(chunks, live, k) == |set i: nat | i < k && chunks[i] in live|;
    }
  }

  lemma {:induction false} PruneFilters(chunks: seq<WeakPtr>, live: set<WeakPtr>)
    ensures IsFiltered(chunks, live, Prune(chunks, live))
  {
    if chunks != [] {
      PruneFilters(chunks[..|chunks| - 1], live);
      FilteredNext(chunks, live, Prune(chunks[..|chunks| - 1], live));
      assert Prune(chunks[..|chunks| - 1], live) + [] == Prune(chunks[..|chunks| - 1], live);
    }
  }

  lemma PruneIsLive(chunks: seq<WeakPtr>, live: set<WeakPtr>)
    ensures forall p | p in multiset(Prune(chunks, live)) :: p in live
  {
    forall p | p in multiset(Prune(chunks, live)) ensures p in live {
      PruneCounts(chunks, live, p);
    }
  }
}
