/**
  Distributing sorted chunks over workers. The source hands every worker the chunks from index 0 on, because it indexes
  by the worker's own counter; the evident intention is to index by the number of chunks assigned so far. Both forms are
  modelled: AsWritten is the source, AsIntended is the correction.
 */
module Schedulers {
  import opened Scores
  import opened Sorting
  import opened MapReduce
  import opened Multiples

  datatype Form = AsWritten | AsIntended

  lemma SharesFit(n: nat, workers: nat)
    requires 0 < workers
    ensures Times(workers, n / workers) == n - n % workers
  {
    TimesIsProduct(workers, n / workers);
  }

  // The equal share of worker w.
  function Share(form: Form, s: seq<WeakPtr>, share: nat, w: nat): (r: seq<WeakPtr>)
    requires Times(w + 1, share) <= |s|
    ensures |r| == share
  {
    if form.AsWritten? then s[..share] else s[Times(w, share)..Times(w + 1, share)]
  }

  function Shares(form: Form, s: seq<WeakPtr>, share: nat, k: nat): (r: seq<seq<WeakPtr>>)
    requires Times(k, share) <= |s|
    ensures |r| == k
  {
    if k == 0 then [] else Shares(form, s, share, k - 1) + [Share(form, s, share, k - 1)]
  }

  // The list of every worker, for the sorted chunks s: equal shares, and the remainder for the last one.
  function Deques(form: Form, s: seq<WeakPtr>, workers: nat): (r: seq<seq<WeakPtr>>)
    requires 0 < workers
    ensures |r| == workers
  {
    var share := |s| / workers;
    SharesFit(|s|, workers);
    Shares(form, s, share, workers - 1) + [Share(form, s, share, workers - 1) + s[Times(workers, share)..]]
  }

  function Flatten(deques: seq<seq<WeakPtr>>): seq<WeakPtr> {
    if deques == [] then [] else Flatten(deques[..|deques| - 1]) + deques[|deques| - 1]
  }

  lemma FlattenSnoc(deques: seq<seq<WeakPtr>>, deque: seq<WeakPtr>)
    ensures Flatten(deques + [deque]) == Flatten(deques) + deque
  {
    assert (deques + [deque])[..|deques|] == deques;
  }

  lemma Glue(s: seq<WeakPtr>, a: nat, b: nat)
    requires a <= b <= |s|
    ensures s[..a] + s[a..b] == s[..b]
  {
  }

  lemma {:induction false} IntendedShares(s: seq<WeakPtr>, share: nat, k: nat)
    requires Times(k, share) <= |s|
    ensures Flatten(Shares(AsIntended, s, share, k)) == s[..Times(k, share)]
  {
    if k > 0 {
      var front, last := Shares(AsIntended, s, share, k - 1), Share(AsIntended, s, share, k - 1);
      IntendedShares(s, share, k - 1);
      FlattenSnoc(front, last);
      Glue(s, Times(k - 1, share), Times(k, share));
    }
  }

  lemma GlueRest(s: seq<WeakPtr>, a: nat, b: nat)
    requires a <= b <= |s|
    ensures s[..a] + (s[a..b] + s[b..]) == s
  {
  }

  // With the intended index the workers' lists, one after the other, are the sorted chunks.
  lemma IntendedIsPartition(s: seq<WeakPtr>, workers: nat)
    requires 0 < workers
    ensures Flatten(Deques(AsIntended, s, workers)) == s
  {
    var k, share := workers - 1, |s| / workers;
    SharesFit(|s|, workers);
    var a, b := Times(k, share), Times(workers, share);
    var front, last := Shares(AsIntended, s, share, k), Share(AsIntended, s, share, k) + s[b..];
    IntendedShares(s, share, k);
    FlattenSnoc(front, last);
    GlueRest(s, a, b);
    assert Deques(AsIntended, s, workers) == front + [last];
  }

  lemma {:induction false} ShareAt(form: Form, s: seq<WeakPtr>, share: nat, k: nat, w: nat)
    requires Times(k, share) <= |s| && w < k
    ensures Times(w + 1, share) <= Times(k, share)
    ensures Shares(form, s, share, k)[w] == Share(form, s, share, w)
  {
    if w < k - 1 { ShareAt(form, s, share, k - 1, w); }
  }

  // Every worker but the last gets an equal share and the last one also the remainder, in either form.
  lemma ShareSizes(form: Form, s: seq<WeakPtr>, workers: nat, w: nat)
    requires w < workers
    ensures |Deques(form, s, workers)[w]| == |s| / workers + if w == workers - 1 then |s| % workers else 0
  {
    SharesFit(|s|, workers);
    if w < workers - 1 { ShareAt(form, s, |s| / workers, workers - 1, w); }
  }

  /** The lists spelled out: as written every worker gets the first n / W chunks, with the intended index worker w gets those
      from w * (n / W) on; the last worker gets what is left as well. */
  lemma DequeIs(form: Form, s: seq<WeakPtr>, workers: nat, w: nat)
    requires w < workers
    ensures var share := |s| / workers;
            && 0 <= share <= |s| && 0 <= w * share <= (w + 1) * share <= workers * share <= |s|
            && Deques(form, s, workers)[w] ==
               (if form.AsWritten? then s[..share] else s[w * share..(w + 1) * share])
               + (if w == workers - 1 then s[workers * share..] else [])
  {
    var share := |s| / workers;
    SharesFit(|s|, workers);
    TimesIsProduct(w, share);
    TimesIsProduct(w + 1, share);
    TimesIsProduct(workers, share);
    TimesGrows(w + 1, workers, share);
    TimesGrows(1, workers, share);
    TimesGrows(w, w + 1, share);
    TimesIsProduct(1, share);
    if w < workers - 1 { ShareAt(form, s, share, workers - 1, w); }
  }

  lemma {:induction false} SharesSize(form: Form, s: seq<WeakPtr>, share: nat, k: nat)
    requires Times(k, share) <= |s|
    ensures |Flatten(Shares(form, s, share, k))| == Times(k, share)
  {
    if k > 0 {
      SharesSize(form, s, share, k - 1);
      FlattenSnoc(Shares(form, s, share, k - 1), Share(form, s, share, k - 1));
    }
  }

  // Either form assigns as many chunks as there are.
  lemma CountsAreConserved(form: Form, s: seq<WeakPtr>, workers: nat)
    requires 0 < workers
    ensures |Flatten(Deques(form, s, workers))| == |s|
  {
    var k, share := workers - 1, |s| / workers;
    SharesFit(|s|, workers);
    SharesSize(form, s, share, k);
    FlattenSnoc(Shares(form, s, share, k), Share(form, s, share, k) + s[Times(workers, share)..]);
  }

  function Busy(deques: seq<seq<WeakPtr>>): nat {
    if deques == [] then 0 else Busy(deques[..|deques| - 1]) + if deques[|deques| - 1] == [] then 0 else 1
  }

  // Busy counts the lists that are not empty.
  lemma {:induction false} BusyIsCount(deques: seq<seq<WeakPtr>>)
    ensures Busy(deques) == |set w: nat | w < |deques| && deques[w] != []|
  {
    if deques != [] {
      var n := |deques| - 1;
      var front := deques[..n];
      BusyIsCount(front);
      var before := set w: nat | w < n && deques[w] != [];
      assert (set w: nat | w < |front| && front[w] != []) == before;
      assert (set w: nat | w < |deques| && deques[w] != []) == before + if deques[n] != [] then {n} else {};
    }
  }

  lemma BusySnoc(deques: seq<seq<WeakPtr>>, deque: seq<WeakPtr>)
    ensures Busy(deques + [deque]) == Busy(deques) + if deque == [] then 0 else 1
  {
    assert (deques + [deque])[..|deques|] == deques;
  }

  lemma {:induction false} BusyShares(form: Form, s: seq<WeakPtr>, share: nat, k: nat)
    requires Times(k, share) <= |s|
    ensures Busy(Shares(form, s, share, k)) == if share == 0 then 0 else k
  {
    if k > 0 {
      BusyShares(form, s, share, k - 1);
      BusySnoc(Shares(form, s, share, k - 1), Share(form, s, share, k - 1));
    }
  }

  lemma NoShare(n: nat, workers: nat)
    requires 0 < workers
    ensures n / workers == 0 <==> n < workers
  {
  }

  // The number of workers that have work: all of them, only the last, or none.
  lemma EffectiveWorkers(form: Form, s: seq<WeakPtr>, workers: nat)
    requires 0 < workers
    ensures Busy(Deques(form, s, workers)) == if s == [] then 0 else if |s| < workers then 1 else workers
  {
    var k, share := workers - 1, |s| / workers;
    SharesFit(|s|, workers);
    NoShare(|s|, workers);
    BusyShares(form, s, share, k);
    var last := Share(form, s, share, k) + s[Times(workers, share)..];
    assert last == [] <==> s == [] by { ShareSizes(form, s, workers, k); }
    BusySnoc(Shares(form, s, share, k), last);
  }

  // As written, a chunk of the shared prefix is assigned once per worker.
  lemma {:induction false} WrittenShares(s: seq<WeakPtr>, share: nat, k: nat, p: WeakPtr)
    requires Times(k, share) <= |s| && share <= |s|
    ensures multiset(Flatten(Shares(AsWritten, s, share, k)))[p] == Times(k, multiset(s[..share])[p])
  {
    if k > 0 {
      WrittenShares(s, share, k - 1, p);
      FlattenSnoc(Shares(AsWritten, s, share, k - 1), Share(AsWritten, s, share, k - 1));
    }
  }

  lemma WrittenCounts(s: seq<WeakPtr>, workers: nat, share: nat, p: WeakPtr)
    requires 0 < workers && share == |s| / workers
    ensures share <= Times(workers, share) <= |s|
    ensures multiset(Flatten(Deques(AsWritten, s, workers)))[p]
            == Times(workers, multiset(s[..share])[p]) + multiset(s[Times(workers, share)..])[p]
  {
    SharesFit(|s|, workers);
    WrittenShares(s, share, workers - 1, p);
    FlattenSnoc(Shares(AsWritten, s, share, workers - 1), s[..share] + s[Times(workers, share)..]);
  }

  // In a sorted list the copies of the first element come first.
  lemma {:induction false} CopiesOfFirst(s: seq<WeakPtr>, m: nat, k: nat)
    requires Ascending(s) && AllApart(s) && 0 < m <= |s| && k <= |s|
    requires s[m - 1] == s[0] && (m < |s| ==> s[m] != s[0])
    ensures multiset(s[..k])[s[0]] == if k <= m then k else m
  {
    if k > 0 {
      CopiesOfFirst(s, m, k - 1);
      assert s[..k] == s[..k - 1] + [s[k - 1]];
      SameAsFirst(s, m, k - 1);
    }
  }

  lemma SameAsFirst(s: seq<WeakPtr>, m: nat, i: nat)
    requires Ascending(s) && AllApart(s) && 0 < m <= |s| && i < |s|
    requires s[m - 1] == s[0] && (m < |s| ==> s[m] != s[0])
    ensures s[i] == s[0] <==> i < m
  {
    if i < m { assert s[0].address <= s[i].address <= s[m - 1].address; }
    else { assert s[0].address <= s[m].address <= s[i].address; }
  }

  lemma EndOfFirst(s: seq<WeakPtr>, k: nat) returns (m: nat)
    requires 0 < k <= |s|
    ensures 0 < m <= k && s[m - 1] == s[0] && (m < k ==> s[m] != s[0])
  {
    m := 1;
    while m < k && s[m] == s[0]
      invariant 0 < m <= k && s[m - 1] == s[0]
    {
      m := m + 1;
    }
  }

  lemma {:induction false} AllTheSame(s: seq<WeakPtr>, k: nat, p: WeakPtr)
    requires k <= |s| && forall i | 0 <= i < k :: s[i] == s[0]
    ensures multiset(s[..k])[p] == if k > 0 && p == s[0] then k else 0
  {
    if k > 0 {
      AllTheSame(s, k - 1, p);
      assert s[..k] == s[..k - 1] + [s[k - 1]];
    }
  }

  lemma {:induction false} TimesNothing(w: nat)
    ensures Times(w, 0) == 0
  {
    if w > 0 { TimesNothing(w - 1); }
  }

  // Whether the source's index assigns every chunk as often as it is listed.
  ghost predicate WrittenIsFaithful(s: seq<WeakPtr>, workers: nat)
    requires 0 < workers
  {
    multiset(Flatten(Deques(AsWritten, s, workers))) == multiset(s)
  }

  lemma FaithfulCounts(s: seq<WeakPtr>, workers: nat, share: nat, p: WeakPtr)
    requires 0 < workers && share == |s| / workers
    ensures share <= Times(workers, share) <= |s|
    ensures multiset(Flatten(Deques(AsWritten, s, workers)))[p] == multiset(s)[p]
            <==> Times(workers, multiset(s[..share])[p]) == multiset(s[..Times(workers, share)])[p]
  {
    WrittenCounts(s, workers, share, p);
    var total := Times(workers, share);
    assert s == s[..total] + s[total..];
  }

  // More than one worker, at least one chunk each, and not all of them the same: the first chunk is assigned too often.
  lemma FirstChunkMiscounted(s: seq<WeakPtr>, workers: nat, share: nat)
    requires Ascending(s) && AllApart(s) && 1 < workers && share == |s| / workers && 0 < share
    requires 0 < Times(workers, share) <= |s| && s[Times(workers, share) - 1] != s[0]
    ensures !WrittenIsFaithful(s, workers)
  {
    var total := Times(workers, share);
    var m := EndOfFirst(s, total);
    CopiesOfFirst(s, m, share);
    CopiesOfFirst(s, m, total);
    assert Times(workers, m) >= 2 * m by { assert Times(workers - 1, m) >= m; }
    FaithfulCounts(s, workers, share, s[0]);
  }

  lemma SameCounts(s: seq<WeakPtr>, workers: nat, share: nat, total: nat, p: WeakPtr)
    requires 0 < share <= total <= |s| && total == Times(workers, share)
    requires forall i | 0 <= i < total :: s[i] == s[0]
    ensures Times(workers, multiset(s[..share])[p]) == multiset(s[..total])[p]
  {
    AllTheSame(s, share, p);
    AllTheSame(s, total, p);
    TimesNothing(workers);
  }

  lemma AllSameIsFaithful(s: seq<WeakPtr>, workers: nat, share: nat)
    requires Ascending(s) && AllApart(s) && 0 < workers && share == |s| / workers && 0 < share
    requires 0 < Times(workers, share) <= |s| && s[Times(workers, share) - 1] == s[0]
    ensures WrittenIsFaithful(s, workers)
  {
    var total := Times(workers, share);
    TimesGrows(1, workers, share);
    assert forall i | 0 <= i < total :: s[0].address <= s[i].address <= s[total - 1].address;
    assert forall i | 0 <= i < total :: s[i] == s[0];
    forall p ensures multiset(Flatten(Deques(AsWritten, s, workers)))[p] == multiset(s)[p] {
      FaithfulCounts(s, workers, share, p);
      SameCounts(s, workers, share, total, p);
    }
  }

  lemma SingleShareIsFaithful(s: seq<WeakPtr>, workers: nat, share: nat)
    requires 0 < workers && share == |s| / workers && (workers == 1 || share == 0)
    ensures WrittenIsFaithful(s, workers)
  {
    forall p ensures multiset(Flatten(Deques(AsWritten, s, workers)))[p] == multiset(s)[p] {
      FaithfulCounts(s, workers, share, p);
      assert s[..0] == [];
      TimesNothing(workers);
    }
  }

  /** As written, the distribution gives every chunk to as many workers as it is listed exactly if there is one worker,
      or fewer chunks than workers, or the chunks handed out in equal shares are all one and the same chunk. */
  lemma WrittenIsFaithfulIff(s: seq<WeakPtr>, workers: nat)
    requires Ascending(s) && AllApart(s) && 0 < workers
    ensures 0 <= |s| - |s| % workers <= |s|
    ensures WrittenIsFaithful(s, workers) <==>
              workers == 1 || |s| < workers || s[|s| - |s| % workers - 1] == s[0]
  {
    var share := |s| / workers;
    SharesFit(|s|, workers);
    NoShare(|s|, workers);
    if workers == 1 || share == 0 {
      SingleShareIsFaithful(s, workers, share);
    } else if s[|s| - |s| % workers - 1] == s[0] {
      AllSameIsFaithful(s, workers, share);
    } else {
      FirstChunkMiscounted(s, workers, share);
    }
  }

  lemma SortsTwo(p: WeakPtr, q: WeakPtr)
    requires p.address < q.address
    ensures SortByAddress([q, p]) == [p, q]
  {
    assert [q, p][..1] == [q] && [q][..0] == [];
    assert SortByAddress([q]) == [q];
    assert Insert(p, [q]) == Insert(p, []) + [q];
  }

  lemma TwoShares(form: Form, p: WeakPtr, q: WeakPtr)
    ensures Deques(form, [p, q], 2) == if form.AsWritten? then [[p], [p]] else [[p], [q]]
  {
    assert |[p, q]| / 2 == 1;
    assert Times(1, 1) == 1 && Times(2, 1) == 2;
    assert [p] + [] == [p] && [q] + [] == [q];
    assert [p, q][..1] == [p] && [p, q][1..2] == [q] && [p, q][2..] == [];
    assert Shares(form, [p, q], 1, 1) == [[p]];
  }

  // Two chunks, two workers: as written, both get the first chunk and nobody the second.
  lemma WrittenLosesAChunk(p: WeakPtr, q: WeakPtr)
    requires p.address < q.address
    ensures SortByAddress([q, p]) == [p, q]
    ensures Deques(AsWritten, [p, q], 2) == [[p], [p]] && Deques(AsIntended, [p, q], 2) == [[p], [q]]
    ensures q !in Flatten(Deques(AsWritten, [p, q], 2))
  {
    SortsTwo(p, q);
    TwoShares(AsWritten, p, q);
    TwoShares(AsIntended, p, q);
    FlattenSnoc([[p]], [p]);
    FlattenSnoc([], [p]);
    assert [[p]] + [[p]] == [[p], [p]] && [] + [[p]] == [[p]];
  }

  // The scores of a parallel query: every worker's, in the order of the workers.
  function ParallelScores(memory: Memory, deques: seq<seq<WeakPtr>>, query: seq<real>): seq<Score>
    requires AllFit(memory, query)
  {
    if deques == [] then []
    else ParallelScores(memory, deques[..|deques| - 1], query) + ListScores(memory, deques[|deques| - 1], query)
  }

  lemma {:induction false} ParallelIsFlat(memory: Memory, deques: seq<seq<WeakPtr>>, query: seq<real>)
    requires AllFit(memory, query)
    ensures ParallelScores(memory, deques, query) == ListScores(memory, Flatten(deques), query)
  {
    if deques != [] {
      ParallelIsFlat(memory, deques[..|deques| - 1], query);
      ListScoresConcat(memory, Flatten(deques[..|deques| - 1]), deques[|deques| - 1], query);
    }
  }

  /** With the intended index a parallel query over any number of workers returns the bag of scores that one worker
      returns for the same chunks, whichever chunks have expired in the meantime. */
  lemma ParallelRefinesSequential(memory: Memory, chunks: seq<WeakPtr>, workers: nat, query: seq<real>)
    requires AllFit(memory, query) && 0 < workers
    ensures multiset(ParallelScores(memory, Deques(AsIntended, SortByAddress(chunks), workers), query))
            == multiset(ListScores(memory, chunks, query))
  {
    var s := SortByAddress(chunks);
    SortSorts(chunks);
    IntendedIsPartition(s, workers);
    ParallelIsFlat(memory, Deques(AsIntended, s, workers), query);
    ScoresIgnoreOrder(memory, s, chunks, query);
  }

  lemma {:induction false} EqualChunks(memory: Memory, list: seq<WeakPtr>, v: nat)
    requires forall p | p in list :: p in memory && memory[p].vectors == v
    ensures ListVectors(memory, list) == Times(|list|, v)
  {
    if list != [] {
      assert forall p | p in list[..|list| - 1] :: p in list;
      EqualChunks(memory, list[..|list| - 1], v);
      assert list[|list| - 1] in list;
    }
  }

  lemma {:induction false} FlattenMembers(form: Form, s: seq<WeakPtr>, share: nat, k: nat)
    requires Times(k, share) <= |s|
    ensures forall p | p in Flatten(Shares(form, s, share, k)) :: p in s
  {
    if k > 0 {
      FlattenMembers(form, s, share, k - 1);
      FlattenSnoc(Shares(form, s, share, k - 1), Share(form, s, share, k - 1));
    }
  }

  lemma DequeMembers(form: Form, s: seq<WeakPtr>, workers: nat)
    requires 0 < workers
    ensures forall p | p in Flatten(Deques(form, s, workers)) :: p in s
  {
    var k, share := workers - 1, |s| / workers;
    SharesFit(|s|, workers);
    FlattenMembers(form, s, share, k);
    FlattenSnoc(Shares(form, s, share, k), Share(form, s, share, k) + s[Times(workers, share)..]);
  }

  /** With chunks of equal size a query returns chunks times vectors scores, in either form: the server's check of the
      result size does not tell the two apart. */
  lemma ResultSizeIsConserved(form: Form, memory: Memory, s: seq<WeakPtr>, workers: nat, query: seq<real>, v: nat)
    requires AllFit(memory, query) && 0 < workers && forall p | p in s :: p in memory && memory[p].vectors == v
    ensures |ParallelScores(memory, Deques(form, s, workers), query)| == |s| * v
  {
    var deques := Deques(form, s, workers);
    ParallelIsFlat(memory, deques, query);
    OneScorePerVector(memory, Flatten(deques), query);
    CountsAreConserved(form, s, workers);
    DequeMembers(form, s, workers);
    EqualChunks(memory, Flatten(deques), v);
    TimesIsProduct(|s|, v);
  }
}
