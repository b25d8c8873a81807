/** What a bag of scores says about the chunks that were visited. */
module ScoreCounts {
  import opened Scores
  import opened Sorting
  import opened MapReduce

  // Chunks of one manager carry different indices.
  ghost predicate DistinctIndices(memory: Memory) {
    forall p, q | p in memory && q in memory :: memory[p].index == memory[q].index ==> p == q
  }

  // A chunk whose scores show that it was visited.
  predicate IsScored(memory: Memory, p: WeakPtr) { p in memory && memory[p].vectors > 0 }

  function FirstScore(memory: Memory, p: WeakPtr, query: seq<real>): Score
    requires AllFit(memory, query) && IsScored(memory, p)
  {
    ChunkScores(memory[p], query)[0]
  }

  lemma FirstOnce(s: seq<Score>)
    requires |s| > 0 && forall i | 0 < i < |s| :: s[i] != s[0]
    ensures multiset(s)[s[0]] == 1
  {
    assert s == [s[0]] + s[1..];
    assert s[0] !in s[1..];
  }

  lemma NotIn(s: seq<Score>, x: Score)
    requires forall i | 0 <= i < |s| :: s[i] != x
    ensures multiset(s)[x] == 0
  {
    assert x !in s;
  }

  lemma ChunkCount(memory: Memory, p: WeakPtr, q: WeakPtr, query: seq<real>)
    requires AllFit(memory, query) && DistinctIndices(memory) && query != [] && IsScored(memory, p) && q in memory
    ensures multiset(ChunkScores(memory[q], query))[FirstScore(memory, p, query)] == if p == q then 1 else 0
  {
    if p == q { FirstOnce(ChunkScores(memory[q], query)); }
    else { NotIn(ChunkScores(memory[q], query), FirstScore(memory, p, query)); }
  }

  // A chunk's first score occurs as often as the chunk is listed.
  lemma {:induction false} ListCount(memory: Memory, list: seq<WeakPtr>, p: WeakPtr, query: seq<real>)
    requires AllFit(memory, query) && DistinctIndices(memory) && query != [] && IsScored(memory, p)
    ensures multiset(ListScores(memory, list, query))[FirstScore(memory, p, query)] == multiset(list)[p]
  {
    if list != [] {
      var front, last := list[..|list| - 1], list[|list| - 1];
      assert list == front + [last];
      ListCount(memory, front, p, query);
      if last in memory {
        ChunkCount(memory, p, last, query);
        assert multiset(ListScores(memory, list, query))
               == multiset(ListScores(memory, front, query)) + multiset(ChunkScores(memory[last], query));
      }
    }
  }

  // Chunks without vectors and expired ones leave no trace.
  lemma {:induction false} OnlyScoring(memory: Memory, list: seq<WeakPtr>, scoring: set<WeakPtr>, query: seq<real>)
    requires AllFit(memory, query) && forall p :: p in scoring <==> IsScored(memory, p)
    ensures ListScores(memory, Prune(list, scoring), query) == ListScores(memory, list, query)
  {
    if list != [] {
      var front, last := list[..|list| - 1], list[|list| - 1];
      var pruned := Prune(front, scoring);
      OnlyScoring(memory, front, scoring, query);
      if last in scoring {
        assert (pruned + [last])[..|pruned|] == pruned;
      } else {
        assert pruned + [] == pruned;
        if last in memory { assert ChunkScores(memory[last], query) == []; }
      }
    }
  }

  lemma SameCountsSameScores(memory: Memory, a: seq<WeakPtr>, b: seq<WeakPtr>, query: seq<real>)
    requires AllFit(memory, query) && forall p | IsScored(memory, p) :: multiset(a)[p] == multiset(b)[p]
    ensures ScoreBag(memory, a, query) == ScoreBag(memory, b, query)
  {
    var scoring := set p | p in memory && IsScored(memory, p);
    OnlyScoring(memory, a, scoring, query);
    OnlyScoring(memory, b, scoring, query);
    forall p ensures multiset(Prune(a, scoring))[p] == multiset(Prune(b, scoring))[p] {
      PruneCounts(a, scoring, p);
      PruneCounts(b, scoring, p);
    }
    ScoresIgnoreOrder(memory, Prune(a, scoring), Prune(b, scoring), query);
  }

  // Vectors without dimensions have no score, so only their number shows.
  lemma {:induction false} AllUnset(memory: Memory, list: seq<WeakPtr>)
    requires AllFit(memory, [])
    ensures ListScores(memory, list, []) == seq(ListVectors(memory, list), _ => Unset)
  {
    if list != [] { AllUnset(memory, list[..|list| - 1]); }
  }

  /** Two lists yield the same bag of scores if and only if every chunk with vectors that still exists is listed equally
      often in both, or, where vectors have no dimensions, if they hold equally many vectors. */
  lemma SameScoresIff(memory: Memory, a: seq<WeakPtr>, b: seq<WeakPtr>, query: seq<real>)
    requires AllFit(memory, query) && DistinctIndices(memory)
    ensures ScoreBag(memory, a, query) == ScoreBag(memory, b, query) <==>
              if query == [] then ListVectors(memory, a) == ListVectors(memory, b)
              else forall p | p in memory && memory[p].vectors > 0 :: multiset(a)[p] == multiset(b)[p]
  {
    if query == [] {
      AllUnset(memory, a);
      AllUnset(memory, b);
      assert |ScoreBag(memory, a, query)| == ListVectors(memory, a);
      assert |ScoreBag(memory, b, query)| == ListVectors(memory, b);
    } else if ScoreBag(memory, a, query) == ScoreBag(memory, b, query) {
      forall p | IsScored(memory, p) ensures multiset(a)[p] == multiset(b)[p] {
        ListCount(memory, a, p, query);
        ListCount(memory, b, p, query);
      }
    } else if forall p | IsScored(memory, p) :: multiset(a)[p] == multiset(b)[p] {
      SameCountsSameScores(memory, a, b, query);
    }
  }
}
