/** Mapping chunks to scores, combining them per worker and reducing them per job. */
module MapReduce {
  import opened Wrappers
  import opened Scores
  import opened DotProducts
  import opened Sorting

  datatype MemChunk = MemChunk(index: nat, vectors: nat, dimensions: nat, data: seq<real>)

  type Memory = map<WeakPtr, MemChunk>

  predicate Fits(chunk: MemChunk, query: seq<real>) {
    |chunk.data| == chunk.vectors * chunk.dimensions && |query| == chunk.dimensions
  }

  predicate AllFit(memory: Memory, query: seq<real>) {
    forall p | p in memory :: Fits(memory[p], query)
  }

  lemma VectorInside(v: nat, vectors: nat, dimensions: nat)
    requires v < vectors
    ensures 0 <= v * dimensions <= (v + 1) * dimensions <= vectors * dimensions
    ensures (v + 1) * dimensions == v * dimensions + dimensions
  {
    var rest := vectors - (v + 1);
    assert vectors * dimensions == (v + 1) * dimensions + rest * dimensions;
  }

  // The vector number v of a chunk.
  function VectorOf(chunk: MemChunk, v: nat): (r: seq<real>)
    requires |chunk.data| == chunk.vectors * chunk.dimensions && v < chunk.vectors
    ensures |r| == chunk.dimensions
  {
    VectorInside(v, chunk.vectors, chunk.dimensions);
    chunk.data[v * chunk.dimensions..(v + 1) * chunk.dimensions]
  }

  // One score per vector, in order. Vectors without dimensions are never scored.
  function ChunkScores(chunk: MemChunk, query: seq<real>): (r: seq<Score>)
    requires Fits(chunk, query)
    ensures |r| == chunk.vectors
  {
    seq(chunk.vectors, v requires 0 <= v < chunk.vectors =>
      if chunk.dimensions == 0 then Unset else Score(chunk.index, v, Dot(VectorOf(chunk, v), query)))
  }

  method Map(chunk: MemChunk, query: seq<real>) returns (outScores: seq<Score>)
    requires Fits(chunk, query)
    ensures outScores == ChunkScores(chunk, query)
    ensures |outScores| == chunk.vectors && (|query| == 0 ==> forall v | 0 <= v < chunk.vectors :: outScores[v] == Unset)
    ensures |query| > 0 ==> forall v: nat {:trigger outScores[v]} | v < chunk.vectors ::
              && 0 <= v * |query| <= (v + 1) * |query| <= |chunk.data|
              && |chunk.data[v * |query|..(v + 1) * |query|]| == |query|
              && outScores[v] == Score(chunk.index, v, Dot(chunk.data[v * |query|..(v + 1) * |query|], query))
  {
    outScores := MapVectors(chunk, query);
    if 0 < |query| { MappedScores(chunk, query); }
  }

  // The loop over the vectors, with one counter for the floats and one for the vectors.
  method MapVectors(chunk: MemChunk, query: seq<real>) returns (outScores: seq<Score>)
    requires Fits(chunk, query)
    ensures outScores == ChunkScores(chunk, query)
  {
    var N := |query|;
    outScores := seq(chunk.vectors, _ => Unset);
    var elementCount := chunk.vectors * chunk.dimensions;
    var startIdx, vectorIdx := 0, 0;
    while startIdx < elementCount
      invariant startIdx == vectorIdx * N && vectorIdx <= chunk.vectors
      invariant N == 0 ==> startIdx == elementCount == 0
      invariant |outScores| == chunk.vectors
      invariant forall v | 0 <= v < chunk.vectors ::
                  outScores[v] == if v < vectorIdx then ChunkScores(chunk, query)[v] else Unset
      decreases elementCount - startIdx
    {
      assert vectorIdx < chunk.vectors;
      VectorInside(vectorIdx, chunk.vectors, N);
      outScores := outScores[vectorIdx := Score(chunk.index, vectorIdx, Dot(chunk.data[startIdx..startIdx + N], query))];
      startIdx, vectorIdx := startIdx + N, vectorIdx + 1;
    }
    if N > 0 {
      AllVectors(vectorIdx, chunk.vectors, N);
    }
  }

  lemma MappedScores(chunk: MemChunk, query: seq<real>)
    requires Fits(chunk, query) && 0 < |query|
    ensures forall v: nat | v < chunk.vectors :: ScoreIs(chunk, query, v, ChunkScores(chunk, query)[v])
  {
    forall v: nat | v < chunk.vectors ensures ScoreIs(chunk, query, v, ChunkScores(chunk, query)[v]) {
      ChunkScoreAt(chunk, query, v);
    }
  }

  // The score of vector v, which lies at v times the dimension.
  predicate ScoreIs(chunk: MemChunk, query: seq<real>, v: nat, score: Score) {
    && 0 <= v * |query| <= (v + 1) * |query| <= |chunk.data|
    && |chunk.data[v * |query|..(v + 1) * |query|]| == |query|
    && score == Score(chunk.index, v, Dot(chunk.data[v * |query|..(v + 1) * |query|], query))
  }

  lemma ChunkScoreAt(chunk: MemChunk, query: seq<real>, v: nat)
    requires Fits(chunk, query) && 0 < |query| && v < chunk.vectors
    ensures ScoreIs(chunk, query, v, ChunkScores(chunk, query)[v])
  {
    VectorInside(v, chunk.vectors, |query|);
  }

  lemma AllVectors(v: nat, vectors: nat, dimensions: nat)
    requires v <= vectors && dimensions > 0 && v * dimensions >= vectors * dimensions
    ensures v == vectors
  {
    if v < vectors { VectorInside(v, vectors, dimensions); }
  }

  // The combiner and the reducer alike collect every score they are fed.
  class KeepAll {
    var scores: seq<Score>

    constructor ()
      ensures scores == []
    {
      scores := [];
    }

    method Begin()
      modifies this
      ensures scores == []
    {
      scores := [];
    }

    method Feed(other: seq<Score>)
      modifies this
      ensures scores == old(scores) + other
    {
      for i := 0 to |other|
        invariant scores == old(scores) + other[..i]
      {
        scores := scores + [other[i]];
      }
      assert other[..|other|] == other;
    }

    method Finish() returns (result: seq<Score>)
      ensures result == scores
    {
      return scores;
    }
  }

  function Concat(parts: seq<seq<Score>>): seq<Score> {
    if parts == [] then [] else Concat(parts[..|parts| - 1]) + parts[|parts| - 1]
  }

  function Collected(items: seq<KeepAll>): seq<seq<Score>>
    reads items
  {
    seq(|items|, i requires 0 <= i < |items| reads items => items[i].scores)
  }

  // A reduction of reducers: the aggregate holds what each of them collected, in order.
  method ReduceAll(items: seq<KeepAll>) returns (result: seq<Score>)
    ensures exists parts ::
              && |parts| == |items| && (forall i | 0 <= i < |items| :: parts[i] == items[i].scores)
              && result == Concat(parts)
  {
    var aggregator := new KeepAll();
    aggregator.Begin();
    for i := 0 to |items|
      invariant fresh(aggregator) && aggregator !in items
      invariant aggregator.scores == Concat(Collected(items)[..i])
    {
      var part := items[i].Finish();
      aggregator.Feed(part);
      assert Collected(items)[..i + 1][..i] == Collected(items)[..i];
    }
    assert Collected(items)[..|items|] == Collected(items);
    result := aggregator.Finish();
  }

  // The scores of the chunks on a worker's list that still exist, in the order of the list.
  function ListScores(memory: Memory, list: seq<WeakPtr>, query: seq<real>): seq<Score>
    requires AllFit(memory, query)
  {
    if list == [] then []
    else
      var last := list[|list| - 1];
      ListScores(memory, list[..|list| - 1], query) + if last in memory then ChunkScores(memory[last], query) else []
  }

  function ListVectors(memory: Memory, list: seq<WeakPtr>): nat {
    if list == [] then 0
    else
      var last := list[|list| - 1];
      ListVectors(memory, list[..|list| - 1]) + if last in memory then memory[last].vectors else 0
  }

  // As many scores as vectors were processed.
  lemma {:induction false} OneScorePerVector(memory: Memory, list: seq<WeakPtr>, query: seq<real>)
    requires AllFit(memory, query)
    ensures |ListScores(memory, list, query)| == ListVectors(memory, list)
  {
    if list != [] { OneScorePerVector(memory, list[..|list| - 1], query); }
  }

  lemma {:induction false} ListScoresConcat(memory: Memory, a: seq<WeakPtr>, b: seq<WeakPtr>, query: seq<real>)
    requires AllFit(memory, query)
    ensures ListScores(memory, a + b, query) == ListScores(memory, a, query) + ListScores(memory, b, query)
    decreases |b|
  {
    if b == [] {
      assert a + b == a;
    } else {
      assert (a + b)[..|a + b| - 1] == a + b[..|b| - 1];
      ListScoresConcat(memory, a, b[..|b| - 1], query);
    }
  }

  /** Where every score comes from: chunk i of the list, if it exists, contributes one score per vector, behind those of the
      existing chunks before it and in the order of its vectors; each is the dot product with the floats of this vector. */
  lemma ListScoreAt(memory: Memory, list: seq<WeakPtr>, i: nat, v: nat, query: seq<real>)
    requires AllFit(memory, query) && 0 < |query|
    requires i < |list| && list[i] in memory && v < memory[list[i]].vectors
    ensures var scores, chunk, at := ListScores(memory, list, query), memory[list[i]], ListVectors(memory, list[..i]) + v;
            && 0 <= v * |query| <= (v + 1) * |query| <= |chunk.data|
            && |chunk.data[v * |query|..(v + 1) * |query|]| == |query|
            && at < |scores|
            && scores[at] == Score(chunk.index, v, Dot(chunk.data[v * |query|..(v + 1) * |query|], query))
  {
    var front, rest := list[..i], list[i + 1..];
    var upTo := list[..i + 1];
    assert list == upTo + rest && upTo[..i] == front;
    ListScoresConcat(memory, upTo, rest, query);
    OneScorePerVector(memory, front, query);
    ChunkScoreAt(memory[list[i]], query, v);
  }

  ghost function ScoreBag(memory: Memory, list: seq<WeakPtr>, query: seq<real>): multiset<Score>
    requires AllFit(memory, query)
  {
    multiset(ListScores(memory, list, query))
  }

  function DropAt(list: seq<WeakPtr>, i: nat): seq<WeakPtr>
    requires i < |list|
  {
    list[..i] + list[i + 1..]
  }

  lemma TakeOut(memory: Memory, list: seq<WeakPtr>, i: nat, query: seq<real>)
    requires AllFit(memory, query) && i < |list|
    ensures ScoreBag(memory, list, query)
            == ScoreBag(memory, DropAt(list, i), query) + ScoreBag(memory, [list[i]], query)
  {
    var before, after := list[..i], list[i + 1..];
    assert list == (before + [list[i]]) + after;
    ListScoresConcat(memory, before + [list[i]], after, query);
    ListScoresConcat(memory, before, [list[i]], query);
    ListScoresConcat(memory, before, after, query);
  }

  lemma BagWithout(list: seq<WeakPtr>, i: nat)
    requires i < |list|
    ensures multiset(DropAt(list, i)) == multiset(list) - multiset{list[i]} && |DropAt(list, i)| == |list| - 1
  {
    assert list == list[..i] + [list[i]] + list[i + 1..];
  }

  // The bag of scores depends on which chunks are visited how often, not on their order.
  lemma {:induction false} ScoresIgnoreOrder(memory: Memory, a: seq<WeakPtr>, b: seq<WeakPtr>, query: seq<real>)
    requires AllFit(memory, query) && multiset(a) == multiset(b)
    ensures ScoreBag(memory, a, query) == ScoreBag(memory, b, query)
    decreases |a|
  {
    SameSize(a, b);
    if |a| > 0 {
      var p := a[0];
      assert p in multiset(a);
      var i := IndexIn(b, multiset(a), p);
      BagWithout(a, 0);
      BagWithout(b, i);
      TakeOut(memory, a, 0, query);
      TakeOut(memory, b, i, query);
      ScoresIgnoreOrder(memory, DropAt(a, 0), DropAt(b, i), query);
    }
  }

  class Worker {
    var chunks: seq<WeakPtr>

    constructor ()
      ensures chunks == []
    {
      chunks := [];
    }

    method NumChunks() returns (n: nat)
      ensures n == |chunks|
    {
      return |chunks|;
    }

    method AssignChunk(chunk: WeakPtr)
      modifies this
      ensures chunks == old(chunks) + [chunk]
    {
      chunks := chunks + [chunk];
    }

    method UnassignAllChunks()
      modifies this
      ensures chunks == []
    {
      chunks := [];
    }

    // Takes the chunk at the front, so that assigning and unassigning is first in, first out.
    method UnassignChunk() returns (chunk: Option<WeakPtr>)
      modifies this
      ensures old(chunks) == [] ==> chunk == None && chunks == []
      ensures old(chunks) != [] ==> chunk.Some? && [chunk.value] + chunks == old(chunks)
    {
      if chunks == [] { return None; }
      chunk := Some(chunks[0]);
      chunks := chunks[1..];
    }

    // Maps every chunk of the list that still exists and feeds the combiner.
    method Accept(memory: Memory, combiner: KeepAll, query: seq<real>) returns (processed: nat)
      requires AllFit(memory, query)
      modifies combiner
      ensures combiner.scores == old(combiner.scores) + ListScores(memory, chunks, query)
      ensures processed == ListVectors(memory, chunks) == |combiner.scores| - |old(combiner.scores)|
    {
      processed := 0;
      for i := 0 to |chunks|
        invariant combiner.scores == old(combiner.scores) + ListScores(memory, chunks[..i], query)
        invariant processed == ListVectors(memory, chunks[..i])
      {
        assert chunks[..i + 1][..i] == chunks[..i];
        if chunks[i] !in memory { continue; }
        var chunk := memory[chunks[i]];
        var result := Map(chunk, query);
        combiner.Feed(result);
        processed := processed + chunk.vectors;
      }
      assert chunks[..|chunks|] == chunks;
      OneScorePerVector(memory, chunks, query);
    }
  }
}
