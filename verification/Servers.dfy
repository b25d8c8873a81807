/** The server's check of the result size, and its search for the best and the worst score. */
module Servers {
  import opened Scores
  import opened Sorting
  import opened MapReduce
  import opened Multiples
  import opened Schedulers
  import opened Packing

  lemma Regroup(k: nat, V: nat, size: nat, total: nat)
    requires total == V * size
    ensures k * total == (k * V) * size
  {
  }

  lemma ExpectedCount(k: nat, targetChunkSize: nat, D: nat)
    requires 0 < D && targetChunkSize % (FLOAT_BYTES * D) == 0
    ensures k * targetChunkSize / (FLOAT_BYTES * D) == k * (targetChunkSize / (FLOAT_BYTES * D))
  {
    var size := FLOAT_BYTES * D;
    var V := targetChunkSize / size;
    Quotient(targetChunkSize, size);
    TimesIsProduct(V, size);
    TimesIsProduct(k * V, size);
    Regroup(k, V, size, targetChunkSize);
    DivisionIsUnique(k * targetChunkSize, k * V, size, 0);
  }

  /** The server's assertion holds: a query over all chunks, each of which has room for as many vectors as fit in the
      target size, yields as many results as the sizes say. It holds for the distribution as written, too, although the
      results are then not those of all chunks. */
  lemma ServerAssertionHolds(form: Form, memory: Memory, s: seq<WeakPtr>, workers: nat, query: seq<real>,
                             targetChunkSize: nat)
    requires AllFit(memory, query) && 0 < workers && 0 < |query|
    requires targetChunkSize % (FLOAT_BYTES * |query|) == 0
    requires forall p | p in s :: p in memory && memory[p].vectors == targetChunkSize / (FLOAT_BYTES * |query|)
    ensures |ParallelScores(memory, Deques(form, s, workers), query)|
            == |s| * targetChunkSize / (FLOAT_BYTES * |query|)
  {
    ResultSizeIsConserved(form, memory, s, workers, query, targetChunkSize / (FLOAT_BYTES * |query|));
    ExpectedCount(|s|, targetChunkSize, |query|);
  }

  // A comparison with NaN is false.
  predicate Above(a: Score, b: Score) { a.Score? && b.Score? && a.value > b.value }

  predicate Below(a: Score, b: Score) { a.Score? && b.Score? && a.value < b.value }

  // The first of the greatest valid scores, or an invalid one if no score is valid.
  ghost predicate IsBest(best: Score, results: seq<Score>) {
    if best.Unset? then forall i | 0 <= i < |results| :: results[i].Unset?
    else exists i | 0 <= i < |results| ::
           && results[i] == best
           && (forall j | 0 <= j < |results| && results[j].Score? :: results[j].value <= best.value)
           && (forall j | 0 <= j < i && results[j].Score? :: results[j].value < best.value)
  }

  ghost predicate IsWorst(worst: Score, results: seq<Score>) {
    if worst.Unset? then forall i | 0 <= i < |results| :: results[i].Unset?
    else exists i | 0 <= i < |results| ::
           && results[i] == worst
           && (forall j | 0 <= j < |results| && results[j].Score? :: worst.value <= results[j].value)
           && (forall j | 0 <= j < i && results[j].Score? :: worst.value < results[j].value)
  }

  lemma StillBest(best: Score, results: seq<Score>, next: Score)
    requires IsBest(best, results)
    ensures IsBest(if Above(next, best) || best.Unset? then next else best, results + [next])
  {
    if Above(next, best) || best.Unset? {
      assert next == (results + [next])[|results|];
    } else {
      var i :| 0 <= i < |results| && results[i] == best
               && (forall j | 0 <= j < |results| && results[j].Score? :: results[j].value <= best.value)
               && (forall j | 0 <= j < i && results[j].Score? :: results[j].value < best.value);
      assert (results + [next])[i] == best;
    }
  }

  lemma StillWorst(worst: Score, results: seq<Score>, next: Score)
    requires IsWorst(worst, results)
    ensures IsWorst(if Below(next, worst) || worst.Unset? then next else worst, results + [next])
  {
    if Below(next, worst) || worst.Unset? {
      assert next == (results + [next])[|results|];
    } else {
      var i :| 0 <= i < |results| && results[i] == worst
               && (forall j | 0 <= j < |results| && results[j].Score? :: worst.value <= results[j].value)
               && (forall j | 0 <= j < i && results[j].Score? :: worst.value < results[j].value);
      assert (results + [next])[i] == worst;
    }
  }

  method BestAndWorst(results: seq<Score>) returns (best: Score, worst: Score)
    ensures IsBest(best, results) && IsWorst(worst, results)
    ensures best.Unset? <==> forall r | r in results :: r.Unset?
    ensures worst.Unset? <==> forall r | r in results :: r.Unset?
    ensures best.Score? ==> best in results && forall r | r in results && r.Score? :: r.value <= best.value
    ensures worst.Score? ==> worst in results && forall r | r in results && r.Score? :: worst.value <= r.value
  {
    best, worst := Unset, Unset;
    for i := 0 to |results|
      invariant IsBest(best, results[..i]) && IsWorst(worst, results[..i])
    {
      StillBest(best, results[..i], results[i]);
      StillWorst(worst, results[..i], results[i]);
      assert results[..i + 1] == results[..i] + [results[i]];
      if Above(results[i], best) || best.Unset? {
        best := results[i];
      }
      if Below(results[i], worst) || worst.Unset? {
        worst := results[i];
      }
    }
    assert results[..|results|] == results;
  }
}
