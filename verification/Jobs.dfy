/**
  What executors answer, what a job reports, and the reduction that turns one into the other.
  The reduction visits a hash set, so its order is arbitrary; the lemmas say what does not
  depend on that order.
 */
module Jobs {
  import opened Wrappers
  import opened Scores
  import opened Bags
  import opened Orders

  // Identifies the process an executor runs in.
  type Instance = nat

  // The completion types an executor may report; "none" is excluded by assertions in the source.
  datatype Completion = Succeeded | SucceededPartially | Cancelled | Failed

  datatype Answer = Answer(completion: Completion, scores: Option<seq<Score>>)

  datatype Outcome =
    | Completed(completion: Completion, scores: seq<Score>)
    | UnableToStart
    | Raised  // the future throws

  function ScoresOf(a: Answer): seq<Score> {
    if a.scores.Some? then a.scores.value else []
  }

  // The stateful reducer, fed with the answers in the given order.
  function ConcatScores(answers: seq<Answer>): seq<Score> {
    if answers == [] then [] else ConcatScores(answers[..|answers| - 1]) + ScoresOf(answers[|answers| - 1])
  }

  predicate AllSucceeded(answers: seq<Answer>) {
    forall a | a in answers :: a.completion == Succeeded
  }

  // The outcome reported for the answers that were gathered.
  function Aggregate(answers: seq<Answer>): Outcome {
    Completed(if AllSucceeded(answers) then Succeeded else SucceededPartially, ConcatScores(answers))
  }

  // The answers of the executors listed in `idx`, in that order.
  function Select(answers: seq<Option<Answer>>, idx: seq<nat>): (r: seq<Answer>)
    requires forall k | k in idx :: k < |answers| && answers[k].Some?
    ensures |r| == |idx|
  {
    seq(|idx|, i requires 0 <= i < |idx| =>
      assert idx[i] in idx;
      answers[idx[i]].value)
  }

  ghost function ScoreBags(answers: seq<Option<Answer>>): (r: seq<multiset<Score>>)
    ensures |r| == |answers|
  {
    seq(|answers|, k requires 0 <= k < |answers| =>
      if answers[k].Some? then multiset(ScoresOf(answers[k].value)) else multiset{})
  }

  // The scores answered by the executors in `chosen` below n, as a bag: no iteration order is involved.
  ghost function ScoreBag(answers: seq<Option<Answer>>, chosen: set<nat>, n: nat): multiset<Score>
    requires n <= |answers|
  {
    Union(ScoreBags(answers), chosen, n)
  }

  lemma {:induction false} BagIsOrderIndependent(answers: seq<Option<Answer>>, idx: seq<nat>, chosen: set<nat>)
    requires Enumerates(idx, chosen)
    requires forall k | k in chosen :: k < |answers| && answers[k].Some?
    ensures multiset(ConcatScores(Select(answers, idx))) == ScoreBag(answers, chosen, |answers|)
    decreases |idx|
  {
    var picked := Select(answers, idx);
    if idx == [] {
      assert chosen == {};
      UnionEmpty(ScoreBags(answers), |answers|);
    } else {
      var last := idx[|idx| - 1];
      var front := idx[..|idx| - 1];
      assert last in idx && idx == front + [last];
      forall x ensures x in front <==> x in chosen - {last} {
        if x in front { var i :| 0 <= i < |front| && front[i] == x; assert idx[i] == x && idx[i] != idx[|idx| - 1]; }
      }
      BagIsOrderIndependent(answers, front, chosen - {last});
      assert picked[..|picked| - 1] == Select(answers, front);
      UnionWithout(ScoreBags(answers), chosen, chosen - {last}, last, |answers|);
    }
  }

  lemma SuccessIsOrderIndependent(answers: seq<Option<Answer>>, idx: seq<nat>, chosen: set<nat>)
    requires Enumerates(idx, chosen)
    requires forall k | k in chosen :: k < |answers| && answers[k].Some?
    ensures AllSucceeded(Select(answers, idx)) <==> forall k | k in chosen :: answers[k].value.completion == Succeeded
  {
    var picked := Select(answers, idx);
    forall k | k in chosen ensures answers[k].value in picked {
      var i :| 0 <= i < |idx| && idx[i] == k;
      assert picked[i] == answers[k].value;
    }
    forall a | a in picked ensures exists k :: k in chosen && answers[k].value == a {
      var i :| 0 <= i < |picked| && picked[i] == a;
      assert idx[i] in chosen;
    }
  }

  // What a completed job has to report about the executors in `chosen`, stated without any order.
  ghost predicate IsReduction(answers: seq<Option<Answer>>, chosen: set<nat>, outcome: Outcome) {
    && (forall k | k in chosen :: k < |answers| && answers[k].Some?)
    && outcome.Completed?
    && multiset(outcome.scores) == ScoreBag(answers, chosen, |answers|)
    && outcome.completion ==
       (if forall k | k in chosen :: answers[k].value.completion == Succeeded then Succeeded else SucceededPartially)
  }

  // Answers never change once given, so a reduction made earlier stays a correct one.
  lemma ReductionIsStable(before: seq<Option<Answer>>, after: seq<Option<Answer>>, chosen: set<nat>, outcome: Outcome)
    requires IsReduction(before, chosen, outcome) && |before| == |after|
    requires forall k | 0 <= k < |before| :: before[k].Some? ==> after[k] == before[k]
    ensures IsReduction(after, chosen, outcome)
  {
    UnionSame(ScoreBags(before), ScoreBags(after), chosen, chosen, |before|);
  }

  // Where score x stands: executor, and position in its answer.
  ghost function Spots(answers: seq<Option<Answer>>, chosen: set<nat>, n: nat, x: Score): set<(nat, nat)>
    requires n <= |answers|
  {
    set k: nat, i: nat | k in chosen && k < n && answers[k].Some? && answers[k].value.scores.Some?
                         && i < |answers[k].value.scores.value| && answers[k].value.scores.value[i] == x :: (k, i)
  }

  ghost function SpotsOf(answers: seq<Option<Answer>>, k: nat, x: Score): set<(nat, nat)>
    requires k < |answers| && HasScores(answers, k)
  {
    SpotsIn(answers[k].value.scores.value, k, |answers[k].value.scores.value|, x)
  }

  lemma SpotsOfOne(answers: seq<Option<Answer>>, k: nat, x: Score)
    requires k < |answers| && HasScores(answers, k)
    ensures |SpotsOf(answers, k, x)| == multiset(answers[k].value.scores.value)[x]
  {
    var scores := answers[k].value.scores.value;
    SpotsInCount(scores, k, |scores|, x);
    assert scores[..|scores|] == scores;
  }

  predicate HasScores(answers: seq<Option<Answer>>, k: nat)
    requires k < |answers|
  {
    answers[k].Some? && answers[k].value.scores.Some?
  }

  lemma SpotsNext(answers: seq<Option<Answer>>, chosen: set<nat>, n: nat, x: Score)
    requires n < |answers|
    ensures Spots(answers, chosen, n + 1, x)
            == Spots(answers, chosen, n, x) + if n in chosen && HasScores(answers, n) then SpotsOf(answers, n, x) else {}
    ensures forall q | q in Spots(answers, chosen, n, x) :: q.0 < n
  {
  }

  lemma UnionNext(answers: seq<Option<Answer>>, chosen: set<nat>, n: nat, x: Score)
    requires n < |answers|
    ensures ScoreBag(answers, chosen, n + 1)[x] == ScoreBag(answers, chosen, n)[x] +
              if n in chosen && HasScores(answers, n) then multiset(answers[n].value.scores.value)[x] else 0
  {
  }

  lemma CountsNext(answers: seq<Option<Answer>>, chosen: set<nat>, n: nat, x: Score)
    requires n < |answers|
    ensures |Spots(answers, chosen, n + 1, x)| == |Spots(answers, chosen, n, x)| +
              if n in chosen && HasScores(answers, n) then multiset(answers[n].value.scores.value)[x] else 0
  {
    SpotsNext(answers, chosen, n, x);
    if n in chosen && HasScores(answers, n) {
      SpotsOfOne(answers, n, x);
      DisjointSizes(Spots(answers, chosen, n, x), SpotsOf(answers, n, x), n);
    }
  }

  lemma {:induction false} UnionCounts(answers: seq<Option<Answer>>, chosen: set<nat>, n: nat, x: Score)
    requires n <= |answers|
    ensures ScoreBag(answers, chosen, n)[x] == |Spots(answers, chosen, n, x)|
  {
    if n == 0 {
      assert Spots(answers, chosen, 0, x) == {};
    } else {
      UnionCounts(answers, chosen, n - 1, x);
      CountsNext(answers, chosen, n - 1, x);
      UnionNext(answers, chosen, n - 1, x);
    }
  }

  /** What a reduction reports, score by score: each as often as it stands in the answers of the chosen executors. An
      answer without scores contributes none. */
  lemma EveryScoreIsReported(answers: seq<Option<Answer>>, chosen: set<nat>, outcome: Outcome)
    requires IsReduction(answers, chosen, outcome)
    ensures forall x :: multiset(outcome.scores)[x] ==
              |set k: nat, i: nat | k in chosen && k < |answers| && answers[k].Some? && answers[k].value.scores.Some?
                && i < |answers[k].value.scores.value| && answers[k].value.scores.value[i] == x :: (k, i)|
  {
    forall x ensures multiset(outcome.scores)[x] == |Spots(answers, chosen, |answers|, x)| {
      UnionCounts(answers, chosen, |answers|, x);
    }
  }

  // Whatever order the hash set is visited in, the reducer ends with the same bag of scores.
  lemma ReductionIsOrderIndependent(answers: seq<Option<Answer>>, idx: seq<nat>, chosen: set<nat>)
    requires Enumerates(idx, chosen)
    requires forall k | k in chosen :: k < |answers| && answers[k].Some?
    ensures forall x :: multiset(ConcatScores(Select(answers, idx)))[x] ==
              |set k: nat, i: nat | k in chosen && k < |answers| && answers[k].Some? && answers[k].value.scores.Some?
                && i < |answers[k].value.scores.value| && answers[k].value.scores.value[i] == x :: (k, i)|
  {
    BagIsOrderIndependent(answers, idx, chosen);
    SuccessIsOrderIndependent(answers, idx, chosen);
    EveryScoreIsReported(answers, chosen, Aggregate(Select(answers, idx)));
  }
}
