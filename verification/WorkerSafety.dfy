/** What every run of the worker protocol keeps, and what a query returns. */
module WorkerSafety {
  import opened Wrappers
  import opened Sorting
  import opened MapReduce
  import opened ScoreCounts
  import opened Schedulers
  import opened WorkerProtocol
  import opened WorkerInvariant

  lemma AnswerIsNew(c: Config, s: State, w: nat)
    requires WellFormed(c) && Inv(c, s) && w < |s.workers| && s.workers[w].Mapping?
    ensures s.workers[w].call < |s.calls| && w !in s.calls[s.workers[w].call].promises
  {
    var k := s.workers[w].call;
    assert CommandOk(s.inboxes[w], s.workers[w], s.calls[k], w, k);
  }

  // Promises that are set keep their value.
  ghost predicate Kept(before: seq<Call>, after: seq<Call>) {
    && |after| == |before|
    && forall k, w | 0 <= k < |before| && w in before[k].promises ::
         w in after[k].promises && after[k].promises[w] == before[k].promises[w]
  }

  lemma KeptElsewhere(calls: seq<Call>, k: nat, call: Call)
    requires k < |calls|
    requires forall w | w in calls[k].promises :: w in call.promises && call.promises[w] == calls[k].promises[w]
    ensures Kept(calls, calls[k := call])
  {
  }

  lemma WorkKeeps(c: Config, s: State, w: nat)
    requires WellFormed(c) && Inv(c, s) && Enabled(c, s, Work(w))
    ensures Kept(s.calls, NextWork(c, s, w).calls)
  {
    if s.workers[w].Mapping? && s.workers[w].done >= |s.lists[w]| {
      var k := s.workers[w].call;
      AnswerIsNew(c, s, w);
      KeptElsewhere(s.calls, k, Answered(s.calls[k], s.version, w, s.lists[w], s.workers[w].scores));
    } else {
      assert NextWork(c, s, w).calls == s.calls;
    }
  }

  // Where a command's promise is set, it was not set before; once set it keeps its value.
  lemma PromisesAreSetOnce(c: Config, s: State, e: Event)
    requires WellFormed(c) && Reachable(c, s) && Enabled(c, s, e)
    ensures Kept(s.calls, Next(c, s, e).calls)
  {
    ReachableInv(c, s);
    match e
    case Start(k) => assert CallOk(c.workers, s.calls[k]); KeptElsewhere(s.calls, k, Begun(s));
    case Select(k) => KeptElsewhere(s.calls, k, NextSelection(s.lists, s.version, s.calls[k]));
    case Reduce(k) => KeptElsewhere(s.calls, k, NextReduce(s.calls[k]));
    case Work(w) => WorkKeeps(c, s, w);
    case Write(x) => assert NextWrite(c, s, x).calls == s.calls;
  }

  // Commands are neither lost nor duplicated: every one sent is in its inbox, with its worker, or answered.
  lemma EveryCommandIsSomewhere(c: Config, s: State, k: nat, w: nat)
    requires WellFormed(c) && Reachable(c, s) && k < |s.calls| && w < c.workers
    ensures |s.inboxes| == |s.workers| == c.workers
    ensures w in s.calls[k].asked ==> Places(s.inboxes[w], s.workers[w], s.calls[k], w, k) == 1
    ensures w !in s.calls[k].asked ==> Places(s.inboxes[w], s.workers[w], s.calls[k], w, k) == 0
  {
    ReachableInv(c, s);
    assert CommandOk(s.inboxes[w], s.workers[w], s.calls[k], w, k);
  }

  // The write lock excludes every reader and every other writer.
  lemma WritersAreAlone(c: Config, s: State, x: nat)
    requires WellFormed(c) && Reachable(c, s) && x < |s.writers| && Holds(s.writers[x])
    ensures forall w | 0 <= w < |s.workers| :: !Reads(s.workers[w])
    ensures forall y | 0 <= y < |s.writers| && y != x :: !Holds(s.writers[y])
  {
    ReachableInv(c, s);
  }

  // While nobody redistributes, the workers' lists are the distribution of the coordinator's chunks.
  lemma SettledListsAreDistribution(c: Config, s: State)
    requires WellFormed(c) && Reachable(c, s) && Settled(s.writers)
    ensures s.lists == Deques(c.form, s.chunks, c.workers)
  {
    ReachableInv(c, s);
  }

  // The step changes a worker's list: it is one of a redistribution's two loops.
  predicate ChangesLists(c: Config, s: State, e: Event) {
    e.Write? && e.x < |s.writers| && Redistributing(s.writers[e.x]) && s.writers[e.x].next < c.workers
  }

  // The lists change only under the write lock, and every change is counted.
  lemma ListsChangeUnderLock(c: Config, s: State, e: Event)
    requires WellFormed(c) && Reachable(c, s) && Enabled(c, s, e)
    ensures if ChangesLists(c, s, e) then Next(c, s, e).version == s.version + 1 && s.holder.Some? && s.readers == {}
            else Next(c, s, e).version == s.version && Next(c, s, e).lists == s.lists
  {
    ReachableInv(c, s);
    if e.Write? { assert Holds(s.writers[e.x]) <==> s.holder == Some(e.x); }
  }

  // The lists mapped for the answers, in the order in which the workers were asked.
  function AnsweredLists(call: Call): (r: seq<seq<WeakPtr>>)
    requires forall v | v in call.asked :: v in call.mapped
    ensures |r| == |call.asked|
  {
    seq(|call.asked|, i requires 0 <= i < |call.asked| => assert call.asked[i] in call.asked; call.mapped[call.asked[i]])
  }

  lemma {:induction false} GatheredIsFlat(c: Config, call: Call, k: nat, i: nat)
    requires WellFormed(c) && k < |c.queries| && AnswersOk(c, call, k) && i <= |call.asked|
    requires forall v | v in call.asked :: v in call.promises
    ensures Gathered(call, i) == ListScores(c.memory, Flatten(AnsweredLists(call)[..i]), c.queries[k])
  {
    if i > 0 {
      var lists := AnsweredLists(call);
      GatheredIsFlat(c, call, k, i - 1);
      assert lists[..i] == lists[..i - 1] + [lists[i - 1]];
      FlattenSnoc(lists[..i - 1], lists[i - 1]);
      ListScoresConcat(c.memory, Flatten(lists[..i - 1]), lists[i - 1], c.queries[k]);
      assert call.asked[i - 1] in call.promises;
    }
  }

  // The workers with a list that is not empty, in order.
  lemma {:induction false} BusyBelowIs(lists: seq<seq<WeakPtr>>, n: nat)
    requires n <= |lists|
    ensures forall v: nat :: v in BusyBelow(lists, n) <==> v < n && lists[v] != []
    ensures forall i, j | 0 <= i < j < |BusyBelow(lists, n)| :: BusyBelow(lists, n)[i] < BusyBelow(lists, n)[j]
  {
    if n > 0 { BusyBelowIs(lists, n - 1); }
  }

  lemma AnswersAreReturned(c: Config, s: State, k: nat)
    requires WellFormed(c) && Reachable(c, s) && k < |s.calls| && s.calls[k].phase.Returned?
    ensures |s.calls| == |c.queries| && |s.calls[k].looked| == c.workers
    ensures s.calls[k].asked == BusyBelow(s.calls[k].looked, c.workers)
    ensures forall v | v in s.calls[k].asked :: v in s.calls[k].mapped
    ensures s.calls[k].phase.scores == ListScores(c.memory, Flatten(AnsweredLists(s.calls[k])), c.queries[k])
  {
    ReachableInv(c, s);
    var call := s.calls[k];
    assert CallOk(c.workers, call) && AnswersOk(c, call, k);
    forall v | v in call.asked ensures v in call.promises {
      var j :| 0 <= j < |call.asked| && call.asked[j] == v;
    }
    GatheredIsFlat(c, call, k, |call.asked|);
    assert AnsweredLists(call)[..|call.asked|] == AnsweredLists(call);
  }

  /** Every call that has returned, whatever writers did meanwhile: it looked at every worker once and asked exactly
      those whose list was not empty then, each of them answered, and it returns the scores of the lists that were mapped
      for these answers, one list after the other. */
  lemma EveryCallReturnsItsAnswers(c: Config, s: State, k: nat)
    requires WellFormed(c) && Reachable(c, s) && k < |s.calls| && s.calls[k].phase.Returned?
    ensures |s.calls| == |c.queries| && |s.calls[k].looked| == c.workers
    ensures forall v: nat :: v in s.calls[k].asked <==> v < c.workers && s.calls[k].looked[v] != []
    ensures forall i, j | 0 <= i < j < |s.calls[k].asked| :: s.calls[k].asked[i] < s.calls[k].asked[j]
    ensures forall v | v in s.calls[k].asked :: v in s.calls[k].mapped
    ensures s.calls[k].phase.scores == ListScores(c.memory, Flatten(AnsweredLists(s.calls[k])), c.queries[k])
  {
    AnswersAreReturned(c, s, k);
    BusyBelowIs(s.calls[k].looked, c.workers);
  }

  /** A call that has returned, whatever writers did meanwhile, returns the bag of scores that one worker holding the
      given chunks returns, if and only if the lists mapped for its answers hold every chunk that has scores as often as
      it is given (or hold as many vectors, where vectors have no dimensions). */
  lemma CallIsExactIff(c: Config, s: State, k: nat, chunks: seq<WeakPtr>)
    requires WellFormed(c) && Reachable(c, s) && k < |s.calls| && s.calls[k].phase.Returned? && DistinctIndices(c.memory)
    ensures |s.calls| == |c.queries| && forall v | v in s.calls[k].asked :: v in s.calls[k].mapped
    ensures var answered, query := Flatten(AnsweredLists(s.calls[k])), c.queries[k];
            multiset(s.calls[k].phase.scores) == multiset(ListScores(c.memory, chunks, query)) <==>
              if query == [] then ListVectors(c.memory, answered) == ListVectors(c.memory, chunks)
              else forall p | p in c.memory && c.memory[p].vectors > 0 :: multiset(answered)[p] == multiset(chunks)[p]
  {
    AnswersAreReturned(c, s, k);
    SameScoresIff(c.memory, Flatten(AnsweredLists(s.calls[k])), chunks, c.queries[k]);
  }

  function Picked(lists: seq<seq<WeakPtr>>, idx: seq<nat>): (r: seq<seq<WeakPtr>>)
    requires forall i | 0 <= i < |idx| :: idx[i] < |lists|
    ensures |r| == |idx|
  {
    seq(|idx|, i requires 0 <= i < |idx| => lists[idx[i]])
  }

  lemma PickedSnoc(lists: seq<seq<WeakPtr>>, idx: seq<nat>, i: nat)
    requires i < |lists| && forall k | 0 <= k < |idx| :: idx[k] < |lists|
    ensures Picked(lists, idx + [i]) == Picked(lists, idx) + [lists[i]]
  {
  }

  // Leaving out the workers without chunks leaves out nothing.
  lemma {:induction false} BusyListsAreAll(lists: seq<seq<WeakPtr>>, n: nat)
    requires n <= |lists|
    ensures Flatten(Picked(lists, BusyBelow(lists, n))) == Flatten(lists[..n])
  {
    if n > 0 {
      BusyListsAreAll(lists, n - 1);
      var before := BusyBelow(lists, n - 1);
      assert lists[..n] == lists[..n - 1] + [lists[n - 1]];
      FlattenSnoc(lists[..n - 1], lists[n - 1]);
      if lists[n - 1] == [] {
        assert BusyBelow(lists, n) == before;
      } else {
        PickedSnoc(lists, before, n - 1);
        FlattenSnoc(Picked(lists, before), lists[n - 1]);
      }
    }
  }

  // The recorded flag: a steady call returns the scores of the lists it began with, in the order of the workers.
  lemma SteadyCallIsExact(c: Config, s: State, k: nat)
    requires WellFormed(c) && Reachable(c, s) && k < |s.calls| && s.calls[k].phase.Returned? && s.calls[k].steady
    ensures |s.calls| == |c.queries|
    ensures s.calls[k].phase.scores == ParallelScores(c.memory, s.calls[k].seen, c.queries[k])
  {
    AnswersAreReturned(c, s, k);
    ReachableInv(c, s);
    var call := s.calls[k];
    assert SteadyOk(c, s.lists, s.version, call);
    assert call.looked == call.seen && call.asked == BusyBelow(call.seen, c.workers);
    SteadyAnswers(call);
    BusyListsAreAll(call.seen, c.workers);
    assert call.seen[..c.workers] == call.seen;
    ParallelIsFlat(c.memory, call.seen, c.queries[k]);
  }

  lemma SteadyAnswers(call: Call)
    requires forall v | v in call.asked :: v in call.mapped
    requires forall v | v in call.mapped :: v < |call.seen| && call.mapped[v] == call.seen[v]
    ensures forall i | 0 <= i < |call.asked| :: call.asked[i] < |call.seen|
    ensures AnsweredLists(call) == Picked(call.seen, call.asked)
  {
    assert forall i | 0 <= i < |call.asked| :: call.asked[i] in call.asked;
  }

  lemma {:induction false} RunSnoc(c: Config, s: State, events: seq<Event>, mid: State, e: Event)
    requires WellFormed(c) && Run(c, s, events) == Some(mid) && Enabled(c, mid, e)
    ensures Run(c, s, events + [e]) == Some(Next(c, mid, e))
    decreases |events|
  {
    if events == [] {
      assert [] + [e] == [e] && [e][1..] == [];
    } else {
      assert (events + [e])[0] == events[0] && (events + [e])[1..] == events[1..] + [e];
      RunSnoc(c, Next(c, s, events[0]), events[1..], mid, e);
    }
  }

  ghost predicate Leads(c: Config, from: State, to: State)
    requires WellFormed(c)
  {
    exists events :: Run(c, from, events) == Some(to)
  }

  lemma LeadsFurther(c: Config, from: State, to: State, e: Event, next: State)
    requires WellFormed(c) && Leads(c, from, to) && Enabled(c, to, e) && next == Next(c, to, e)
    ensures Leads(c, from, next)
  {
    var events :| Run(c, from, events) == Some(to);
    RunSnoc(c, from, events, to, e);
  }

  // The writers of this chunk that have appended it.
  ghost function Entering(c: Config, writers: seq<Writer>, p: WeakPtr): set<nat> {
    set x: nat | x < |writers| && x < |c.writers| && c.writers[x] == Some(p)
                 && !writers[x].Outside? && !writers[x].Waiting? && !writers[x].Locked?
  }

  lemma EnteredCounts(c: Config, chunks: seq<WeakPtr>, own: Option<WeakPtr>, p: WeakPtr)
    requires p in c.memory
    ensures multiset(Entered(c, chunks, own))[p] == multiset(chunks)[p] + if own == Some(p) then 1 else 0
  {
    PruneCounts(chunks + if own.Some? then [own.value] else [], c.memory.Keys, p);
  }

  lemma WriteEnters(c: Config, s: State, x: nat, p: WeakPtr)
    requires WellFormed(c) && Shaped(c, s) && x < |s.writers| && p in c.memory
    ensures multiset(NextWrite(c, s, x).chunks)[p] == multiset(s.chunks)[p] +
              if s.writers[x].Locked? && c.writers[x] == Some(p) then 1 else 0
  {
    ChunksWritten(c, s, x);
    if s.writers[x].Locked? { EnteredCounts(c, s.chunks, c.writers[x], p); }
  }

  lemma ChunksWritten(c: Config, s: State, x: nat)
    requires WellFormed(c) && Shaped(c, s) && x < |s.writers|
    ensures s.writers[x].Locked? ==> NextWrite(c, s, x).chunks == Entered(c, s.chunks, c.writers[x])
    ensures !s.writers[x].Locked? ==> multiset(NextWrite(c, s, x).chunks) == multiset(s.chunks)
  {
    if s.writers[x].Clearing? { SortSorts(s.chunks); }
  }

  predicate BeforeEntry(writer: Writer) { writer.Outside? || writer.Waiting? || writer.Locked? }

  lemma WriterMoves(c: Config, s: State, x: nat)
    requires WellFormed(c) && Shaped(c, s) && x < |s.writers|
    ensures |NextWrite(c, s, x).writers| == |s.writers|
    ensures NextWrite(c, s, x).writers == s.writers[x := NextWrite(c, s, x).writers[x]]
    ensures BeforeEntry(NextWrite(c, s, x).writers[x]) <==> s.writers[x].Outside? || s.writers[x].Waiting?
  {
  }

  lemma EnteringMoves(c: Config, writers: seq<Writer>, x: nat, after: seq<Writer>, p: WeakPtr)
    requires x < |writers| == |c.writers| == |after| && forall y | 0 <= y < |writers| && y != x :: after[y] == writers[y]
    requires BeforeEntry(after[x]) <==> writers[x].Outside? || writers[x].Waiting?
    ensures |Entering(c, after, p)|
            == |Entering(c, writers, p)| + if writers[x].Locked? && c.writers[x] == Some(p) then 1 else 0
  {
    if writers[x].Locked? && c.writers[x] == Some(p) {
      EntersNow(c, writers, x, after, p);
    } else {
      assert Entering(c, after, p) == Entering(c, writers, p);
    }
  }

  lemma EntersNow(c: Config, writers: seq<Writer>, x: nat, after: seq<Writer>, p: WeakPtr)
    requires x < |writers| == |c.writers| == |after| && forall y | 0 <= y < |writers| && y != x :: after[y] == writers[y]
    requires writers[x].Locked? && c.writers[x] == Some(p) && !BeforeEntry(after[x])
    ensures |Entering(c, after, p)| == |Entering(c, writers, p)| + 1
  {
    assert x !in Entering(c, writers, p);
    assert Entering(c, after, p) == Entering(c, writers, p) + {x};
  }

  lemma StepEnters(c: Config, s: State, e: Event, p: WeakPtr)
    requires WellFormed(c) && Enabled(c, s, e) && p in c.memory
    ensures multiset(Next(c, s, e).chunks)[p] - |Entering(c, Next(c, s, e).writers, p)|
            == multiset(s.chunks)[p] - |Entering(c, s.writers, p)|
  {
    if e.Write? {
      WriteEnters(c, s, e.x, p);
      WriterMoves(c, s, e.x);
      EnteringMoves(c, s.writers, e.x, NextWrite(c, s, e.x).writers, p);
    } else {
      assert Next(c, s, e).chunks == s.chunks && Next(c, s, e).writers == s.writers;
    }
  }

  lemma {:induction false} RunEnters(c: Config, s: State, events: seq<Event>, p: WeakPtr)
    requires WellFormed(c) && Run(c, s, events).Some? && p in c.memory
    ensures var t := Run(c, s, events).value;
            multiset(t.chunks)[p] - |Entering(c, t.writers, p)| == multiset(s.chunks)[p] - |Entering(c, s.writers, p)|
    decreases |events|
  {
    if events != [] {
      StepEnters(c, s, events[0], p);
      RunEnters(c, Next(c, s, events[0]), events[1..], p);
    }
  }

  /** In every run the coordinator holds a chunk that exists as often as at the beginning, and once more for every writer
      that was to assign it and has got past its lock. */
  lemma AssignedChunksAreHeld(c: Config, s0: State, events: seq<Event>, s: State, p: WeakPtr)
    requires Init(c, s0) && Run(c, s0, events) == Some(s) && p in c.memory
    ensures multiset(s.chunks)[p] == multiset(s0.chunks)[p] +
              |set x: nat | x < |s.writers| && x < |c.writers| && c.writers[x] == Some(p)
                && !s.writers[x].Outside? && !s.writers[x].Waiting? && !s.writers[x].Locked?|
  {
    RunEnters(c, s0, events, p);
    assert Entering(c, s0.writers, p) == {};
  }
}
