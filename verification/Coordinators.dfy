/** The worker thread coordinator: its list of chunks, its workers, and what they hold after any history of calls. */
module Coordinators {
  import opened Scores
  import opened Sorting
  import opened MapReduce
  import opened Multiples
  import opened Schedulers

  // What a coordinator remembers: its chunks, and the list of every worker.
  datatype Ledger = Ledger(chunks: seq<WeakPtr>, deques: seq<seq<WeakPtr>>)

  datatype Op =
    | AddWorker(redistribute: bool)
    | AssignChunk(chunk: WeakPtr, redistribute: bool)
    | Redistribute

  // An operation and the chunks alive while it runs.
  datatype Call = Call(op: Op, live: set<WeakPtr>)

  function Redistributed(form: Form, l: Ledger, live: set<WeakPtr>): Ledger {
    var chunks := Prune(l.chunks, live);
    if |l.deques| == 0 then l.(chunks := chunks)
    else Ledger(SortByAddress(chunks), Deques(form, SortByAddress(chunks), |l.deques|))
  }

  predicate Redistributes(op: Op) {
    op.Redistribute? || op.redistribute
  }

  function Enter(l: Ledger, op: Op): Ledger {
    match op
    case AddWorker(_) => l.(deques := l.deques + [[]])
    case AssignChunk(chunk, _) => l.(chunks := l.chunks + [chunk])
    case Redistribute => l
  }

  function Perform(form: Form, l: Ledger, call: Call): Ledger {
    var entered := Enter(l, call.op);
    if Redistributes(call.op) then Redistributed(form, entered, call.live) else entered
  }

  function Performed(form: Form, calls: seq<Call>): Ledger {
    if calls == [] then Ledger([], [])
    else Perform(form, Performed(form, calls[..|calls| - 1]), calls[|calls| - 1])
  }

  // Every chunk ever assigned, in the order of the calls.
  function EverAssigned(calls: seq<Call>): seq<WeakPtr> {
    if calls == [] then []
    else
      var op := calls[|calls| - 1].op;
      EverAssigned(calls[..|calls| - 1]) + if op.AssignChunk? then [op.chunk] else []
  }

  function WorkersAdded(calls: seq<Call>): nat {
    if calls == [] then 0
    else WorkersAdded(calls[..|calls| - 1]) + if calls[|calls| - 1].op.AddWorker? then 1 else 0
  }

  // An expired chunk stays expired, whatever is allocated in its place.
  ghost predicate NeverRevived(calls: seq<Call>) {
    forall i, j, p | 0 <= i <= j < |calls| && p in EverAssigned(calls[..i + 1]) && p in calls[j].live ::
      p in calls[i].live
  }

  lemma {:induction false} OneDequePerWorker(form: Form, calls: seq<Call>)
    ensures |Performed(form, calls).deques| == WorkersAdded(calls)
  {
    if calls != [] { OneDequePerWorker(form, calls[..|calls| - 1]); }
  }

  lemma RedistributedCounts(form: Form, l: Ledger, live: set<WeakPtr>, p: WeakPtr)
    ensures multiset(Redistributed(form, l, live).chunks)[p] == if p in live then multiset(l.chunks)[p] else 0
  {
    PruneCounts(l.chunks, live, p);
    SortSorts(Prune(l.chunks, live));
  }

  lemma StepKeepsCount(form: Form, before: Ledger, call: Call, p: WeakPtr, earlier: seq<WeakPtr>, now: seq<WeakPtr>)
    requires multiset(before.chunks)[p] == multiset(earlier)[p]
    requires now == earlier + if call.op.AssignChunk? then [call.op.chunk] else []
    requires p in now ==> p in call.live
    ensures multiset(Perform(form, before, call).chunks)[p] == multiset(now)[p]
  {
    var entered := Enter(before, call.op);
    assert multiset(entered.chunks)[p] == multiset(now)[p];
    if Redistributes(call.op) { RedistributedCounts(form, entered, call.live, p); }
  }

  // A chunk that is alive in the last call has lost none of its assignments, whatever came before.
  lemma {:induction false} LiveChunksAreKept(form: Form, calls: seq<Call>, k: nat, p: WeakPtr)
    requires NeverRevived(calls) && k <= |calls| && calls != [] && p in calls[|calls| - 1].live
    ensures multiset(Performed(form, calls[..k]).chunks)[p] == multiset(EverAssigned(calls[..k]))[p]
    decreases k
  {
    if k > 0 {
      LiveChunksAreKept(form, calls, k - 1, p);
      assert calls[..k][..k - 1] == calls[..k - 1];
      if p in EverAssigned(calls[..k - 1 + 1]) { assert p in calls[k - 1].live; }
      StepKeepsCount(form, Performed(form, calls[..k - 1]), calls[k - 1], p,
                     EverAssigned(calls[..k - 1]), EverAssigned(calls[..k]));
    }
  }

  lemma SameCount(form: Form, calls: seq<Call>, p: WeakPtr)
    requires NeverRevived(calls) && calls != []
    ensures var last := calls[|calls| - 1];
            multiset(Prune(Enter(Performed(form, calls[..|calls| - 1]), last.op).chunks, last.live))[p]
            == multiset(Prune(EverAssigned(calls), last.live))[p]
  {
    var last := calls[|calls| - 1];
    PruneCounts(Enter(Performed(form, calls[..|calls| - 1]), last.op).chunks, last.live, p);
    PruneCounts(EverAssigned(calls), last.live, p);
    if p in last.live { LiveChunksAreKept(form, calls, |calls| - 1, p); }
  }

  lemma SameBag(form: Form, calls: seq<Call>)
    requires NeverRevived(calls) && calls != []
    ensures var last := calls[|calls| - 1];
            multiset(Prune(Enter(Performed(form, calls[..|calls| - 1]), last.op).chunks, last.live))
            == multiset(Prune(EverAssigned(calls), last.live))
  {
    var last := calls[|calls| - 1];
    var left := Prune(Enter(Performed(form, calls[..|calls| - 1]), last.op).chunks, last.live);
    var right := Prune(EverAssigned(calls), last.live);
    forall p ensures multiset(left)[p] == multiset(right)[p] { SameCount(form, calls, p); }
  }

  // Whatever the history, redistributing leaves the live ones of all chunks ever assigned, sorted by address.
  lemma RedistributionKeepsLiveChunks(form: Form, calls: seq<Call>)
    requires NeverRevived(calls) && calls != [] && WorkersAdded(calls) > 0
    requires var last := calls[|calls| - 1].op; last.Redistribute? || last.redistribute
    requires Apart(calls[|calls| - 1].live)
    ensures Performed(form, calls).chunks == SortByAddress(Prune(EverAssigned(calls), calls[|calls| - 1].live))
    ensures Performed(form, calls).deques == Deques(form, Performed(form, calls).chunks, WorkersAdded(calls))
  {
    var last := calls[|calls| - 1];
    var entered := Enter(Performed(form, calls[..|calls| - 1]), last.op);
    OneDequePerWorker(form, calls);
    SameBag(form, calls);
    PruneIsLive(entered.chunks, last.live);
    SortsAlike(Prune(entered.chunks, last.live), Prune(EverAssigned(calls), last.live), last.live);
  }

  /** After any history that ends with a redistribution, the workers' lists in worker order are the live chunks sorted
      by address, each as often as it was assigned. */
  lemma HistoryIsPartitioned(calls: seq<Call>)
    requires NeverRevived(calls) && calls != [] && WorkersAdded(calls) > 0
    requires var last := calls[|calls| - 1].op; last.Redistribute? || last.redistribute
    requires Apart(calls[|calls| - 1].live)
    ensures Flatten(Performed(AsIntended, calls).deques)
            == SortByAddress(Prune(EverAssigned(calls), calls[|calls| - 1].live))
  {
    RedistributionKeepsLiveChunks(AsIntended, calls);
    IntendedIsPartition(Performed(AsIntended, calls).chunks, WorkersAdded(calls));
  }

  lemma {:induction false} PruneScores(memory: Memory, list: seq<WeakPtr>, live: set<WeakPtr>, query: seq<real>)
    requires AllFit(memory, query) && forall p | p in list && p in memory :: p in live
    ensures ListScores(memory, Prune(list, live), query) == ListScores(memory, list, query)
  {
    if list != [] {
      var front, last := list[..|list| - 1], list[|list| - 1];
      assert forall p | p in front :: p in list;
      PruneScores(memory, front, live, query);
      if last in live {
        assert (Prune(front, live) + [last])[..|Prune(front, live)|] == Prune(front, live);
      } else {
        assert last in list && Prune(front, live) + [] == Prune(front, live);
      }
    }
  }

  /** A query after any such history returns the bag of scores that a single worker returns which holds every chunk ever
      assigned, even if more chunks have expired since. */
  lemma HistoryIsQueriedLikeOneWorker(calls: seq<Call>, memory: Memory, query: seq<real>)
    requires NeverRevived(calls) && calls != [] && WorkersAdded(calls) > 0
    requires var last := calls[|calls| - 1].op; last.Redistribute? || last.redistribute
    requires Apart(calls[|calls| - 1].live)
    requires AllFit(memory, query)
    requires forall p | p in EverAssigned(calls) && p in memory :: p in calls[|calls| - 1].live
    ensures multiset(ParallelScores(memory, Performed(AsIntended, calls).deques, query))
            == multiset(ListScores(memory, EverAssigned(calls), query))
  {
    var live := calls[|calls| - 1].live;
    RedistributionKeepsLiveChunks(AsIntended, calls);
    ParallelRefinesSequential(memory, Prune(EverAssigned(calls), live), WorkersAdded(calls), query);
    PruneScores(memory, EverAssigned(calls), live, query);
  }

  // The source's distribution after such a history: as many assignments as live chunks, rightly placed only by luck.
  lemma HistoryAsWritten(calls: seq<Call>)
    requires NeverRevived(calls) && calls != [] && WorkersAdded(calls) > 0
    requires var last := calls[|calls| - 1].op; last.Redistribute? || last.redistribute
    requires Apart(calls[|calls| - 1].live)
    ensures var live := SortByAddress(Prune(EverAssigned(calls), calls[|calls| - 1].live));
            var deques := Performed(AsWritten, calls).deques;
            var n, workers := |live|, WorkersAdded(calls);
            && |Flatten(deques)| == n
            && 0 <= n - n % workers <= n
            && (multiset(Flatten(deques)) == multiset(live)
                <==> workers == 1 || n < workers || live[n - n % workers - 1] == live[0])
  {
    RedistributionKeepsLiveChunks(AsWritten, calls);
    var pruned := Prune(EverAssigned(calls), calls[|calls| - 1].live);
    SortSorts(pruned);
    PruneIsLive(EverAssigned(calls), calls[|calls| - 1].live);
    ApartMembers(SortByAddress(pruned), calls[|calls| - 1].live, multiset(pruned));
    CountsAreConserved(AsWritten, Performed(AsWritten, calls).chunks, WorkersAdded(calls));
    WrittenIsFaithfulIff(Performed(AsWritten, calls).chunks, WorkersAdded(calls));
  }

  // The slice that worker w copies is its equal share.
  lemma NextShare(form: Form, s: seq<WeakPtr>, workers: nat, share: nat, w: nat)
    requires w < workers && Times(workers, share) <= |s|
    ensures Times(w, share) + share == Times(w + 1, share) <= |s|
    ensures Shares(form, s, share, workers)[w]
            == if form.AsWritten? then s[..share] else s[Times(w, share)..Times(w, share) + share]
  {
    TimesGrows(w + 1, workers, share);
    ShareAt(form, s, share, workers, w);
  }

  lemma LastRemainder(form: Form, s: seq<WeakPtr>, workers: nat, share: nat)
    requires 0 < workers && share == |s| / workers
    ensures Times(workers, share) <= |s|
    ensures var shares := Shares(form, s, share, workers);
            Deques(form, s, workers) == shares[workers - 1 := shares[workers - 1] + s[Times(workers, share)..]]
  {
    SharesFit(|s|, workers);
  }

  lemma NothingToShare(form: Form, workers: nat, w: nat)
    requires w < workers
    ensures Deques(form, [], workers)[w] == []
  {
    ShareSizes(form, [], workers, w);
  }

  ghost function ListsOf(workers: seq<Worker>): (r: seq<seq<WeakPtr>>)
    reads workers
    ensures |r| == |workers|
  {
    seq(|workers|, i requires 0 <= i < |workers| reads workers => workers[i].chunks)
  }

  class WorkerThreadCoordinator {
    const form: Form
    var workers: seq<Worker>
    var chunks: seq<WeakPtr>

    ghost predicate Valid()
      reads `workers
    {
      forall i, j | 0 <= i < j < |workers| :: workers[i] != workers[j]
    }

    ghost function Lists(): (r: seq<seq<WeakPtr>>)
      reads `workers, workers
      ensures |r| == |workers|
    {
      ListsOf(workers)
    }

    ghost function State(): Ledger
      reads this, workers
    {
      Ledger(chunks, Lists())
    }

    // At least one worker, none of them with chunks.
    constructor (form: Form, workerCount: nat, live: set<WeakPtr>)
      ensures Valid() && fresh(workers) && this.form == form
      ensures |workers| == (if workerCount > 0 then workerCount else 1)
      ensures chunks == [] && forall w | 0 <= w < |workers| :: workers[w].chunks == []
      ensures State() == Redistributed(form, Ledger([], seq(|workers|, _ => [])), live)
    {
      this.form, workers, chunks := form, [], [];
      new;
      var count := if workerCount > 0 then workerCount else 1;
      for i := 0 to count
        invariant Valid() && fresh(workers) && |workers| == i
        invariant State() == Ledger([], seq(i, _ => []))
      {
        AddWorker(false, live);
      }
      InternalRedistributeChunks(live);
      assert Prune([], live) == [] && SortByAddress([]) == [];
      forall w | 0 <= w < |workers| ensures workers[w].chunks == [] {
        NothingToShare(form, |workers|, w);
        assert Lists()[w] == workers[w].chunks;
      }
    }

    method AddWorker(redistribute: bool, live: set<WeakPtr>)
      requires Valid()
      modifies this, workers
      ensures Valid() && |workers| == |old(workers)| + 1
      ensures workers[..|old(workers)|] == old(workers) && fresh(workers[|old(workers)|])
      ensures State() == Perform(form, old(State()), Call(Op.AddWorker(redistribute), live))
      ensures redistribute ==> chunks == SortByAddress(Prune(old(chunks), live)) && Lists() == Deques(form, chunks, |workers|)
      ensures !redistribute ==> chunks == old(chunks) && Lists() == old(Lists()) + [[]]
    {
      var worker := new Worker();
      workers := workers + [worker];
      assert State() == Enter(old(State()), Op.AddWorker(redistribute));
      if redistribute {
        InternalRedistributeChunks(live);
      }
    }

    method AssignChunk(chunk: WeakPtr, redistribute: bool, live: set<WeakPtr>)
      requires Valid()
      modifies this, workers
      ensures Valid() && workers == old(workers)
      ensures State() == Perform(form, old(State()), Call(Op.AssignChunk(chunk, redistribute), live))
      ensures redistribute && |workers| > 0 ==>
                chunks == SortByAddress(Prune(old(chunks) + [chunk], live)) && Lists() == Deques(form, chunks, |workers|)
      ensures redistribute && |workers| == 0 ==> chunks == Prune(old(chunks) + [chunk], live)
      ensures !redistribute ==> chunks == old(chunks) + [chunk] && Lists() == old(Lists())
    {
      chunks := chunks + [chunk];
      assert State() == Enter(old(State()), Op.AssignChunk(chunk, redistribute));
      if redistribute {
        InternalRedistributeChunks(live);
      }
    }

    method RedistributeChunks(live: set<WeakPtr>)
      requires Valid()
      modifies this`chunks, workers
      ensures Valid()
      ensures State() == Perform(form, old(State()), Call(Redistribute, live))
      ensures |workers| > 0 ==> chunks == SortByAddress(Prune(old(chunks), live)) && Lists() == Deques(form, chunks, |workers|)
      ensures |workers| == 0 ==> chunks == Prune(old(chunks), live)
    {
      InternalRedistributeChunks(live);
    }

    method InternalRedistributeChunks(live: set<WeakPtr>)
      requires Valid()
      modifies this`chunks, workers
      ensures Valid()
      ensures State() == Redistributed(form, old(State()), live)
      ensures |workers| > 0 ==> chunks == SortByAddress(Prune(old(chunks), live)) && Lists() == Deques(form, chunks, |workers|)
      ensures |workers| == 0 ==> chunks == Prune(old(chunks), live)
    {
      chunks := Prune(chunks, live);
      assert chunks == Prune(old(State()).chunks, live);
      if |workers| == 0 { return; }
      UnassignEverything();
      if |chunks| == 0 {
        forall w | 0 <= w < |workers| ensures Lists()[w] == Deques(form, [], |workers|)[w] {
          NothingToShare(form, |workers|, w);
        }
        return;
      }
      chunks := SortByAddress(chunks);
      Distribute();
    }

    method UnassignEverything()
      modifies workers
      ensures AllEmpty()
    {
      for w := 0 to |workers|
        invariant forall i | 0 <= i < w :: workers[i].chunks == []
      {
        workers[w].UnassignAllChunks();
      }
    }

    ghost predicate AllEmpty()
      reads `workers, workers
    {
      forall i | 0 <= i < |workers| :: workers[i].chunks == []
    }

    method Distribute()
      requires Valid() && |workers| > 0 && AllEmpty()
      modifies workers
      ensures Lists() == Deques(form, chunks, |workers|)
    {
      var chunksPerWorker := |chunks| / |workers|;
      SharesFit(|chunks|, |workers|);
      var assignedChunks := AssignEqualShares(chunksPerWorker);
      AssignRemaining(workers[|workers| - 1], assignedChunks);
      LastRemainder(form, chunks, |workers|, chunksPerWorker);
    }

    method AssignEqualShares(chunksPerWorker: nat) returns (assignedChunks: nat)
      requires Valid() && AllEmpty() && Times(|workers|, chunksPerWorker) <= |chunks|
      modifies workers
      ensures assignedChunks == Times(|workers|, chunksPerWorker)
      ensures Lists() == Shares(form, chunks, chunksPerWorker, |workers|)
    {
      assignedChunks := 0;
      ghost var shares := Shares(form, chunks, chunksPerWorker, |workers|);
      for w := 0 to |workers|
        invariant assignedChunks == Times(w, chunksPerWorker)
        invariant forall i | 0 <= i < w :: workers[i].chunks == shares[i]
        invariant forall i | w <= i < |workers| :: workers[i].chunks == []
      {
        NextShare(form, chunks, |workers|, chunksPerWorker, w);
        assignedChunks := AssignShare(workers[w], chunksPerWorker, assignedChunks);
      }
    }

    // The chunks of one worker's equal share, found by the worker's own counter or by the number assigned so far.
    method AssignShare(worker: Worker, chunksPerWorker: nat, assignedBefore: nat) returns (assignedChunks: nat)
      requires assignedBefore + chunksPerWorker <= |chunks| && worker.chunks == []
      modifies worker
      ensures assignedChunks == assignedBefore + chunksPerWorker
      ensures worker.chunks
              == if form.AsWritten? then chunks[..chunksPerWorker] else chunks[assignedBefore..assignedChunks]
    {
      assignedChunks := assignedBefore;
      for c := 0 to chunksPerWorker
        invariant assignedChunks == assignedBefore + c
        invariant worker.chunks == if form.AsWritten? then chunks[..c] else chunks[assignedBefore..assignedChunks]
      {
        worker.AssignChunk(chunks[if form.AsWritten? then c else assignedChunks]);
        assignedChunks := assignedChunks + 1;
      }
    }

    method AssignRemaining(lastWorker: Worker, assignedChunks: nat)
      requires assignedChunks <= |chunks|
      modifies lastWorker
      ensures lastWorker.chunks == old(lastWorker.chunks) + chunks[assignedChunks..]
    {
      for c := assignedChunks to |chunks|
        invariant lastWorker.chunks == old(lastWorker.chunks) + chunks[assignedChunks..c]
      {
        lastWorker.AssignChunk(chunks[c]);
      }
    }

    method EffectiveWorkerCount() returns (count: nat)
      ensures count == Busy(Lists())
      ensures count == |set w: nat | w < |workers| && workers[w].chunks != []|
    {
      count := 0;
      for i := 0 to |workers|
        invariant count == Busy(Lists()[..i])
      {
        assert Lists()[..i + 1][..i] == Lists()[..i];
        var n := workers[i].NumChunks();
        if n == 0 { continue; }
        count := count + 1;
      }
      assert Lists()[..|workers|] == Lists();
      BusyIsCount(Lists());
      assert (set w: nat | w < |workers| && workers[w].chunks != []) == set w: nat | w < |Lists()| && Lists()[w] != [];
    }

    // One command and one combiner per worker that has chunks; the results are reduced in the order of the workers.
    method Process(memory: Memory, query: seq<real>) returns (result: seq<Score>)
      requires AllFit(memory, query)
      ensures result == ParallelScores(memory, Lists(), query)
    {
      var results := [];
      for i := 0 to |workers|
        invariant Concat(results) == ParallelScores(memory, Lists()[..i], query)
      {
        assert Lists()[..i + 1][..i] == Lists()[..i];
        var n := workers[i].NumChunks();
        if n == 0 { continue; }
        var combined := Query(workers[i], memory, query);
        assert (results + [combined])[..|results|] == results;
        results := results + [combined];
      }
      assert Lists()[..|workers|] == Lists();
      result := Reduce(results);
    }

    static method Query(worker: Worker, memory: Memory, query: seq<real>) returns (result: seq<Score>)
      requires AllFit(memory, query)
      ensures result == ListScores(memory, worker.chunks, query)
    {
      var combiner := new KeepAll();
      combiner.Begin();
      var processed := worker.Accept(memory, combiner, query);
      result := combiner.Finish();
    }

    static method Reduce(results: seq<seq<Score>>) returns (result: seq<Score>)
      ensures result == Concat(results)
    {
      var reducer := new KeepAll();
      reducer.Begin();
      for i := 0 to |results|
        invariant fresh(reducer) && reducer.scores == Concat(results[..i])
      {
        assert results[..i + 1][..i] == results[..i];
        reducer.Feed(results[i]);
      }
      assert results[..|results|] == results;
      result := reducer.Finish();
    }
  }
}
