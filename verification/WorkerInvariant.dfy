/** The inductive invariant of the worker protocol. */
module WorkerInvariant {
  import opened Wrappers
  import opened Scores
  import opened Sorting
  import opened Multiples
  import opened Weights
  import opened MapReduce
  import opened Schedulers
  import opened WorkerProtocol

  // The lock's books agree with what the threads believe, and a writer excludes readers and other writers.
  ghost predicate LockOk(workers: seq<WorkerThread>, readers: set<nat>, writers: seq<Writer>, holder: Option<nat>) {
    && (forall w | w in readers :: w < |workers| && Reads(workers[w]))
    && (forall w | 0 <= w < |workers| && Reads(workers[w]) :: w in readers)
    && (forall x | 0 <= x < |writers| :: Holds(writers[x]) <==> holder == Some(x))
    && (holder.Some? ==> holder.value < |writers| && readers == {})
  }

  // How far the redistribution under way has come.
  ghost predicate ProgressOk(c: Config, chunks: seq<WeakPtr>, lists: seq<seq<WeakPtr>>, writer: Writer)
    requires WellFormed(c) && |lists| == c.workers
  {
    match writer
    case Clearing(n) => n <= c.workers && forall w | 0 <= w < n :: lists[w] == []
    case Filling(n) => n <= c.workers && forall w | 0 <= w < n :: lists[w] == Deques(c.form, chunks, c.workers)[w]
    case _ => true
  }

  ghost predicate Settled(writers: seq<Writer>) {
    forall x | 0 <= x < |writers| :: !Redistributing(writers[x])
  }

  // While no redistribution is under way the lists are the distribution of the chunks.
  ghost predicate ListsOk(c: Config, chunks: seq<WeakPtr>, lists: seq<seq<WeakPtr>>, writers: seq<Writer>)
    requires WellFormed(c) && |lists| == c.workers
  {
    && (Settled(writers) ==> lists == Deques(c.form, chunks, c.workers))
    && forall x | 0 <= x < |writers| :: ProgressOk(c, chunks, lists, writers[x])
  }

  predicate Pending(writer: Writer) { writer.Outside? || writer.Waiting? || writer.Locked? }

  function PendingScale(): Writer -> nat { writer => if Pending(writer) then 1 else 0 }

  // There are never more chunks than the bound, and no list is longer.
  ghost predicate Bounded(c: Config, chunks: seq<WeakPtr>, lists: seq<seq<WeakPtr>>, writers: seq<Writer>) {
    && |chunks| + Weigh(PendingScale(), writers) <= c.bound
    && forall w | 0 <= w < |lists| :: |lists[w]| <= c.bound
  }

  // A worker's partial scores are those of the front of its list.
  ghost predicate MappingOk(c: Config, worker: WorkerThread, list: seq<WeakPtr>)
    requires WellFormed(c)
  {
    worker.Mapping? ==>
      && worker.call < |c.queries| && worker.done <= |list|
      && worker.scores == ListScores(c.memory, list[..worker.done], c.queries[worker.call])
  }

  ghost predicate MappingsOk(c: Config, workers: seq<WorkerThread>, lists: seq<seq<WeakPtr>>)
    requires WellFormed(c) && |workers| == |lists|
  {
    forall w | 0 <= w < |workers| :: MappingOk(c, workers[w], lists[w])
  }

  // Where the command of call k for one worker is: in the inbox, with the worker, or done. One place if it was sent.
  function Places(inbox: seq<nat>, worker: WorkerThread, call: Call, w: nat, k: nat): nat {
    multiset(inbox)[k] + (if Serves(worker, k) then 1 else 0) + if w in call.promises then 1 else 0
  }

  ghost predicate CommandOk(inbox: seq<nat>, worker: WorkerThread, call: Call, w: nat, k: nat) {
    Places(inbox, worker, call, w, k) == if w in call.asked then 1 else 0
  }

  ghost predicate CommandsOk(inboxes: seq<seq<nat>>, workers: seq<WorkerThread>, calls: seq<Call>)
    requires |inboxes| == |workers|
  {
    forall w, k | 0 <= w < |inboxes| && 0 <= k < |calls| :: CommandOk(inboxes[w], workers[w], calls[k], w, k)
  }

  // The scores of the first i asked workers, in the order asked.
  function Gathered(call: Call, i: nat): seq<Score>
    requires i <= |call.asked| && forall j | 0 <= j < i :: call.asked[j] in call.promises
  {
    if i == 0 then [] else Gathered(call, i - 1) + call.promises[call.asked[i - 1]]
  }

  ghost predicate Collected(call: Call, i: nat, scores: seq<Score>) {
    && i <= |call.asked| && (forall j | 0 <= j < i :: call.asked[j] in call.promises)
    && scores == Gathered(call, i)
  }

  function BusyBelow(lists: seq<seq<WeakPtr>>, n: nat): (r: seq<nat>)
    requires n <= |lists|
    ensures forall j | 0 <= j < |r| :: r[j] < n
  {
    if n == 0 then [] else BusyBelow(lists, n - 1) + if lists[n - 1] == [] then [] else [n - 1]
  }

  // Exactly the workers whose list was not empty when it was looked at are asked.
  ghost predicate AskedOk(workers: nat, call: Call) {
    && |call.looked| <= workers && call.asked == BusyBelow(call.looked, |call.looked|)
    && (call.phase.Selecting? ==> call.phase.next == |call.looked|)
    && (call.phase.Reducing? || call.phase.Returned? ==> |call.looked| == workers)
  }

  ghost predicate CallOk(workers: nat, call: Call) {
    && AskedOk(workers, call)
    && (call.phase.NotStarted? ==> call.looked == [] && call.promises == map[] && call.mapped == map[])
    && (call.phase.Reducing? ==> Collected(call, call.phase.next, call.phase.scores))
    && (call.phase.Returned? ==> Collected(call, |call.asked|, call.phase.scores))
  }

  // Every answer holds the scores of the list that was mapped for it.
  ghost predicate AnswersOk(c: Config, call: Call, k: nat)
    requires WellFormed(c) && k < |c.queries|
  {
    && call.mapped.Keys == call.promises.Keys
    && forall v | v in call.promises :: call.promises[v] == ListScores(c.memory, call.mapped[v], c.queries[k])
  }

  // As long as the lists stayed as they were when the call began, it looks at these and they are mapped for it.
  ghost predicate SteadyOk(c: Config, lists: seq<seq<WeakPtr>>, version: nat, call: Call) {
    && call.since <= version
    && (call.steady && !call.phase.NotStarted? ==>
          && |call.seen| == c.workers && call.looked <= call.seen
          && (call.since == version ==> lists == call.seen)
          && forall v | v in call.mapped :: v < |call.seen| && call.mapped[v] == call.seen[v])
  }

  ghost predicate CallsOk(c: Config, lists: seq<seq<WeakPtr>>, version: nat, calls: seq<Call>)
    requires WellFormed(c) && |calls| == |c.queries|
  {
    forall k | 0 <= k < |calls| ::
      CallOk(c.workers, calls[k]) && AnswersOk(c, calls[k], k) && SteadyOk(c, lists, version, calls[k])
  }

  ghost predicate Inv(c: Config, s: State)
    requires WellFormed(c)
  {
    && Shaped(c, s)
    && LockOk(s.workers, s.readers, s.writers, s.holder)
    && ListsOk(c, s.chunks, s.lists, s.writers) && Bounded(c, s.chunks, s.lists, s.writers)
    && MappingsOk(c, s.workers, s.lists)
    && CommandsOk(s.inboxes, s.workers, s.calls)
    && CallsOk(c, s.lists, s.version, s.calls)
  }

  lemma DequeFits(form: Form, chunks: seq<WeakPtr>, workers: nat, w: nat)
    requires w < workers
    ensures |Deques(form, chunks, workers)[w]| <= |chunks|
  {
    ShareSizes(form, chunks, workers, w);
    SharesFit(|chunks|, workers);
    TimesGrows(1, workers, |chunks| / workers);
  }

  lemma {:induction false} AllPending(writers: seq<Writer>)
    requires forall x | 0 <= x < |writers| :: Pending(writers[x])
    ensures Weigh(PendingScale(), writers) == |writers|
  {
    if writers != [] { AllPending(writers[..|writers| - 1]); }
  }

  lemma InitInv(c: Config, s: State)
    requires Init(c, s)
    ensures Inv(c, s)
  {
    AllPending(s.writers);
    forall w | 0 <= w < |s.lists| ensures |s.lists[w]| <= c.bound { DequeFits(c.form, s.chunks, c.workers, w); }
  }

  // The parts of the invariant that a step of call k leaves to be shown.
  lemma OneCall(c: Config, s: State, k: nat, call: Call, t: State)
    requires WellFormed(c) && Inv(c, s) && k < |s.calls| && t == s.(calls := s.calls[k := call], inboxes := t.inboxes)
    requires |t.inboxes| == |s.inboxes| && CommandsOk(t.inboxes, t.workers, t.calls)
    requires forall w, i | 0 <= w < |t.inboxes| && 0 <= i < |t.inboxes[w]| :: t.inboxes[w][i] < |s.calls|
    requires CallOk(c.workers, call) && AnswersOk(c, call, k) && SteadyOk(c, s.lists, s.version, call)
    ensures Inv(c, t)
  {
  }

  lemma SameCommands(s: State, k: nat, call: Call)
    requires |s.inboxes| == |s.workers| && k < |s.calls| && CommandsOk(s.inboxes, s.workers, s.calls)
    requires call.promises == s.calls[k].promises && call.asked == s.calls[k].asked
    ensures CommandsOk(s.inboxes, s.workers, s.calls[k := call])
  {
    var calls := s.calls[k := call];
    forall w, j | 0 <= w < |s.inboxes| && 0 <= j < |calls| ensures CommandOk(s.inboxes[w], s.workers[w], calls[j], w, j) {
      assert CommandOk(s.inboxes[w], s.workers[w], s.calls[j], w, j);
    }
  }

  lemma StartStep(c: Config, s: State, k: nat)
    requires WellFormed(c) && Inv(c, s) && Enabled(c, s, Start(k))
    ensures Inv(c, Next(c, s, Start(k)))
  {
    assert CallOk(c.workers, s.calls[k]);
    SameCommands(s, k, Begun(s));
    OneCall(c, s, k, Begun(s), Next(c, s, Start(k)));
  }

  lemma SelectCommand(s: State, k: nat, t: State, w: nat, j: nat)
    requires k < |s.calls| && s.calls[k].phase.Selecting? && |s.inboxes| == |s.lists| == |s.workers|
    requires t == NextSelect(s, k) && w < |s.inboxes| && j < |s.calls|
    requires CommandOk(s.inboxes[w], s.workers[w], s.calls[j], w, j) && s.calls[k].phase.next !in s.calls[k].asked
    ensures CommandOk(t.inboxes[w], t.workers[w], t.calls[j], w, j)
  {
    var n := s.calls[k].phase.next;
    if n < |s.lists| && s.lists[n] != [] && w == n {
      assert multiset(s.inboxes[w] + [k]) == multiset(s.inboxes[w]) + multiset{k};
    }
  }

  lemma SelectCall(c: Config, lists: seq<seq<WeakPtr>>, version: nat, call: Call, k: nat)
    requires WellFormed(c) && k < |c.queries| && |lists| == c.workers && call.phase.Selecting?
    requires CallOk(c.workers, call) && AnswersOk(c, call, k) && SteadyOk(c, lists, version, call)
    ensures var next := NextSelection(lists, version, call);
            CallOk(c.workers, next) && AnswersOk(c, next, k) && SteadyOk(c, lists, version, next)
  {
    var w, next := call.phase.next, NextSelection(lists, version, call);
    if w < |lists| {
      assert next.looked[..w] == call.looked;
      BusySame(next.looked, call.looked, w);
    }
  }

  lemma {:induction false} BusySame(a: seq<seq<WeakPtr>>, b: seq<seq<WeakPtr>>, n: nat)
    requires n <= |a| && n <= |b| && a[..n] == b[..n]
    ensures BusyBelow(a, n) == BusyBelow(b, n)
  {
    if n > 0 {
      assert a[n - 1] == a[..n][n - 1] && b[n - 1] == b[..n][n - 1];
      assert a[..n - 1] == a[..n][..n - 1] && b[..n - 1] == b[..n][..n - 1];
      BusySame(a, b, n - 1);
    }
  }

  lemma SelectStep(c: Config, s: State, k: nat)
    requires WellFormed(c) && Inv(c, s) && Enabled(c, s, Select(k))
    ensures Inv(c, NextSelect(s, k))
  {
    var t := NextSelect(s, k);
    assert CallOk(c.workers, s.calls[k]) && AnswersOk(c, s.calls[k], k) && SteadyOk(c, s.lists, s.version, s.calls[k]);
    SelectCall(c, s.lists, s.version, s.calls[k], k);
    forall w, j | 0 <= w < |s.inboxes| && 0 <= j < |s.calls|
      ensures CommandOk(t.inboxes[w], t.workers[w], t.calls[j], w, j)
    {
      assert CommandOk(s.inboxes[w], s.workers[w], s.calls[j], w, j);
      SelectCommand(s, k, t, w, j);
    }
    OneCall(c, s, k, NextSelection(s.lists, s.version, s.calls[k]), t);
  }

  lemma {:induction false} GatheredSame(a: Call, b: Call, i: nat)
    requires a.asked == b.asked && i <= |a.asked|
    requires forall j | 0 <= j < i :: a.asked[j] in a.promises
    requires forall v | v in a.promises :: v in b.promises && b.promises[v] == a.promises[v]
    ensures forall j | 0 <= j < i :: b.asked[j] in b.promises
    ensures Gathered(b, i) == Gathered(a, i)
  {
    if i > 0 { GatheredSame(a, b, i - 1); }
  }

  lemma ReduceCall(workers: nat, call: Call)
    requires CallOk(workers, call) && call.phase.Reducing?
    requires call.phase.next < |call.asked| ==> call.asked[call.phase.next] in call.promises
    ensures CallOk(workers, NextReduce(call))
  {
    GatheredSame(call, NextReduce(call), call.phase.next);
  }

  lemma ReduceStep(c: Config, s: State, k: nat)
    requires WellFormed(c) && Inv(c, s) && Enabled(c, s, Reduce(k))
    ensures Inv(c, Next(c, s, Reduce(k)))
  {
    assert CallOk(c.workers, s.calls[k]) && AnswersOk(c, s.calls[k], k) && SteadyOk(c, s.lists, s.version, s.calls[k]);
    ReduceCall(c.workers, s.calls[k]);
    SameCommands(s, k, NextReduce(s.calls[k]));
    OneCall(c, s, k, NextReduce(s.calls[k]), Next(c, s, Reduce(k)));
  }

  lemma SameReading(workers: seq<WorkerThread>, readers: set<nat>, writers: seq<Writer>, holder: Option<nat>, w: nat,
                    worker: WorkerThread)
    requires LockOk(workers, readers, writers, holder) && w < |workers| && (Reads(worker) <==> Reads(workers[w]))
    ensures LockOk(workers[w := worker], readers, writers, holder)
  {
  }

  lemma FetchStep(c: Config, s: State, w: nat)
    requires WellFormed(c) && Inv(c, s) && Enabled(c, s, Work(w)) && s.workers[w].Idle?
    ensures Inv(c, NextWork(c, s, w))
  {
    var t := NextWork(c, s, w);
    SameReading(s.workers, s.readers, s.writers, s.holder, w, t.workers[w]);
    var inbox := s.inboxes[w];
    assert inbox == [inbox[0]] + inbox[1..];
    forall k | 0 <= k < |s.calls| ensures CommandOk(t.inboxes[w], t.workers[w], t.calls[k], w, k) {
      assert CommandOk(inbox, s.workers[w], s.calls[k], w, k);
      assert multiset(inbox)[k] == multiset(inbox[1..])[k] + if inbox[0] == k then 1 else 0;
    }
    forall i | 0 <= i < |t.inboxes[w]| ensures t.inboxes[w][i] < |s.calls| {
      assert t.inboxes[w][i] == s.inboxes[w][i + 1];
    }
  }

  lemma LockStep(c: Config, s: State, w: nat)
    requires WellFormed(c) && Inv(c, s) && Enabled(c, s, Work(w)) && (s.workers[w].Fetched? || s.workers[w].Published?)
    ensures Inv(c, NextWork(c, s, w))
  {
    var t := NextWork(c, s, w);
    forall k | 0 <= k < |s.calls| ensures CommandOk(t.inboxes[w], t.workers[w], t.calls[k], w, k) {
      assert CommandOk(s.inboxes[w], s.workers[w], s.calls[k], w, k);
    }
  }

  lemma MapMore(c: Config, worker: WorkerThread, list: seq<WeakPtr>)
    requires WellFormed(c) && MappingOk(c, worker, list) && worker.Mapping? && worker.done < |list|
    ensures MappingOk(c, Mapping(worker.call, worker.done + 1,
                        worker.scores + PointerScores(c, worker.call, list[worker.done])), list)
  {
    assert list[..worker.done + 1][..worker.done] == list[..worker.done];
  }

  lemma MapStep(c: Config, s: State, w: nat)
    requires WellFormed(c) && Inv(c, s) && Enabled(c, s, Work(w))
    requires s.workers[w].Mapping? && s.workers[w].done < |s.lists[w]|
    ensures Inv(c, NextWork(c, s, w))
  {
    var t := NextWork(c, s, w);
    SameReading(s.workers, s.readers, s.writers, s.holder, w, t.workers[w]);
    MapMore(c, s.workers[w], s.lists[w]);
    forall k | 0 <= k < |s.calls| ensures CommandOk(t.inboxes[w], t.workers[w], t.calls[k], w, k) {
      assert CommandOk(s.inboxes[w], s.workers[w], s.calls[k], w, k);
    }
  }

  lemma PublishCommand(s: State, w: nat, k: nat, call: Call, t: State, v: nat, j: nat)
    requires w < |s.workers| == |s.inboxes| && k < |s.calls| && s.workers[w].Mapping? && s.workers[w].call == k
    requires t.inboxes == s.inboxes && t.workers == s.workers[w := Published] && t.calls == s.calls[k := call]
    requires call.promises.Keys == s.calls[k].promises.Keys + {w} && call.asked == s.calls[k].asked
    requires v < |s.inboxes| && j < |s.calls| && CommandOk(s.inboxes[v], s.workers[v], s.calls[j], v, j)
    ensures CommandOk(t.inboxes[v], t.workers[v], t.calls[j], v, j)
  {
  }

  lemma PublishCall(c: Config, lists: seq<seq<WeakPtr>>, version: nat, call: Call, k: nat, w: nat, scores: seq<Score>)
    requires WellFormed(c) && k < |c.queries| && w < |lists| == c.workers && w in call.asked && w !in call.promises
    requires CallOk(c.workers, call) && AnswersOk(c, call, k) && SteadyOk(c, lists, version, call)
    requires scores == ListScores(c.memory, lists[w], c.queries[k])
    ensures var next := Answered(call, version, w, lists[w], scores);
            CallOk(c.workers, next) && AnswersOk(c, next, k) && SteadyOk(c, lists, version, next)
  {
    var next := Answered(call, version, w, lists[w], scores);
    if call.phase.Reducing? { GatheredSame(call, next, call.phase.next); }
  }

  lemma PublishStep(c: Config, s: State, w: nat)
    requires WellFormed(c) && Inv(c, s) && Enabled(c, s, Work(w))
    requires s.workers[w].Mapping? && s.workers[w].done >= |s.lists[w]|
    ensures Inv(c, NextWork(c, s, w))
  {
    var k, scores := s.workers[w].call, s.workers[w].scores;
    var call, t := Answered(s.calls[k], s.version, w, s.lists[w], scores), NextWork(c, s, w);
    SameReading(s.workers, s.readers, s.writers, s.holder, w, Published);
    assert MappingOk(c, s.workers[w], s.lists[w]);
    assert s.lists[w][..|s.lists[w]|] == s.lists[w];
    assert CommandOk(s.inboxes[w], s.workers[w], s.calls[k], w, k);
    assert CommandsOk(t.inboxes, t.workers, t.calls) by {
      forall v, j | 0 <= v < |s.inboxes| && 0 <= j < |s.calls|
        ensures CommandOk(t.inboxes[v], t.workers[v], t.calls[j], v, j)
      {
        assert CommandOk(s.inboxes[v], s.workers[v], s.calls[j], v, j);
        PublishCommand(s, w, k, call, t, v, j);
      }
    }
    assert CallOk(c.workers, s.calls[k]) && AnswersOk(c, s.calls[k], k) && SteadyOk(c, s.lists, s.version, s.calls[k]);
    PublishCall(c, s.lists, s.version, s.calls[k], k, w, scores);
  }

  lemma {:induction false} PruneShrinks(chunks: seq<WeakPtr>, live: set<WeakPtr>)
    ensures |Prune(chunks, live)| <= |chunks|
  {
    if chunks != [] { PruneShrinks(chunks[..|chunks| - 1], live); }
  }

  lemma WriterBound(c: Config, s: State, x: nat, t: State)
    requires WellFormed(c) && Inv(c, s) && Enabled(c, s, Write(x)) && t == NextWrite(c, s, x)
    ensures |t.chunks| + Weigh(PendingScale(), t.writers) <= c.bound
  {
    WeighUpdate(PendingScale(), s.writers, x, t.writers[x]);
    match s.writers[x] {
      case Locked =>
        var own := c.writers[x];
        PruneShrinks(s.chunks + if own.Some? then [own.value] else [], c.memory.Keys);
      case Clearing(_) => SortSorts(s.chunks);
      case _ =>
    }
  }

  lemma NothingToShare(form: Form, workers: nat, lists: seq<seq<WeakPtr>>)
    requires 0 < workers == |lists| && forall w | 0 <= w < workers :: lists[w] == []
    ensures lists == Deques(form, [], workers)
  {
    forall w | 0 <= w < workers ensures lists[w] == Deques(form, [], workers)[w] { ShareSizes(form, [], workers, w); }
  }

  lemma WriterLists(c: Config, s: State, x: nat, t: State)
    requires WellFormed(c) && Inv(c, s) && Enabled(c, s, Write(x)) && t == NextWrite(c, s, x)
    ensures ListsOk(c, t.chunks, t.lists, t.writers)
  {
    assert ProgressOk(c, s.chunks, s.lists, s.writers[x]);
    assert forall y | 0 <= y < |s.writers| && y != x && Holds(s.writers[x]) :: !Holds(s.writers[y]);
    if Redistributing(t.writers[x]) {
      assert !Settled(t.writers);
    } else if Redistributing(s.writers[x]) {
      if s.writers[x].Clearing? { NothingToShare(c.form, c.workers, s.lists); }
      assert t.lists == Deques(c.form, t.chunks, c.workers);
    } else {
      assert forall y | 0 <= y < |s.writers| :: Redistributing(t.writers[y]) <==> Redistributing(s.writers[y]);
      assert Settled(t.writers) ==> Settled(s.writers);
    }
  }

  lemma WriterCalls(c: Config, s: State, x: nat, t: State)
    requires WellFormed(c) && Inv(c, s) && Enabled(c, s, Write(x)) && t == NextWrite(c, s, x)
    ensures CallsOk(c, t.lists, t.version, t.calls) && MappingsOk(c, t.workers, t.lists)
  {
    forall w | Holds(s.writers[x]) && 0 <= w < |s.workers| ensures !s.workers[w].Mapping? {
      assert w !in s.readers;
    }
    forall k | 0 <= k < |s.calls| ensures SteadyOk(c, t.lists, t.version, t.calls[k]) {
      assert SteadyOk(c, s.lists, s.version, s.calls[k]);
    }
  }

  lemma WriterShape(c: Config, s: State, x: nat, t: State)
    requires WellFormed(c) && Enabled(c, s, Write(x)) && t == NextWrite(c, s, x)
    ensures Shaped(c, t) && t.calls == s.calls && t.inboxes == s.inboxes && t.workers == s.workers
  {
  }

  lemma SameHolding(workers: seq<WorkerThread>, readers: set<nat>, writers: seq<Writer>, holder: Option<nat>, x: nat,
                    writer: Writer)
    requires LockOk(workers, readers, writers, holder) && x < |writers| && (Holds(writer) <==> Holds(writers[x]))
    ensures LockOk(workers, readers, writers[x := writer], holder)
  {
  }

  lemma WriterLock(c: Config, s: State, x: nat, t: State)
    requires WellFormed(c) && Inv(c, s) && Enabled(c, s, Write(x)) && t == NextWrite(c, s, x)
    ensures LockOk(t.workers, t.readers, t.writers, t.holder)
  {
    if !s.writers[x].Waiting? && !s.writers[x].Assigned? {
      SameHolding(s.workers, s.readers, s.writers, s.holder, x, t.writers[x]);
    }
  }

  lemma WriterFits(c: Config, s: State, x: nat, t: State)
    requires WellFormed(c) && Inv(c, s) && Enabled(c, s, Write(x)) && t == NextWrite(c, s, x)
    ensures forall w | 0 <= w < |t.lists| :: |t.lists[w]| <= c.bound
  {
    forall w | 0 <= w < |t.lists| ensures |t.lists[w]| <= c.bound { DequeFits(c.form, s.chunks, c.workers, w); }
  }

  lemma WriterParts(c: Config, s: State, t: State)
    requires WellFormed(c) && Inv(c, s) && Shaped(c, t) && t.calls == s.calls && t.inboxes == s.inboxes
    requires t.workers == s.workers && LockOk(t.workers, t.readers, t.writers, t.holder)
    requires ListsOk(c, t.chunks, t.lists, t.writers) && Bounded(c, t.chunks, t.lists, t.writers)
    requires CallsOk(c, t.lists, t.version, t.calls) && MappingsOk(c, t.workers, t.lists)
    ensures Inv(c, t)
  {
  }

  lemma WriteStep(c: Config, s: State, x: nat)
    requires WellFormed(c) && Inv(c, s) && Enabled(c, s, Write(x))
    ensures Inv(c, NextWrite(c, s, x))
  {
    var t := NextWrite(c, s, x);
    WriterShape(c, s, x, t);
    WriterLock(c, s, x, t);
    WriterBound(c, s, x, t);
    WriterFits(c, s, x, t);
    WriterLists(c, s, x, t);
    WriterCalls(c, s, x, t);
    WriterParts(c, s, t);
  }

  lemma StepInv(c: Config, s: State, e: Event)
    requires WellFormed(c) && Inv(c, s) && Enabled(c, s, e)
    ensures Inv(c, Next(c, s, e))
  {
    match e
    case Start(k) => StartStep(c, s, k);
    case Select(k) => SelectStep(c, s, k);
    case Reduce(k) => ReduceStep(c, s, k);
    case Work(w) =>
      match s.workers[w] {
        case Idle => FetchStep(c, s, w);
        case Fetched(_) => LockStep(c, s, w);
        case Mapping(_, done, _) => if done < |s.lists[w]| { MapStep(c, s, w); } else { PublishStep(c, s, w); }
        case Published => LockStep(c, s, w);
      }
    case Write(x) => WriteStep(c, s, x);
  }

  lemma {:induction false} RunInv(c: Config, s: State, events: seq<Event>)
    requires WellFormed(c) && Inv(c, s) && Run(c, s, events).Some?
    ensures Inv(c, Run(c, s, events).value)
    decreases |events|
  {
    if events != [] {
      StepInv(c, s, events[0]);
      RunInv(c, Next(c, s, events[0]), events[1..]);
    }
  }

  lemma ReachableInv(c: Config, s: State)
    requires WellFormed(c) && Reachable(c, s)
    ensures Inv(c, s)
  {
    var s0, events :| Init(c, s0) && Run(c, s0, events) == Some(s);
    InitInv(c, s0);
    RunInv(c, s0, events);
  }
}
