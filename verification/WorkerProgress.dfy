/** The worker protocol never deadlocks and every run of it ends. */
module WorkerProgress {
  import opened Wrappers
  import opened Sorting
  import opened Multiples
  import opened Weights
  import opened WorkerProtocol
  import opened WorkerInvariant

  ghost predicate AllDone(s: State) {
    && (forall k | 0 <= k < |s.calls| :: s.calls[k].phase.Returned?)
    && (forall x | 0 <= x < |s.writers| :: s.writers[x].Finished?)
    && (forall w | 0 <= w < |s.workers| :: s.workers[w].Idle?)
    && (forall w | 0 <= w < |s.inboxes| :: s.inboxes[w] == [])
  }

  ghost predicate Stuck(c: Config, s: State) {
    forall e :: !Enabled(c, s, e)
  }

  lemma WritersAreOut(c: Config, s: State)
    requires WellFormed(c) && Inv(c, s) && Stuck(c, s)
    ensures s.readers == {} && s.holder.None?
    ensures forall x | 0 <= x < |s.writers| :: s.writers[x].Finished?
  {
    forall w | 0 <= w < |s.workers| ensures !Reads(s.workers[w]) {
      assert !Enabled(c, s, Work(w));
    }
    forall x | 0 <= x < |s.writers| ensures !Holds(s.writers[x]) {
      assert !Enabled(c, s, Write(x));
    }
    forall x | 0 <= x < |s.writers| ensures s.writers[x].Finished? {
      assert !Enabled(c, s, Write(x));
    }
  }

  lemma WorkersAreIdle(c: Config, s: State)
    requires WellFormed(c) && Inv(c, s) && Stuck(c, s)
    ensures forall w | 0 <= w < |s.workers| :: s.workers[w].Idle? && s.inboxes[w] == []
  {
    WritersAreOut(c, s);
    forall w | 0 <= w < |s.workers| ensures s.workers[w].Idle? && s.inboxes[w] == [] {
      assert !Enabled(c, s, Work(w));
    }
  }

  lemma CallHasReturned(c: Config, s: State, k: nat)
    requires WellFormed(c) && Inv(c, s) && Stuck(c, s) && k < |s.calls|
    ensures s.calls[k].phase.Returned?
  {
    WorkersAreIdle(c, s);
    var call := s.calls[k];
    assert !Enabled(c, s, Start(k)) && !Enabled(c, s, Select(k)) && !Enabled(c, s, Reduce(k));
    assert CallOk(c.workers, call);
    forall w | w in call.asked ensures w in call.promises {
      assert CommandOk(s.inboxes[w], s.workers[w], call, w, k);
      assert multiset(s.inboxes[w])[k] == 0;
    }
  }

  /** No deadlock: as long as a call has not returned, a command is unanswered or a writer waits, some thread can act.
      A call waits for its futures without holding the lock. */
  lemma NoDeadlock(c: Config, s: State)
    requires WellFormed(c) && Reachable(c, s)
    ensures Stuck(c, s) ==> AllDone(s)
  {
    ReachableInv(c, s);
    if Stuck(c, s) {
      WritersAreOut(c, s);
      WorkersAreIdle(c, s);
      forall k | 0 <= k < |s.calls| ensures s.calls[k].phase.Returned? { CallHasReturned(c, s, k); }
    }
  }

  function CallWeight(c: Config, call: Call): nat {
    match call.phase
    case NotStarted => Times(c.workers, c.bound + 7) + 3
    case Selecting(n) => (if n <= c.workers then Times(c.workers - n, c.bound + 7) else 0) + |call.asked| + 2
    case Reducing(i, _) => if i <= |call.asked| then |call.asked| - i + 1 else 0
    case Returned(_) => 0
  }

  function ThreadWeight(c: Config, worker: WorkerThread, list: seq<WeakPtr>): nat {
    match worker
    case Idle => 0
    case Fetched(_) => c.bound + 4
    case Mapping(_, done, _) => if done <= |list| then |list| - done + 2 else 0
    case Published => 1
  }

  function WriterWeight(c: Config, writer: Writer): nat {
    match writer
    case Outside => 2 * c.workers + 6
    case Waiting => 2 * c.workers + 5
    case Locked => 2 * c.workers + 4
    case Clearing(n) => if n <= c.workers then 2 * c.workers + 3 - n else 0
    case Filling(n) => if n <= c.workers then c.workers + 2 - n else 0
    case Assigned => 1
    case Finished => 0
  }

  function CallScale(c: Config): Call -> nat { call => CallWeight(c, call) }

  function ThreadScale(c: Config): ((WorkerThread, seq<WeakPtr>)) -> nat {
    (pair: (WorkerThread, seq<WeakPtr>)) => ThreadWeight(c, pair.0, pair.1)
  }

  function InboxScale(c: Config): seq<nat> -> nat { inbox => Times(|inbox|, c.bound + 5) }

  function WriterScale(c: Config): Writer -> nat { writer => WriterWeight(c, writer) }

  function Pairs(workers: seq<WorkerThread>, lists: seq<seq<WeakPtr>>): seq<(WorkerThread, seq<WeakPtr>)>
    requires |workers| == |lists|
  {
    seq(|workers|, w requires 0 <= w < |workers| => (workers[w], lists[w]))
  }

  function Measure(c: Config, s: State): nat
    requires |s.workers| == |s.lists|
  {
    Weigh(CallScale(c), s.calls) + Weigh(ThreadScale(c), Pairs(s.workers, s.lists)) + Weigh(InboxScale(c), s.inboxes) +
    Weigh(WriterScale(c), s.writers)
  }

  lemma ThreadMoves(c: Config, workers: seq<WorkerThread>, lists: seq<seq<WeakPtr>>, w: nat, worker: WorkerThread)
    requires w < |workers| == |lists|
    ensures Weigh(ThreadScale(c), Pairs(workers[w := worker], lists)) + ThreadWeight(c, workers[w], lists[w])
            == Weigh(ThreadScale(c), Pairs(workers, lists)) + ThreadWeight(c, worker, lists[w])
  {
    WeighUpdate(ThreadScale(c), Pairs(workers, lists), w, (worker, lists[w]));
    assert Pairs(workers[w := worker], lists) == Pairs(workers, lists)[w := (worker, lists[w])];
  }

  lemma SelectingWeighs(c: Config, lists: seq<seq<WeakPtr>>, version: nat, call: Call)
    requires |lists| == c.workers && CallOk(c.workers, call) && call.phase.Selecting?
    ensures CallWeight(c, NextSelection(lists, version, call)) < CallWeight(c, call)
    ensures call.phase.next < |lists| && lists[call.phase.next] != [] ==>
              CallWeight(c, NextSelection(lists, version, call)) + c.bound + 5 < CallWeight(c, call)
  {
    var n := call.phase.next;
    if n < c.workers {
      assert Times(c.workers - n, c.bound + 7) == Times(c.workers - (n + 1), c.bound + 7) + c.bound + 7;
    }
  }

  lemma Appended(c: Config, inboxes: seq<seq<nat>>, w: nat, k: nat)
    requires w < |inboxes|
    ensures Weigh(InboxScale(c), inboxes[w := inboxes[w] + [k]]) == Weigh(InboxScale(c), inboxes) + c.bound + 5
  {
    WeighUpdate(InboxScale(c), inboxes, w, inboxes[w] + [k]);
    assert Times(|inboxes[w]| + 1, c.bound + 5) == Times(|inboxes[w]|, c.bound + 5) + c.bound + 5;
  }

  lemma Removed(c: Config, inboxes: seq<seq<nat>>, w: nat)
    requires w < |inboxes| && inboxes[w] != []
    ensures Weigh(InboxScale(c), inboxes[w := inboxes[w][1..]]) + c.bound + 5 == Weigh(InboxScale(c), inboxes)
  {
    WeighUpdate(InboxScale(c), inboxes, w, inboxes[w][1..]);
    assert Times(|inboxes[w]|, c.bound + 5) == Times(|inboxes[w]| - 1, c.bound + 5) + c.bound + 5;
  }

  lemma SelectLightens(c: Config, s: State, k: nat)
    requires WellFormed(c) && Inv(c, s) && Enabled(c, s, Select(k))
    ensures Measure(c, NextSelect(s, k)) < Measure(c, s)
  {
    var w := s.calls[k].phase.next;
    assert CallOk(c.workers, s.calls[k]);
    SelectingWeighs(c, s.lists, s.version, s.calls[k]);
    WeighUpdate(CallScale(c), s.calls, k, NextSelection(s.lists, s.version, s.calls[k]));
    if w < |s.lists| && s.lists[w] != [] { Appended(c, s.inboxes, w, k); }
  }

  lemma FetchLightens(c: Config, s: State, w: nat)
    requires WellFormed(c) && Inv(c, s) && Enabled(c, s, Work(w)) && s.workers[w].Idle?
    ensures Measure(c, NextWork(c, s, w)) < Measure(c, s)
  {
    ThreadMoves(c, s.workers, s.lists, w, Fetched(s.inboxes[w][0]));
    Removed(c, s.inboxes, w);
  }

  lemma CallLightens(c: Config, s: State, k: nat, call: Call)
    requires k < |s.calls| && |s.workers| == |s.lists| && CallWeight(c, call) < CallWeight(c, s.calls[k])
    ensures Measure(c, s.(calls := s.calls[k := call])) < Measure(c, s)
  {
    WeighUpdate(CallScale(c), s.calls, k, call);
  }

  lemma ThreadLightens(c: Config, s: State, w: nat, t: State)
    requires w < |s.workers| == |s.lists| == |t.workers| && t.lists == s.lists
    requires t.inboxes == s.inboxes && t.writers == s.writers && t.workers == s.workers[w := t.workers[w]]
    requires Weigh(CallScale(c), t.calls) == Weigh(CallScale(c), s.calls)
    requires ThreadWeight(c, t.workers[w], s.lists[w]) < ThreadWeight(c, s.workers[w], s.lists[w])
    ensures Measure(c, t) < Measure(c, s)
  {
    ThreadMoves(c, s.workers, s.lists, w, t.workers[w]);
  }

  lemma PromiseWeighsNothing(c: Config, calls: seq<Call>, k: nat, call: Call)
    requires k < |calls| && call.phase == calls[k].phase && call.asked == calls[k].asked
    ensures Weigh(CallScale(c), calls[k := call]) == Weigh(CallScale(c), calls)
  {
    WeighUpdate(CallScale(c), calls, k, call);
  }

  lemma AnswerLightens(c: Config, s: State, w: nat, k: nat, call: Call, t: State)
    requires w < |s.workers| == |s.lists| && k < |s.calls|
    requires s.workers[w].Mapping? && s.workers[w].done == |s.lists[w]|
    requires call.phase == s.calls[k].phase && call.asked == s.calls[k].asked
    requires t == s.(workers := s.workers[w := Published], calls := s.calls[k := call])
    ensures Measure(c, t) < Measure(c, s)
  {
    PromiseWeighsNothing(c, s.calls, k, call);
    ThreadLightens(c, s, w, t);
  }

  lemma PublishLightens(c: Config, s: State, w: nat)
    requires WellFormed(c) && Inv(c, s) && Enabled(c, s, Work(w))
    requires s.workers[w].Mapping? && s.workers[w].done >= |s.lists[w]|
    ensures Measure(c, NextWork(c, s, w)) < Measure(c, s)
  {
    assert MappingOk(c, s.workers[w], s.lists[w]);
    var k := s.workers[w].call;
    AnswerLightens(c, s, w, k, Answered(s.calls[k], s.version, w, s.lists[w], s.workers[w].scores), NextWork(c, s, w));
  }

  lemma WorkLightens(c: Config, s: State, w: nat)
    requires WellFormed(c) && Inv(c, s) && Enabled(c, s, Work(w)) && !s.workers[w].Idle?
    requires s.workers[w].Mapping? ==> s.workers[w].done < |s.lists[w]|
    ensures Measure(c, NextWork(c, s, w)) < Measure(c, s)
  {
    ThreadLightens(c, s, w, NextWork(c, s, w));
  }

  lemma ClearingKeepsThreads(c: Config, s: State, lists: seq<seq<WeakPtr>>)
    requires WellFormed(c) && Inv(c, s) && s.holder.Some? && |lists| == |s.lists|
    ensures Weigh(ThreadScale(c), Pairs(s.workers, lists)) == Weigh(ThreadScale(c), Pairs(s.workers, s.lists))
  {
    forall w | 0 <= w < |s.workers|
      ensures ThreadWeight(c, s.workers[w], lists[w]) == ThreadWeight(c, s.workers[w], s.lists[w])
    {
      assert w !in s.readers;
    }
    WeighAlike(ThreadScale(c), Pairs(s.workers, lists), Pairs(s.workers, s.lists));
  }

  lemma WriterLightens(c: Config, s: State, x: nat, t: State)
    requires x < |s.writers| && |s.workers| == |s.lists| == |t.lists|
    requires t.calls == s.calls && t.workers == s.workers && t.inboxes == s.inboxes
    requires |t.writers| == |s.writers| && t.writers == s.writers[x := t.writers[x]]
    requires WriterWeight(c, t.writers[x]) < WriterWeight(c, s.writers[x])
    requires Weigh(ThreadScale(c), Pairs(t.workers, t.lists)) == Weigh(ThreadScale(c), Pairs(s.workers, s.lists))
    ensures Measure(c, t) < Measure(c, s)
  {
    WeighUpdate(WriterScale(c), s.writers, x, t.writers[x]);
  }

  lemma WriteLightens(c: Config, s: State, x: nat)
    requires WellFormed(c) && Inv(c, s) && Enabled(c, s, Write(x))
    ensures |NextWrite(c, s, x).lists| == |s.workers|
    ensures Measure(c, NextWrite(c, s, x)) < Measure(c, s)
  {
    var t := NextWrite(c, s, x);
    assert ProgressOk(c, s.chunks, s.lists, s.writers[x]);
    if t.lists != s.lists {
      assert Holds(s.writers[x]);
      ClearingKeepsThreads(c, s, t.lists);
    }
    WriterLightens(c, s, x, t);
  }

  // Every step of any thread uses up some of the work that is left.
  lemma StepLightens(c: Config, s: State, e: Event)
    requires WellFormed(c) && Inv(c, s) && Enabled(c, s, e)
    ensures |Next(c, s, e).workers| == |Next(c, s, e).lists|
    ensures Measure(c, Next(c, s, e)) < Measure(c, s)
  {
    StepInv(c, s, e);
    match e
    case Start(k) => CallLightens(c, s, k, Begun(s));
    case Select(k) => SelectLightens(c, s, k);
    case Reduce(k) =>
      assert CallOk(c.workers, s.calls[k]);
      CallLightens(c, s, k, NextReduce(s.calls[k]));
    case Work(w) =>
      if s.workers[w].Idle? { FetchLightens(c, s, w); }
      else if s.workers[w].Mapping? && s.workers[w].done >= |s.lists[w]| { PublishLightens(c, s, w); }
      else { WorkLightens(c, s, w); }
    case Write(x) => WriteLightens(c, s, x);
  }

  lemma {:induction false} RunsAreShort(c: Config, s: State, events: seq<Event>)
    requires WellFormed(c) && Inv(c, s) && Run(c, s, events).Some?
    ensures |events| <= Measure(c, s)
    decreases |events|
  {
    if events != [] {
      StepInv(c, s, events[0]);
      StepLightens(c, s, events[0]);
      RunsAreShort(c, Next(c, s, events[0]), events[1..]);
    }
  }

  lemma NothingOutstanding(c: Config, s: State, k: nat, w: nat)
    requires WellFormed(c) && Inv(c, s) && AllDone(s) && k < |s.calls| && w < c.workers
    ensures w in s.calls[k].promises <==> w in s.calls[k].asked
  {
    assert CommandOk(s.inboxes[w], s.workers[w], s.calls[k], w, k);
    assert multiset(s.inboxes[w])[k] == 0;
  }

  /** Every run ends after a number of steps known at its beginning, and when no thread can act any more, every call has
      returned and the promise of every command sent is set, and of no other. */
  lemma EveryRunCompletes(c: Config, s0: State, events: seq<Event>, s: State)
    requires WellFormed(c) && Init(c, s0) && Run(c, s0, events) == Some(s)
    ensures |events| <= Measure(c, s0)
    ensures Stuck(c, s) ==> AllDone(s) && forall k | 0 <= k < |s.calls| ::
              forall w | 0 <= w < c.workers :: w in s.calls[k].promises <==> w in s.calls[k].asked
  {
    InitInv(c, s0);
    RunsAreShort(c, s0, events);
    assert Reachable(c, s);
    ReachableInv(c, s);
    NoDeadlock(c, s);
    if Stuck(c, s) {
      forall k, w | 0 <= k < |s.calls| && 0 <= w < c.workers
        ensures w in s.calls[k].promises <==> w in s.calls[k].asked
      {
        NothingOutstanding(c, s, k, w);
      }
    }
  }
}
