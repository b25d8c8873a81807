/**
  Queries over worker threads as a step system: threads inside the coordinator's process(), worker threads with their
  inboxes, and threads that assign a chunk or redistribute under the write lock. Each event is one atomic action of one
  thread.
 */
module WorkerProtocol {
  import opened Wrappers
  import opened Scores
  import opened Sorting
  import opened MapReduce
  import opened Schedulers

  // One query per call of process(), and per writer the chunk it assigns, if any. The bound is on the number of chunks;
  // the lock may let waiting writers go first.
  datatype Config = Config(
    memory: Memory,
    queries: seq<seq<real>>,
    form: Form,
    workers: nat,
    writers: seq<Option<WeakPtr>>,
    bound: nat,
    writersFirst: bool)

  datatype WorkerThread =
    | Idle
    | Fetched(call: nat)      // command dequeued, read lock not yet taken
    | Mapping(call: nat, done: nat, scores: seq<Score>)
    | Published               // promise set, read lock not yet released

  datatype Writer =
    | Outside
    | Waiting                 // inside write_lock()
    | Locked
    | Clearing(next: nat)     // about to empty the list of worker `next`
    | Filling(next: nat)      // chunks sorted; about to assign its chunks to worker `next`
    | Assigned                // write lock not yet released
    | Finished

  datatype Phase =
    | NotStarted
    | Selecting(next: nat)    // about to look at the list of worker `next`
    | Reducing(next: nat, scores: seq<Score>)
    | Returned(scores: seq<Score>)

  // A call of process(): the workers it sent a command to, and the promises of those commands that are set. For the
  // record: the lists and how often they had been changed when it began, whether they are unchanged up to the last look
  // or answer, the list of each worker when it was looked at, and the list each worker mapped for its answer.
  datatype Call = Call(
    phase: Phase,
    since: nat,
    seen: seq<seq<WeakPtr>>,
    steady: bool,
    looked: seq<seq<WeakPtr>>,
    asked: seq<nat>,
    mapped: map<nat, seq<WeakPtr>>,
    promises: map<nat, seq<Score>>)

  datatype State = State(
    chunks: seq<WeakPtr>,
    lists: seq<seq<WeakPtr>>,
    version: nat,             // how often the lists were changed
    inboxes: seq<seq<nat>>,
    workers: seq<WorkerThread>,
    readers: set<nat>,        // workers holding the read lock
    holder: Option<nat>,      // writer holding the write lock
    writers: seq<Writer>,
    calls: seq<Call>)

  datatype Event =
    | Start(k: nat)
    | Select(k: nat)
    | Reduce(k: nat)
    | Work(w: nat)
    | Write(x: nat)

  predicate Serves(worker: WorkerThread, k: nat) {
    (worker.Fetched? || worker.Mapping?) && worker.call == k
  }

  predicate Reads(worker: WorkerThread) { worker.Mapping? || worker.Published? }

  predicate Redistributing(writer: Writer) { writer.Clearing? || writer.Filling? }

  predicate Holds(writer: Writer) { writer.Locked? || Redistributing(writer) || writer.Assigned? }

  // There is at least one worker; the coordinator's constructor sees to that.
  ghost predicate WellFormed(c: Config) {
    0 < c.workers && forall k | 0 <= k < |c.queries| :: AllFit(c.memory, c.queries[k])
  }

  predicate Shaped(c: Config, s: State) {
    && |s.lists| == |s.inboxes| == |s.workers| == c.workers
    && |s.calls| == |c.queries| && |s.writers| == |c.writers|
    && (forall w, i | 0 <= w < |s.inboxes| && 0 <= i < |s.inboxes[w]| :: s.inboxes[w][i] < |s.calls|)
    && (forall w | 0 <= w < |s.workers| && (s.workers[w].Fetched? || s.workers[w].Mapping?) ::
          s.workers[w].call < |s.calls|)
  }

  predicate MayRead(c: Config, s: State) {
    s.holder.None? && (c.writersFirst ==> forall x | 0 <= x < |s.writers| :: !s.writers[x].Waiting?)
  }

  predicate Enabled(c: Config, s: State, e: Event) {
    Shaped(c, s) &&
    match e
    case Start(k) => k < |s.calls| && s.calls[k].phase.NotStarted?
    case Select(k) => k < |s.calls| && s.calls[k].phase.Selecting?
    case Reduce(k) =>
      && k < |s.calls| && s.calls[k].phase.Reducing?
      && var call := s.calls[k];
         call.phase.next < |call.asked| ==> call.asked[call.phase.next] in call.promises
    case Work(w) =>
      w < |s.workers| && (s.workers[w].Idle? ==> s.inboxes[w] != []) && (s.workers[w].Fetched? ==> MayRead(c, s))
    case Write(x) =>
      && x < |s.writers| && !s.writers[x].Finished?
      && (s.writers[x].Waiting? ==> s.holder.None? && s.readers == {})
  }

  const BEFORE_START := Call(NotStarted, 0, [], false, [], [], map[], map[])

  function Begun(s: State): Call { Call(Selecting(0), s.version, s.lists, true, [], [], map[], map[]) }

  predicate Unchanged(call: Call, version: nat) { call.steady && version == call.since }

  // The workers' lists are read without a lock.
  function NextSelection(lists: seq<seq<WeakPtr>>, version: nat, call: Call): Call
    requires call.phase.Selecting?
  {
    var w := call.phase.next;
    if w >= |lists| then call.(phase := Reducing(0, []))
    else call.(phase := Selecting(w + 1), steady := Unchanged(call, version), looked := call.looked + [lists[w]],
               asked := call.asked + if lists[w] == [] then [] else [w])
  }

  function NextSelect(s: State, k: nat): State
    requires k < |s.calls| && s.calls[k].phase.Selecting? && |s.inboxes| == |s.lists|
  {
    var w := s.calls[k].phase.next;
    s.(calls := s.calls[k := NextSelection(s.lists, s.version, s.calls[k])],
       inboxes := if w < |s.lists| && s.lists[w] != [] then s.inboxes[w := s.inboxes[w] + [k]] else s.inboxes)
  }

  function NextReduce(call: Call): Call
    requires call.phase.Reducing?
    requires call.phase.next < |call.asked| ==> call.asked[call.phase.next] in call.promises
  {
    var Reducing(i, scores) := call.phase;
    call.(phase := if i < |call.asked| then Reducing(i + 1, scores + call.promises[call.asked[i]]) else Returned(scores))
  }

  function Answered(call: Call, version: nat, w: nat, list: seq<WeakPtr>, scores: seq<Score>): Call {
    call.(promises := call.promises[w := scores], mapped := call.mapped[w := list], steady := Unchanged(call, version))
  }

  function NextWork(c: Config, s: State, w: nat): State
    requires WellFormed(c) && Enabled(c, s, Work(w))
  {
    match s.workers[w]
    case Idle => s.(workers := s.workers[w := Fetched(s.inboxes[w][0])], inboxes := s.inboxes[w := s.inboxes[w][1..]])
    case Fetched(k) => s.(workers := s.workers[w := Mapping(k, 0, [])], readers := s.readers + {w})
    case Mapping(k, done, scores) =>
      if done < |s.lists[w]| then
        s.(workers := s.workers[w := Mapping(k, done + 1, scores + PointerScores(c, k, s.lists[w][done]))])
      else
        s.(workers := s.workers[w := Published],
           calls := s.calls[k := Answered(s.calls[k], s.version, w, s.lists[w], scores)])
    case Published => s.(workers := s.workers[w := Idle], readers := s.readers - {w})
  }

  function PointerScores(c: Config, k: nat, p: WeakPtr): seq<Score>
    requires WellFormed(c) && k < |c.queries|
  {
    if p in c.memory then ChunkScores(c.memory[p], c.queries[k]) else []
  }

  // The chunks once the writer has appended its own and pruned the expired ones.
  function Entered(c: Config, chunks: seq<WeakPtr>, own: Option<WeakPtr>): seq<WeakPtr> {
    Prune(chunks + if own.Some? then [own.value] else [], c.memory.Keys)
  }

  function NextWrite(c: Config, s: State, x: nat): State
    requires WellFormed(c) && x < |s.writers| == |c.writers| && |s.lists| == c.workers
  {
    match s.writers[x]
    case Outside => s.(writers := s.writers[x := Waiting])
    case Waiting => s.(writers := s.writers[x := Locked], holder := Some(x))
    case Locked => s.(writers := s.writers[x := Clearing(0)], chunks := Entered(c, s.chunks, c.writers[x]))
    case Clearing(w) =>
      if w < c.workers then
        s.(writers := s.writers[x := Clearing(w + 1)], lists := s.lists[w := []], version := s.version + 1)
      else if s.chunks == [] then s.(writers := s.writers[x := Assigned])
      else s.(writers := s.writers[x := Filling(0)], chunks := SortByAddress(s.chunks))
    case Filling(w) =>
      if w < c.workers then
        s.(writers := s.writers[x := Filling(w + 1)], lists := s.lists[w := Deques(c.form, s.chunks, c.workers)[w]],
           version := s.version + 1)
      else s.(writers := s.writers[x := Assigned])
    case Assigned => s.(writers := s.writers[x := Finished], holder := None)
    case Finished => s
  }

  function Next(c: Config, s: State, e: Event): State
    requires WellFormed(c) && Enabled(c, s, e)
  {
    match e
    case Start(k) => s.(calls := s.calls[k := Begun(s)])
    case Select(k) => NextSelect(s, k)
    case Reduce(k) => s.(calls := s.calls[k := NextReduce(s.calls[k])])
    case Work(w) => NextWork(c, s, w)
    case Write(x) => NextWrite(c, s, x)
  }

  ghost predicate Init(c: Config, s: State) {
    && WellFormed(c) && Shaped(c, s) && |s.chunks| + |c.writers| <= c.bound
    && s.lists == Deques(c.form, s.chunks, c.workers)
    && s.readers == {} && s.holder.None?
    && (forall w | 0 <= w < |s.workers| :: s.workers[w].Idle? && s.inboxes[w] == [])
    && (forall x | 0 <= x < |s.writers| :: s.writers[x].Outside?)
    && (forall k | 0 <= k < |s.calls| :: s.calls[k] == BEFORE_START)
  }

  ghost function Run(c: Config, s: State, events: seq<Event>): Option<State>
    requires WellFormed(c)
    decreases |events|
  {
    if events == [] then Some(s)
    else if Enabled(c, s, events[0]) then Run(c, Next(c, s, events[0]), events[1..])
    else None
  }

  ghost predicate Reachable(c: Config, s: State)
    requires WellFormed(c)
  {
    exists s0, events :: Init(c, s0) && Run(c, s0, events) == Some(s)
  }
}
