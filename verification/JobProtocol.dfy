/**
  The job completion protocol as a step system: any number of query calls, executors that answer
  at any time, the update thread, and the coordinator's destructor. Each event is one atomic action
  of one thread.
 */
module JobProtocol {
  import opened Wrappers
  import opened Jobs
  import opened Orders

  type JobId = nat

  // The executors a coordinator was built with, by the instance each one runs in.
  datatype Config = Config(executors: seq<Instance>)

  // One executor's promise. Answered is "promise set, update thread not yet notified".
  datatype Call = NotStarted | Running | Answered(answer: Answer) | Notified(answer: Answer)
  {
    predicate Ready() { Answered? || Notified? }
  }

  // Program counter of the thread inside query(), together with the tracker's failure paths.
  datatype Client =
    | Idle                     // query() not called yet
    | Inserting                // tracker built, not yet in the job table
    | Registering(next: nat)   // about to insert the future of executor `next`, or to complete adding
    | Starting(next: nat)      // future inserted, executor `next` not yet called
    | Announcing               // adding-complete stored, not yet notified
    | Returned
    | FailAnnouncing           // failure stored in the promise, not yet notified
    | FailReturned             // failure returned, tracker not yet destroyed
    | FailedOut

  datatype Job = Job(
    client: Client,
    results: map<Instance, nat>,  // the tracker's table: instance -> the executor whose future it holds
    calls: seq<Call>,
    refused: set<nat>,            // executors whose insertion into the table threw
    addingComplete: bool,
    alreadyProcessed: bool,
    promise: seq<Outcome>)        // every value the job's promise was ever given

  datatype Updater =
    | Waiting
    | Dequeued(infos: seq<Option<JobId>>)
    | Scanning(infos: seq<Option<JobId>>, todo: set<JobId>)  // holds the table's read lock
    | Updating(todo: set<JobId>)
    | Checked(job: JobId, todo: set<JobId>)      // saw adding-complete, futures not yet read
    | Reduced(job: JobId, todo: set<JobId>, outcome: Outcome)
    | Published(job: JobId, todo: set<JobId>)    // promise set, already-processed not yet stored
    | Looping
    | Exited
    | Crashed                                    // hashed a null job

  datatype State = State(
    jobs: seq<Job>,
    table: set<JobId>,                // the coordinator's job table
    queue: multiset<Option<JobId>>,   // None is the general-purpose signal
    shutdown: bool,
    shutdownNotified: bool,
    update: Updater)

  const MAX_DEQUEUE_COUNT: nat := 16

  datatype Event =
    | StartQuery(j: JobId)
    | Insert(j: JobId)
    | InsertRefused(j: JobId)
    | InsertThrows(j: JobId)
    | NotifyFailed(j: JobId)
    | DestroyFailed(j: JobId)
    | Register(j: JobId)
    | RegisterThrows(j: JobId)
    | StartCall(j: JobId)
    | CompleteAdding(j: JobId)
    | NotifyComplete(j: JobId)
    | GiveAnswer(j: JobId, k: nat, answer: Answer)
    | NotifyAnswer(j: JobId, k: nat)
    | Dequeue(infos: seq<Option<JobId>>)
    | TestShutdown
    | Scan
    | EndScan
    | TestAdding(j: JobId)
    | Reduce(order: seq<nat>)
    | Publish
    | MarkProcessed
    | EndUpdate
    | Loop
    | StoreShutdown
    | NotifyShutdown

  function Answers(calls: seq<Call>): (r: seq<Option<Answer>>)
    ensures |r| == |calls|
  {
    seq(|calls|, k requires 0 <= k < |calls| => if calls[k].Ready() then Some(calls[k].answer) else None)
  }

  // The tracker's should_update(), and the readiness test inside update().
  predicate AllReady(job: Job) {
    forall x | x in job.results :: job.results[x] < |job.calls| && job.calls[job.results[x]].Ready()
  }

  predicate IsClientEvent(e: Event) {
    e.StartQuery? || e.Insert? || e.InsertRefused? || e.InsertThrows? || e.NotifyFailed? || e.DestroyFailed? ||
    e.Register? || e.RegisterThrows? || e.StartCall? || e.CompleteAdding? || e.NotifyComplete?
  }

  predicate IsCallEvent(e: Event) { e.GiveAnswer? || e.NotifyAnswer? }

  predicate IsUpdaterEvent(e: Event) {
    !IsClientEvent(e) && !IsCallEvent(e) && !e.StoreShutdown? && !e.NotifyShutdown?
  }

  predicate ClientEnabled(c: Config, job: Job, scanning: bool, e: Event)
    requires IsClientEvent(e)
  {
    match e
    case StartQuery(_) => job.client.Idle?
    case Insert(_) => job.client.Inserting? && !scanning
    case InsertRefused(_) => job.client.Inserting? && !scanning
    case InsertThrows(_) => job.client.Inserting? && !scanning
    case NotifyFailed(_) => job.client.FailAnnouncing?
    case DestroyFailed(_) => job.client.FailReturned?
    case Register(_) => job.client.Registering? && job.client.next < |c.executors|
    case RegisterThrows(_) => job.client.Registering? && job.client.next < |c.executors|
    case StartCall(_) => job.client.Starting? && job.client.next < |job.calls|
    case CompleteAdding(_) => job.client.Registering? && job.client.next == |c.executors|
    case NotifyComplete(_) => job.client.Announcing?
  }

  function ClientNext(c: Config, job: Job, e: Event): Job
    requires IsClientEvent(e) && ClientEnabled(c, job, false, e)
  {
    match e
    case StartQuery(_) => job.(client := Inserting)
    case Insert(_) => job.(client := Registering(0))
    case InsertRefused(_) => job.(client := FailAnnouncing, promise := job.promise + [UnableToStart])
    case InsertThrows(_) => job.(client := FailAnnouncing, promise := job.promise + [Raised])
    case NotifyFailed(_) => job.(client := FailReturned)
    case DestroyFailed(_) => job.(client := FailedOut)
    case Register(_) =>
      // An insertion under a key that is already present leaves the table as it is.
      var i := job.client.next;
      job.(client := Starting(i),
           results := if c.executors[i] in job.results then job.results else job.results[c.executors[i] := i])
    case RegisterThrows(_) => job.(client := Registering(job.client.next + 1), refused := job.refused + {job.client.next})
    case StartCall(_) =>
      job.(client := Registering(job.client.next + 1), calls := job.calls[job.client.next := Running])
    case CompleteAdding(_) => job.(client := Announcing, addingComplete := true)
    case NotifyComplete(_) => job.(client := Returned)
  }

  function CallNext(job: Job, e: Event): Job
    requires IsCallEvent(e) && e.k < |job.calls|
    requires if e.GiveAnswer? then job.calls[e.k].Running? else job.calls[e.k].Answered?
  {
    job.(calls := job.calls[e.k := if e.GiveAnswer? then Answered(e.answer) else Notified(job.calls[e.k].answer)])
  }

  predicate Notifies(e: Event) { e.NotifyFailed? || e.DestroyFailed? || e.NotifyComplete? || e.NotifyAnswer? }

  ghost predicate Enabled(c: Config, s: State, e: Event) {
    if IsClientEvent(e) then e.j < |s.jobs| && ClientEnabled(c, s.jobs[e.j], s.update.Scanning?, e)
    else if IsCallEvent(e) then
      && e.j < |s.jobs| && e.k < |s.jobs[e.j].calls|
      && (if e.GiveAnswer? then s.jobs[e.j].calls[e.k].Running? else s.jobs[e.j].calls[e.k].Answered?)
    else
      match e
      case Dequeue(infos) =>
        // The timed wait returns nothing only when there is nothing; the queue keeps no order among producers.
        s.update.Waiting? && |infos| <= MAX_DEQUEUE_COUNT && multiset(infos) <= s.queue &&
        (infos == [] ==> s.queue == multiset{})
      case TestShutdown => s.update.Dequeued?
      case Scan => s.update.Scanning? && s.update.infos != []
      case EndScan => s.update.Scanning? && s.update.infos == []
      case TestAdding(j) => s.update.Updating? && j in s.update.todo && j < |s.jobs|
      case Reduce(order) => s.update.Checked? && s.update.job < |s.jobs| &&
                            Enumerates(order, s.jobs[s.update.job].results.Values)
      case Publish => s.update.Reduced? && s.update.job < |s.jobs|
      case MarkProcessed => s.update.Published? && s.update.job < |s.jobs|
      case EndUpdate => s.update.Updating? && s.update.todo == {}
      case Loop => s.update.Looping?
      case StoreShutdown => !s.shutdown
      case NotifyShutdown => s.shutdown && !s.shutdownNotified
  }

  // What update() tests and does to one job, once it saw that adding is complete.
  predicate MayReport(job: Job) { !job.alreadyProcessed && AllReady(job) }

  function PublishIn(job: Job, outcome: Outcome): Job { job.(promise := job.promise + [outcome]) }

  function MarkIn(job: Job): Job { job.(alreadyProcessed := true) }

  ghost function UpdaterNext(c: Config, s: State, e: Event): State
    requires IsUpdaterEvent(e) && Enabled(c, s, e)
  {
    match e
    case Dequeue(infos) => s.(queue := s.queue - multiset(infos), update := Dequeued(infos))
    case TestShutdown =>
      s.(update := if s.shutdown then Exited else if s.update.infos == [] then Looping
                   else Scanning(s.update.infos, {}))
    case Scan =>
      var info, rest := s.update.infos[0], s.update.infos[1..];
      s.(update :=
        if info.None? then Crashed
        else if info.value in s.table && info.value < |s.jobs| && AllReady(s.jobs[info.value])
        then Scanning(rest, s.update.todo + {info.value})
        else Scanning(rest, s.update.todo))
    case EndScan => s.(update := Updating(s.update.todo))
    case TestAdding(j) =>
      s.(update := if s.jobs[j].addingComplete then Checked(j, s.update.todo - {j}) else Updating(s.update.todo - {j}))
    case Reduce(order) =>
      var job := s.jobs[s.update.job];
      s.(update :=
        if !MayReport(job) then Updating(s.update.todo)
        else Reduced(s.update.job, s.update.todo, Aggregate(Select(Answers(job.calls), order))))
    case Publish =>
      var j, job := s.update.job, s.jobs[s.update.job];
      s.(update := Published(j, s.update.todo), jobs := s.jobs[j := PublishIn(job, s.update.outcome)])
    case MarkProcessed =>
      var j := s.update.job;
      s.(update := Updating(s.update.todo), jobs := s.jobs[j := MarkIn(s.jobs[j])])
    case EndUpdate => s.(update := Looping)
    case Loop => s.(update := if s.shutdown then Exited else Waiting)
  }

  ghost function Next(c: Config, s: State, e: Event): State
    requires Enabled(c, s, e)
  {
    if IsClientEvent(e) then
      var signalled := if Notifies(e) then s.queue + multiset{Some(e.j)} else s.queue;
      s.(jobs := s.jobs[e.j := ClientNext(c, s.jobs[e.j], e)], queue := signalled,
         table := if e.Insert? then s.table + {e.j} else s.table)
    else if IsCallEvent(e) then
      var signalled := if Notifies(e) then s.queue + multiset{Some(e.j)} else s.queue;
      s.(jobs := s.jobs[e.j := CallNext(s.jobs[e.j], e)], queue := signalled)
    else if e.StoreShutdown? then s.(shutdown := true)
    else if e.NotifyShutdown? then s.(shutdownNotified := true, queue := s.queue + multiset{None})
    else UpdaterNext(c, s, e)
  }

  predicate Fresh(c: Config, job: Job) {
    && job.client.Idle? && job.results == map[] && job.refused == {} && job.promise == []
    && !job.addingComplete && !job.alreadyProcessed
    && |job.calls| == |c.executors| && forall k | 0 <= k < |job.calls| :: job.calls[k] == NotStarted
  }

  predicate Init(c: Config, s: State) {
    && (forall j | 0 <= j < |s.jobs| :: Fresh(c, s.jobs[j]))
    && s.table == {} && s.queue == multiset{} && !s.shutdown && !s.shutdownNotified && s.update.Waiting?
  }

  // The state after a run of events, if each of them was possible.
  ghost function Run(c: Config, s: State, events: seq<Event>): Option<State>
    decreases |events|
  {
    if events == [] then Some(s)
    else if Enabled(c, s, events[0]) then Run(c, Next(c, s, events[0]), events[1..])
    else None
  }

  ghost predicate Reachable(c: Config, s: State) {
    exists s0, events :: Init(c, s0) && Run(c, s0, events) == Some(s)
  }
}
