/**
  Every fair run completes every job whose executors all answer. A measure decreases with each event
  except the update thread's idle cycle (timeout, test, loop), so a run does finitely much work; when it
  has done all of it, fairness leaves nothing pending and the wake-up invariant leaves nothing forgotten.
 */
module JobLiveness {
  import opened Wrappers
  import opened Orders
  import opened JobProtocol
  import opened JobInvariant
  import opened JobSafety
  import opened Weights

  function CallWeight(call: Call): nat {
    match call
    case NotStarted => 24
    case Running => 23
    case Answered(_) => 22
    case Notified(_) => 0
  }

  function CallScale(): Call -> nat { call => CallWeight(call) }

  function CallsWeight(calls: seq<Call>): nat { Weigh(CallScale(), calls) }

  function ClientWeight(n: nat, client: Client): nat {
    match client
    case Idle => 101 + 2 * n
    case Inserting => 100 + 2 * n
    case Registering(i) => 30 + (if i <= n then 2 * (n - i) else 0)
    case Starting(i) => 29 + (if i <= n then 2 * (n - i) else 0)
    case Announcing => 25
    case Returned => 0
    case FailAnnouncing => 50
    case FailReturned => 25
    case FailedOut => 0
  }

  function JobWeight(c: Config, job: Job): nat {
    ClientWeight(|c.executors|, job.client) + CallsWeight(job.calls)
  }

  function JobScale(c: Config): Job -> nat { job => JobWeight(c, job) }

  function JobsWeight(c: Config, jobs: seq<Job>): nat { Weigh(JobScale(c), jobs) }

  function UpdaterWeight(u: Updater): nat {
    match u
    case Dequeued(infos) => if infos == [] then 0 else 3 + 10 * |infos|
    case Scanning(infos, todo) => 2 + 10 * |infos| + 8 * |todo|
    case Updating(todo) => 1 + 8 * |todo|
    case Checked(_, todo) => 7 + 8 * |todo|
    case Reduced(_, todo, _) => 5 + 8 * |todo|
    case Published(_, todo) => 3 + 8 * |todo|
    case _ => 0
  }

  // The work left to do.
  function Measure(c: Config, s: State): nat {
    JobsWeight(c, s.jobs) + 20 * |s.queue| + UpdaterWeight(s.update) +
    (if s.shutdownNotified then 0 else if s.shutdown then 22 else 23)
  }

  // The update thread waking up for nothing.
  predicate IsIdle(s: State, e: Event) {
    || (e.Dequeue? && e.infos == [])
    || (e.TestShutdown? && s.update.Dequeued? && s.update.infos == [])
    || e.Loop?
  }

  lemma CallsWeightUpdate(calls: seq<Call>, k: nat, call: Call)
    requires k < |calls|
    ensures CallsWeight(calls[k := call]) == CallsWeight(calls) - CallWeight(calls[k]) + CallWeight(call)
  {
    WeighUpdate(CallScale(), calls, k, call);
  }

  lemma JobsWeightUpdate(c: Config, jobs: seq<Job>, j: nat, job: Job)
    requires j < |jobs|
    ensures JobsWeight(c, jobs[j := job]) == JobsWeight(c, jobs) - JobWeight(c, jobs[j]) + JobWeight(c, job)
  {
    WeighUpdate(JobScale(c), jobs, j, job);
  }

  lemma StartLightens(c: Config, job: Job, publishing: bool, e: Event)
    requires e.StartCall? && ClientEnabled(c, job, false, e) && JobOk(c, job, publishing)
    ensures JobWeight(c, ClientNext(c, job, e)) < JobWeight(c, job)
  {
    CallsWeightUpdate(job.calls, job.client.next, Running);
  }

  lemma ClientLightens(c: Config, job: Job, publishing: bool, e: Event)
    requires IsClientEvent(e) && ClientEnabled(c, job, false, e) && JobOk(c, job, publishing)
    ensures JobWeight(c, ClientNext(c, job, e)) + (if Notifies(e) then 20 else 0) < JobWeight(c, job)
  {
    if e.StartCall? {
      StartLightens(c, job, publishing, e);
    } else {
      assert ClientNext(c, job, e).calls == job.calls;
    }
  }

  lemma ClientWorks(c: Config, s: State, e: Event)
    requires Inv(c, s) && Enabled(c, s, e) && IsClientEvent(e)
    ensures Measure(c, Next(c, s, e)) < Measure(c, s)
  {
    assert JobOk(c, s.jobs[e.j], IsPublishing(s, e.j));
    ClientLightens(c, s.jobs[e.j], IsPublishing(s, e.j), e);
    JobsWeightUpdate(c, s.jobs, e.j, ClientNext(c, s.jobs[e.j], e));
  }

  lemma CallWorks(c: Config, s: State, e: Event)
    requires Enabled(c, s, e) && IsCallEvent(e)
    ensures Measure(c, Next(c, s, e)) < Measure(c, s)
  {
    var job := s.jobs[e.j];
    var call := if e.GiveAnswer? then Answered(e.answer) else Notified(job.calls[e.k].answer);
    CallsWeightUpdate(job.calls, e.k, call);
    JobsWeightUpdate(c, s.jobs, e.j, job.(calls := job.calls[e.k := call]));
  }

  lemma ReportingWorks(c: Config, s: State, e: Event)
    requires Enabled(c, s, e) && (e.Publish? || e.MarkProcessed?)
    ensures Measure(c, Next(c, s, e)) < Measure(c, s)
  {
    var j, job := s.update.job, s.jobs[s.update.job];
    if e.Publish? {
      JobsWeightUpdate(c, s.jobs, j, job.(promise := job.promise + [s.update.outcome]));
    } else {
      JobsWeightUpdate(c, s.jobs, j, job.(alreadyProcessed := true));
    }
  }

  lemma DequeueWorks(c: Config, s: State, e: Event)
    requires Enabled(c, s, e) && e.Dequeue?
    ensures if IsIdle(s, e) then Measure(c, UpdaterNext(c, s, e)) == Measure(c, s)
            else Measure(c, UpdaterNext(c, s, e)) < Measure(c, s)
  {
    assert |s.queue - multiset(e.infos)| == |s.queue| - |e.infos|;
  }

  lemma TrackersWork(c: Config, s: State, e: Event)
    requires Enabled(c, s, e) && (e.Scan? || e.TestAdding? || e.Reduce?)
    ensures Measure(c, UpdaterNext(c, s, e)) < Measure(c, s)
  {
    var t := UpdaterNext(c, s, e);
    assert t.jobs == s.jobs && t.queue == s.queue;
    if e.Scan? {
      var info := s.update.infos[0];
      if info.Some? { assert |s.update.todo + {info.value}| <= |s.update.todo| + 1; }
    }
  }

  lemma UpdaterWorks(c: Config, s: State, e: Event)
    requires Enabled(c, s, e) && IsUpdaterEvent(e) && !e.Publish? && !e.MarkProcessed?
    ensures if IsIdle(s, e) then Measure(c, Next(c, s, e)) == Measure(c, s) else Measure(c, Next(c, s, e)) < Measure(c, s)
  {
    if e.Dequeue? { DequeueWorks(c, s, e); }
    else if e.Scan? || e.TestAdding? || e.Reduce? { TrackersWork(c, s, e); }
    else { assert UpdaterNext(c, s, e).jobs == s.jobs && UpdaterNext(c, s, e).queue == s.queue; }
  }

  lemma ShutdownWorks(c: Config, s: State, e: Event)
    requires Inv(c, s) && Enabled(c, s, e) && !IsClientEvent(e) && !IsCallEvent(e) && !IsUpdaterEvent(e)
    ensures Measure(c, Next(c, s, e)) < Measure(c, s)
  {
    assert Next(c, s, e).jobs == s.jobs;
  }

  lemma OnlyUpdaterIdles(s: State, e: Event)
    requires IsIdle(s, e)
    ensures IsUpdaterEvent(e) && !IsClientEvent(e) && !IsCallEvent(e) && !e.Publish? && !e.MarkProcessed?
  {
  }

  // Every event but an idle one decreases the work left; an idle one leaves it as it is.
  lemma StepWorks(c: Config, s: State, e: Event)
    requires Inv(c, s) && Enabled(c, s, e)
    ensures if IsIdle(s, e) then Measure(c, Next(c, s, e)) == Measure(c, s) else Measure(c, Next(c, s, e)) < Measure(c, s)
  {
    if IsIdle(s, e) { OnlyUpdaterIdles(s, e); }
    if IsClientEvent(e) { ClientWorks(c, s, e); }
    else if IsCallEvent(e) { CallWorks(c, s, e); }
    else if e.Publish? || e.MarkProcessed? { ReportingWorks(c, s, e); }
    else if IsUpdaterEvent(e) { UpdaterWorks(c, s, e); }
    else { ShutdownWorks(c, s, e); }
  }

  // An infinite run: the state before each event, and the events.
  datatype Trace = Trace(state: nat -> State, event: nat -> Event)

  ghost predicate StepAt(c: Config, r: Trace, n: nat) {
    Enabled(c, r.state(n), r.event(n)) && r.state(n + 1) == Next(c, r.state(n), r.event(n))
  }

  ghost predicate IsTrace(c: Config, r: Trace) {
    Init(c, r.state(0)) && forall n: nat :: StepAt(c, r, n)
  }

  // Threads whose progress the system owes. Callers and executors decide for themselves when to start and to answer.
  datatype Thread = ClientThread(j: JobId) | CallbackThread(j: JobId, k: nat) | UpdateThread

  predicate Acts(t: Thread, e: Event) {
    match t
    case ClientThread(j) => IsClientEvent(e) && !e.StartQuery? && e.j == j
    case CallbackThread(j, k) => e == NotifyAnswer(j, k)
    case UpdateThread => IsUpdaterEvent(e)
  }

  ghost predicate CanAct(c: Config, s: State, t: Thread) {
    exists e :: Acts(t, e) && Enabled(c, s, e)
  }

  // From n on, the thread acts or is found unable to.
  ghost predicate GetsTurn(c: Config, r: Trace, t: Thread, n: nat) {
    exists m: nat :: n <= m && (Acts(t, r.event(m)) || !CanAct(c, r.state(m), t))
  }

  ghost predicate Fair(c: Config, r: Trace) {
    forall t, n: nat :: GetsTurn(c, r, t, n)
  }

  ghost predicate AnswersFrom(r: Trace, j: JobId, k: nat, n: nat) {
    exists m: nat :: n <= m && j < |r.state(m).jobs| && k < |r.state(m).jobs[j].calls| && !r.state(m).jobs[j].calls[k].Running?
  }

  // Every executor that is called for the job answers sooner or later.
  ghost predicate AllAnswer(r: Trace, j: JobId) {
    forall k: nat, n: nat :: j < |r.state(n).jobs| && k < |r.state(n).jobs[j].calls| ==> AnswersFrom(r, j, k, n)
  }

  lemma {:induction false} TraceInv(c: Config, r: Trace, n: nat)
    requires IsTrace(c, r)
    ensures Inv(c, r.state(n)) && Reachable(c, r.state(n))
  {
    if n == 0 {
      InitInv(c, r.state(0));
      assert Run(c, r.state(0), []) == Some(r.state(0));
    } else {
      TraceInv(c, r, n - 1);
      assert StepAt(c, r, n - 1);
      StepInv(c, r.state(n - 1), r.event(n - 1));
      ReachFurther(c, r.state(n - 1), r.event(n - 1), r.state(n));
    }
  }

  ghost predicate Constant(f: nat -> nat, n: nat) {
    forall m: nat | n <= m :: f(m) == f(n)
  }

  lemma {:induction false} NonIncreasing(f: nat -> nat, from: nat, n: nat, m: nat)
    requires forall i: nat | from <= i :: f(i + 1) <= f(i)
    requires from <= n <= m
    ensures f(m) <= f(n)
    decreases m - n
  {
    if n < m {
      NonIncreasing(f, from, n, m - 1);
      assert f((m - 1) + 1) <= f(m - 1);
    }
  }

  // A measure that never increases is constant from some point on.
  lemma {:induction false} BecomesConstant(f: nat -> nat, n: nat) returns (last: nat)
    requires forall i: nat | n <= i :: f(i + 1) <= f(i)
    ensures n <= last && Constant(f, last)
    decreases f(n)
  {
    if m: nat :| n <= m && f(m) < f(n) {
      last := BecomesConstant(f, m);
    } else {
      forall m: nat | n <= m ensures f(m) == f(n) { NonIncreasing(f, n, n, m); }
      last := n;
    }
  }

  // From `last` on the run only idles.
  ghost predicate OnlyIdles(c: Config, r: Trace, last: nat) {
    forall m: nat | last <= m :: IsIdle(r.state(m), r.event(m))
  }

  lemma WorkRunsOut(c: Config, r: Trace, n: nat) returns (last: nat)
    requires IsTrace(c, r)
    ensures n <= last && OnlyIdles(c, r, last)
  {
    var work: nat -> nat := i => Measure(c, r.state(i));
    forall i: nat ensures work(i + 1) <= work(i) && (work(i + 1) == work(i) ==> IsIdle(r.state(i), r.event(i))) {
      TraceInv(c, r, i);
      assert StepAt(c, r, i);
      StepWorks(c, r.state(i), r.event(i));
    }
    last := BecomesConstant(work, n);
    forall m: nat | last <= m ensures IsIdle(r.state(m), r.event(m)) {
      assert work(m) == work(last) && work(m + 1) == work(last);
    }
  }

  // Idling changes nothing but the update thread's position in its cycle.
  lemma {:induction false} IdlingKeeps(c: Config, r: Trace, last: nat, m: nat)
    requires IsTrace(c, r) && OnlyIdles(c, r, last) && last <= m
    ensures r.state(m) == r.state(last).(update := r.state(m).update)
    decreases m
  {
    if last < m {
      IdlingKeeps(c, r, last, m - 1);
      assert StepAt(c, r, m - 1) && IsIdle(r.state(m - 1), r.event(m - 1));
      assert r.state(m - 1).queue - multiset([]) == r.state(m - 1).queue;
    }
  }

  // A thread other than the update thread that could act for ever would have acted.
  lemma OthersAreStuck(c: Config, r: Trace, last: nat, t: Thread)
    requires IsTrace(c, r) && Fair(c, r) && OnlyIdles(c, r, last) && !t.UpdateThread?
    ensures exists m: nat :: last <= m && !CanAct(c, r.state(m), t)
  {
    assert GetsTurn(c, r, t, last);
    var m: nat :| last <= m && (Acts(t, r.event(m)) || !CanAct(c, r.state(m), t));
    assert IsIdle(r.state(m), r.event(m));
  }

  lemma ClientCanAct(c: Config, s: State, j: JobId, publishing: bool)
    requires j < |s.jobs| && JobOk(c, s.jobs[j], publishing) && Tabled(s.jobs[j])
    ensures s.jobs[j].client.Returned? || CanAct(c, s, ClientThread(j))
  {
    var job := s.jobs[j];
    var e := if job.client.Announcing? then NotifyComplete(j) else if job.client.Starting? then StartCall(j)
             else if job.client.Registering? && job.client.next == |c.executors| then CompleteAdding(j) else Register(j);
    assert Acts(ClientThread(j), e);
    assert job.client.Returned? || Enabled(c, s, e);
  }

  lemma ClientHasReturned(c: Config, r: Trace, last: nat, j: JobId)
    requires IsTrace(c, r) && Fair(c, r) && OnlyIdles(c, r, last) && j in r.state(last).table
    ensures j < |r.state(last).jobs| && r.state(last).jobs[j].client.Returned?
  {
    TraceInv(c, r, last);
    OthersAreStuck(c, r, last, ClientThread(j));
    var m: nat :| last <= m && !CanAct(c, r.state(m), ClientThread(j));
    IdlingKeeps(c, r, last, m);
    ClientCanAct(c, r.state(m), j, IsPublishing(r.state(last), j));
  }

  lemma CallsAreNotified(c: Config, r: Trace, last: nat, j: JobId, k: nat)
    requires IsTrace(c, r) && Fair(c, r) && OnlyIdles(c, r, last) && AllAnswer(r, j)
    requires j < |r.state(last).jobs| && k < |r.state(last).jobs[j].calls|
    ensures r.state(last).jobs[j].calls[k].Notified? || r.state(last).jobs[j].calls[k].NotStarted?
  {
    OthersAreStuck(c, r, last, CallbackThread(j, k));
    var m: nat :| last <= m && !CanAct(c, r.state(m), CallbackThread(j, k));
    IdlingKeeps(c, r, last, m);
    assert Acts(CallbackThread(j, k), NotifyAnswer(j, k));
    assert !Enabled(c, r.state(m), NotifyAnswer(j, k));
    assert AnswersFrom(r, j, k, last);
    var a: nat :| last <= a && j < |r.state(a).jobs| && k < |r.state(a).jobs[j].calls| && !r.state(a).jobs[j].calls[k].Running?;
    IdlingKeeps(c, r, last, a);
  }

  predicate Cycling(u: Updater) { u.Waiting? || u.Looping? || (u.Dequeued? && u.infos == []) }

  lemma WaiterCanAct(c: Config, s: State)
    requires s.update.Waiting?
    ensures CanAct(c, s, UpdateThread)
  {
    var infos: seq<Option<JobId>> := [];
    if x :| x in s.queue { infos := [x]; }
    assert Acts(UpdateThread, Dequeue(infos)) && Enabled(c, s, Dequeue(infos));
  }

  lemma CheckerCanAct(c: Config, s: State)
    requires s.update.Checked? && s.update.job < |s.jobs|
    ensures CanAct(c, s, UpdateThread)
  {
    var order := SomeOrder(Registered(s.jobs[s.update.job]));
    assert Acts(UpdateThread, Reduce(order)) && Enabled(c, s, Reduce(order));
  }

  lemma TesterCanAct(c: Config, s: State)
    requires s.update.Updating? && forall j | j in s.update.todo :: j < |s.jobs|
    ensures CanAct(c, s, UpdateThread)
  {
    var e := EndUpdate;
    if j :| j in s.update.todo { e := TestAdding(j); }
    assert Acts(UpdateThread, e) && Enabled(c, s, e);
  }

  // The update thread can always go on.
  lemma UpdaterCanAct(c: Config, s: State)
    requires Inv(c, s) && !s.update.Exited?
    ensures CanAct(c, s, UpdateThread)
  {
    if s.update.Waiting? { WaiterCanAct(c, s); }
    else if s.update.Updating? { TesterCanAct(c, s); }
    else if s.update.Checked? {
      assert InHand(s.update, s.update.job);
      CheckerCanAct(c, s);
    }
    else {
      var e := if s.update.Dequeued? then TestShutdown
               else if s.update.Scanning? then if s.update.infos == [] then EndScan else Scan
               else if s.update.Reduced? then Publish
               else if s.update.Published? then MarkProcessed
               else Loop;
      assert Acts(UpdateThread, e) && Enabled(c, s, e);
    }
  }

  function CycleRank(u: Updater): nat {
    if u.Dequeued? then 2 else if u.Looping? then 1 else 0
  }

  lemma StepKeepsRunning(c: Config, s: State, e: Event)
    requires Enabled(c, s, e) && !s.shutdown && !s.update.Exited?
    ensures !Next(c, s, e).update.Exited?
  {
  }

  lemma {:induction false} NoExit(c: Config, r: Trace, n: nat)
    requires IsTrace(c, r) && forall m: nat :: !r.state(m).shutdown
    ensures !r.state(n).update.Exited?
  {
    if n > 0 {
      NoExit(c, r, n - 1);
      assert StepAt(c, r, n - 1);
      StepKeepsRunning(c, r.state(n - 1), r.event(n - 1));
    }
  }

  lemma UpdaterActsAgain(c: Config, r: Trace, n: nat) returns (m: nat)
    requires IsTrace(c, r) && Fair(c, r) && forall i: nat :: !r.state(i).shutdown
    ensures n <= m && IsUpdaterEvent(r.event(m))
  {
    assert GetsTurn(c, r, UpdateThread, n);
    m :| n <= m && (Acts(UpdateThread, r.event(m)) || !CanAct(c, r.state(m), UpdateThread));
    TraceInv(c, r, m);
    NoExit(c, r, m);
    UpdaterCanAct(c, r.state(m));
  }

  // Once only idling is left, the update thread is in its idle cycle and the queue is empty.
  lemma UpdaterIsDrained(c: Config, r: Trace, last: nat)
    requires IsTrace(c, r) && Fair(c, r) && OnlyIdles(c, r, last) && forall i: nat :: !r.state(i).shutdown
    ensures Cycling(r.state(last).update) && r.state(last).queue == multiset{}
  {
    assert IsIdle(r.state(last), r.event(last)) && StepAt(c, r, last);
    var empty := r.state(last).queue == multiset{};
    var rank: nat -> nat := i => if empty then 0 else CycleRank(r.state(i).update);
    forall i: nat | last <= i
      ensures rank(i + 1) <= rank(i) && (IsUpdaterEvent(r.event(i)) && !empty ==> rank(i + 1) < rank(i))
    {
      IdlingKeeps(c, r, last, i);
      NoExit(c, r, i + 1);
      assert StepAt(c, r, i) && IsIdle(r.state(i), r.event(i));
    }
    var low := BecomesConstant(rank, last);
    var m := UpdaterActsAgain(c, r, low);
    assert rank(m) == rank(low) && rank(m + 1) == rank(low);
  }

  /** Liveness: in a fair run without shutdown, a job that made it into the table and whose executors all
      answer is completed. */
  lemma EveryAnsweredJobCompletes(c: Config, r: Trace, n: nat, j: JobId) returns (m: nat)
    requires IsTrace(c, r) && Fair(c, r) && AllAnswer(r, j)
    requires forall i: nat :: !r.state(i).shutdown
    requires j in r.state(n).table
    ensures n <= m && j < |r.state(m).jobs| && |r.state(m).jobs[j].promise| == 1
    ensures r.state(m).jobs[j].promise[0].Completed?
  {
    m := WorkRunsOut(c, r, n);
    var s := r.state(m);
    StaysInTable(c, r, n, m, j);
    TraceInv(c, r, m);
    ClientHasReturned(c, r, m, j);
    UpdaterIsDrained(c, r, m);
    var job := s.jobs[j];
    assert JobOk(c, job, IsPublishing(s, j));
    forall k: nat | k < |job.calls| ensures job.calls[k].Notified? || job.calls[k].NotStarted? {
      CallsAreNotified(c, r, m, j, k);
    }
    assert AllReady(job);
    assert !Awake(s, j);
    assert job.alreadyProcessed;
  }

  lemma {:induction false} StaysInTable(c: Config, r: Trace, n: nat, m: nat, j: JobId)
    requires IsTrace(c, r) && n <= m && j in r.state(n).table
    ensures j in r.state(m).table
    decreases m - n
  {
    if n < m {
      StaysInTable(c, r, n, m - 1, j);
      assert StepAt(c, r, m - 1);
    }
  }
}
