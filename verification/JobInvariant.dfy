/** What every reachable state of the job protocol keeps, and the safety results that follow. */
module JobInvariant {
  import opened Wrappers
  import opened Jobs
  import opened Orders
  import opened JobProtocol

  // The number of executors whose insertion into the table has been decided.
  function Decided(c: Config, job: Job): nat {
    match job.client
    case Registering(i) => i
    case Starting(i) => i + 1
    case Announcing => |c.executors|
    case Returned => |c.executors|
    case _ => 0
  }

  // The number of executors the client thread is done with.
  function Passed(c: Config, job: Job): nat {
    if job.client.Starting? then job.client.next else Decided(c, job)
  }

  predicate Failing(job: Job) { job.client.FailAnnouncing? || job.client.FailReturned? || job.client.FailedOut? }

  predicate Tabled(job: Job) {
    job.client.Registering? || job.client.Starting? || job.client.Announcing? || job.client.Returned?
  }

  // The executors whose futures the tracker holds.
  function Registered(job: Job): set<nat> { job.results.Values }

  predicate TableOk(c: Config, job: Job) {
    && (forall x | x in job.results ::
          && job.results[x] < Decided(c, job) && job.results[x] < |c.executors| && job.results[x] !in job.refused
          && c.executors[job.results[x]] == x
          && forall k | 0 <= k < job.results[x] :: c.executors[k] == x ==> k in job.refused)
    && (forall k | 0 <= k < Decided(c, job) :: k < |c.executors| && (k !in job.refused ==> c.executors[k] in job.results))
  }

  predicate CallsOk(c: Config, job: Job) {
    && |job.calls| == |c.executors|
    && Decided(c, job) <= |c.executors|
    && (forall k | 0 <= k < |job.calls| ::
          job.calls[k].NotStarted? <==> (k >= Passed(c, job) || k in job.refused))
    && (forall k | k in job.refused :: k < Passed(c, job))
  }

  ghost predicate PromiseOk(job: Job, publishing: bool) {
    && (Failing(job) ==> |job.promise| == 1 && !job.promise[0].Completed?)
    && (!Tabled(job) ==> !job.alreadyProcessed && !publishing && (Failing(job) || job.promise == []))
    && (Tabled(job) ==>
          if job.alreadyProcessed || publishing
          then |job.promise| == 1 && IsReduction(Answers(job.calls), Registered(job), job.promise[0])
               && job.addingComplete
          else job.promise == [])
    && (job.addingComplete <==> (job.client.Announcing? || job.client.Returned?))
  }

  ghost predicate JobOk(c: Config, job: Job, publishing: bool) {
    TableOk(c, job) && CallsOk(c, job) && PromiseOk(job, publishing)
  }

  predicate IsPublishing(s: State, j: JobId) { s.update.Published? && s.update.job == j }

  function Todo(u: Updater): set<JobId> {
    match u
    case Scanning(_, todo) => todo
    case Updating(todo) => todo
    case Checked(_, todo) => todo
    case Reduced(_, todo, _) => todo
    case Published(_, todo) => todo
    case _ => {}
  }

  function Batch(u: Updater): seq<Option<JobId>> {
    if u.Dequeued? || u.Scanning? then u.infos else []
  }

  predicate InHand(u: Updater, j: JobId) {
    (u.Checked? || u.Reduced? || u.Published?) && u.job == j
  }

  ghost predicate UpdaterOk(c: Config, s: State) {
    && !s.update.Crashed?
    && (forall j | j in Todo(s.update) :: j in s.table)
    && (forall j: nat | InHand(s.update, j) :: j in s.table && j < |s.jobs| && s.jobs[j].addingComplete)
    && (s.update.Reduced? ==>
          && s.update.job < |s.jobs| && !s.jobs[s.update.job].alreadyProcessed
          && IsReduction(Answers(s.jobs[s.update.job].calls), Registered(s.jobs[s.update.job]), s.update.outcome))
    && (s.update.Published? ==> s.update.job < |s.jobs| && !s.jobs[s.update.job].alreadyProcessed)
  }

  // The null signal is only ever in flight after the shutdown flag was stored.
  ghost predicate SignalOk(s: State) {
    && (None in s.queue ==> s.shutdown)
    && (s.update.Dequeued? && None in s.update.infos ==> s.shutdown)
    && (s.update.Scanning? ==> None !in s.update.infos)
    && (s.shutdownNotified ==> s.shutdown)
  }

  // All the tracker waits for has happened, and no value was reported yet.
  predicate Due(job: Job) { job.addingComplete && AllReady(job) && !job.alreadyProcessed }

  // The job is on its way to the update thread, or in its hands.
  predicate Pending(s: State, j: JobId) {
    Some(j) in s.queue || Some(j) in Batch(s.update) || j in Todo(s.update) || InHand(s.update, j)
  }

  // Some thread changed the job's state and has not notified the update thread yet.
  predicate Notifying(job: Job) {
    job.client.Announcing? || exists k | 0 <= k < |job.calls| :: job.calls[k].Answered?
  }

  predicate Awake(s: State, j: JobId)
    requires j < |s.jobs|
  {
    Pending(s, j) || Notifying(s.jobs[j])
  }

  ghost predicate WakeOk(s: State) {
    !s.shutdown ==> forall j | 0 <= j < |s.jobs| :: Due(s.jobs[j]) ==> Awake(s, j)
  }

  ghost predicate JobsOk(c: Config, s: State) {
    && (forall j | j in s.table :: j < |s.jobs|)
    && (forall j | 0 <= j < |s.jobs| :: JobOk(c, s.jobs[j], IsPublishing(s, j)) && (j in s.table <==> Tabled(s.jobs[j])))
  }

  ghost predicate Inv(c: Config, s: State) {
    JobsOk(c, s) && UpdaterOk(c, s) && SignalOk(s) && WakeOk(s)
  }

  lemma InitInv(c: Config, s: State)
    requires Init(c, s)
    ensures Inv(c, s)
  {
    forall j | 0 <= j < |s.jobs| ensures JobOk(c, s.jobs[j], false) && !Tabled(s.jobs[j]) { FreshOk(c, s.jobs[j]); }
  }

  lemma FreshOk(c: Config, job: Job)
    requires Fresh(c, job)
    ensures JobOk(c, job, false) && !Tabled(job)
  {
    assert Decided(c, job) == 0 && TableOk(c, job);
    assert CallsOk(c, job);
  }

  lemma AnswersKept(before: seq<Call>, after: seq<Call>, k: nat)
    requires |before| == |after| && k < |before|
    requires forall i | 0 <= i < |before| && i != k :: after[i] == before[i]
    requires before[k].Ready() ==> after[k].Ready() && after[k].answer == before[k].answer
    ensures forall i | 0 <= i < |before| :: Answers(before)[i].Some? ==> Answers(after)[i] == Answers(before)[i]
  {
  }

  // Changing one call without losing an answer keeps every reduction made from the answers.
  lemma ReductionKept(before: seq<Call>, after: seq<Call>, k: nat, chosen: set<nat>)
    requires |before| == |after| && k < |before|
    requires forall i | 0 <= i < |before| && i != k :: after[i] == before[i]
    requires before[k].Ready() ==> after[k].Ready() && after[k].answer == before[k].answer
    ensures forall o :: IsReduction(Answers(before), chosen, o) ==> IsReduction(Answers(after), chosen, o)
  {
    AnswersKept(before, after, k);
    forall o | IsReduction(Answers(before), chosen, o) ensures IsReduction(Answers(after), chosen, o) {
      ReductionIsStable(Answers(before), Answers(after), chosen, o);
    }
  }

  lemma RegisterKeepsTable(c: Config, job: Job)
    requires JobOk(c, job, false) && job.client.Registering? && job.client.next < |c.executors|
    ensures TableOk(c, ClientNext(c, job, Register(0)))
  {
    var after := ClientNext(c, job, Register(0));
    var i := job.client.next;
    forall x | x in after.results
      ensures after.results[x] <= i && after.results[x] !in after.refused && c.executors[after.results[x]] == x
      ensures forall k | 0 <= k < after.results[x] :: c.executors[k] == x ==> k in after.refused
    {
      if x in job.results { assert after.results[x] == job.results[x]; }
    }
  }

  lemma ThrowKeepsTable(c: Config, job: Job)
    requires JobOk(c, job, false) && job.client.Registering? && job.client.next < |c.executors|
    ensures TableOk(c, ClientNext(c, job, RegisterThrows(0)))
  {
    var after := ClientNext(c, job, RegisterThrows(0));
    forall x | x in after.results ensures after.results[x] < job.client.next && after.results[x] !in after.refused {
      assert after.results[x] == job.results[x];
    }
  }

  lemma ClientKeepsTable(c: Config, job: Job, publishing: bool, e: Event)
    requires IsClientEvent(e) && ClientEnabled(c, job, false, e) && JobOk(c, job, publishing)
    ensures TableOk(c, ClientNext(c, job, e))
  {
    if e.Register? {
      RegisterKeepsTable(c, job);
    } else if e.RegisterThrows? {
      ThrowKeepsTable(c, job);
    }
  }

  lemma ClientKeepsCalls(c: Config, job: Job, publishing: bool, e: Event)
    requires IsClientEvent(e) && ClientEnabled(c, job, false, e) && JobOk(c, job, publishing)
    ensures CallsOk(c, ClientNext(c, job, e))
  {
  }

  lemma ClientKeepsPromise(c: Config, job: Job, publishing: bool, e: Event)
    requires IsClientEvent(e) && ClientEnabled(c, job, false, e) && JobOk(c, job, publishing)
    ensures PromiseOk(ClientNext(c, job, e), publishing)
  {
  }

  lemma ClientKeepsJob(c: Config, job: Job, publishing: bool, e: Event)
    requires IsClientEvent(e) && ClientEnabled(c, job, false, e) && JobOk(c, job, publishing)
    ensures JobOk(c, ClientNext(c, job, e), publishing)
  {
    ClientKeepsTable(c, job, publishing, e);
    ClientKeepsCalls(c, job, publishing, e);
    ClientKeepsPromise(c, job, publishing, e);
  }

  lemma CallKeepsJob(c: Config, job: Job, publishing: bool, k: nat, call: Call)
    requires JobOk(c, job, publishing) && k < |job.calls|
    requires (job.calls[k].Running? && call.Answered?) || (job.calls[k].Answered? && call == Notified(job.calls[k].answer))
    ensures JobOk(c, job.(calls := job.calls[k := call]), publishing)
  {
    ReductionKept(job.calls, job.calls[k := call], k, Registered(job));
  }

  // A change to one job that other parts of the state may rely on.
  ghost predicate Kept(before: Job, after: Job) {
    && (before.addingComplete ==> after.addingComplete)
    && after.alreadyProcessed == before.alreadyProcessed
    && (before.addingComplete ==> after.results == before.results)
    && (before.addingComplete ==> forall o ::
          IsReduction(Answers(before.calls), Registered(before), o) ==> IsReduction(Answers(after.calls), Registered(after), o))
  }

  lemma ClientKept(c: Config, job: Job, publishing: bool, e: Event)
    requires IsClientEvent(e) && ClientEnabled(c, job, false, e) && JobOk(c, job, publishing)
    ensures Kept(job, ClientNext(c, job, e))
    ensures Tabled(ClientNext(c, job, e)) <==> (Tabled(job) || e.Insert?)
    ensures Due(ClientNext(c, job, e)) ==> ClientNext(c, job, e).client.Announcing? || (e.NotifyComplete? && Due(job))
    ensures ClientNext(c, job, e).addingComplete ==> ClientNext(c, job, e).calls == job.calls
  {
  }

  // One job changed, its owner's queue entry at most added: what the rest of the invariant needs.
  lemma OneJobChanged(c: Config, s: State, t: State, j: JobId)
    requires Inv(c, s) && j < |s.jobs| && |t.jobs| == |s.jobs|
    requires t == s.(jobs := t.jobs, queue := t.queue, table := t.table)
    requires forall i | 0 <= i < |s.jobs| && i != j :: t.jobs[i] == s.jobs[i]
    requires t.queue == s.queue || t.queue == s.queue + multiset{Some(j)}
    requires JobOk(c, t.jobs[j], IsPublishing(s, j)) && Kept(s.jobs[j], t.jobs[j])
    requires t.table == if Tabled(t.jobs[j]) then s.table + {j} else s.table
    requires j in s.table ==> Tabled(t.jobs[j])
    requires Due(t.jobs[j]) ==> Some(j) in t.queue || Notifying(t.jobs[j])
    ensures Inv(c, t)
  {
    forall i | 0 <= i < |t.jobs| && i != j ensures JobOk(c, t.jobs[i], IsPublishing(t, i)) {
      assert JobOk(c, s.jobs[i], IsPublishing(s, i));
    }
    assert UpdaterOk(c, t);
    if !t.shutdown {
      forall i | 0 <= i < |t.jobs| && Due(t.jobs[i]) ensures Awake(t, i) {
        if i != j { assert Awake(s, i); }
      }
    }
  }

  lemma ClientKeeps(c: Config, s: State, t: State, e: Event)
    requires Inv(c, s) && IsClientEvent(e) && e.j < |s.jobs| && ClientEnabled(c, s.jobs[e.j], false, e)
    requires t == s.(jobs := s.jobs[e.j := ClientNext(c, s.jobs[e.j], e)],
                     queue := if Notifies(e) then s.queue + multiset{Some(e.j)} else s.queue,
                     table := if e.Insert? then s.table + {e.j} else s.table)
    ensures Inv(c, t)
  {
    assert JobOk(c, s.jobs[e.j], IsPublishing(s, e.j));
    ClientKeepsJob(c, s.jobs[e.j], IsPublishing(s, e.j), e);
    ClientKept(c, s.jobs[e.j], IsPublishing(s, e.j), e);
    OneJobChanged(c, s, t, e.j);
  }

  lemma ClientStep(c: Config, s: State, e: Event)
    requires Inv(c, s) && Enabled(c, s, e) && IsClientEvent(e)
    ensures Inv(c, Next(c, s, e))
  {
    ClientKeeps(c, s, Next(c, s, e), e);
  }

  lemma CallKeeps(c: Config, s: State, t: State, j: JobId, k: nat, call: Call)
    requires Inv(c, s) && j < |s.jobs| && k < |s.jobs[j].calls|
    requires t == s.(jobs := s.jobs[j := s.jobs[j].(calls := s.jobs[j].calls[k := call])], queue := t.queue)
    requires || (s.jobs[j].calls[k].Running? && call.Answered? && t.queue == s.queue)
             || (&& s.jobs[j].calls[k].Answered? && call == Notified(s.jobs[j].calls[k].answer)
                 && t.queue == s.queue + multiset{Some(j)})
    ensures Inv(c, t)
  {
    var job := s.jobs[j];
    assert JobOk(c, job, IsPublishing(s, j));
    CallKeepsJob(c, job, IsPublishing(s, j), k, call);
    ReductionKept(job.calls, job.calls[k := call], k, Registered(job));
    if call.Answered? { assert t.jobs[j].calls[k].Answered?; }
    OneJobChanged(c, s, t, j);
  }

  lemma CallStep(c: Config, s: State, e: Event)
    requires Inv(c, s) && Enabled(c, s, e) && IsCallEvent(e)
    ensures Inv(c, Next(c, s, e))
  {
    CallKeeps(c, s, Next(c, s, e), e.j, e.k,
              if e.GiveAnswer? then Answered(e.answer) else Notified(s.jobs[e.j].calls[e.k].answer));
  }

  // The update thread's steps that leave every job alone.
  lemma JobsUntouched(c: Config, s: State, t: State)
    requires JobsOk(c, s) && WakeOk(s)
    requires t.jobs == s.jobs && t.table == s.table && t.shutdown == s.shutdown
    requires forall j: nat :: IsPublishing(s, j) <==> IsPublishing(t, j)
    requires forall j | 0 <= j < |s.jobs| :: Due(s.jobs[j]) && Pending(s, j) && !s.shutdown ==> Pending(t, j)
    ensures JobsOk(c, t) && WakeOk(t)
  {
    forall j | 0 <= j < |t.jobs| ensures JobOk(c, t.jobs[j], IsPublishing(t, j)) {
      assert JobOk(c, s.jobs[j], IsPublishing(s, j));
    }
    if !t.shutdown {
      forall j | 0 <= j < |t.jobs| && Due(t.jobs[j]) ensures Awake(t, j) {
        assert Due(s.jobs[j]) && Awake(s, j);
      }
    }
  }

  lemma DequeueStep(c: Config, s: State, e: Event)
    requires Inv(c, s) && Enabled(c, s, e) && e.Dequeue?
    ensures Inv(c, Next(c, s, e))
  {
    var t := Next(c, s, e);
    forall x | x in s.queue ensures x in t.queue || x in e.infos {
      if x !in t.queue { assert x in multiset(e.infos); }
    }
    if None in e.infos { assert None in multiset(e.infos); }
    JobsUntouched(c, s, t);
  }

  lemma ScanStep(c: Config, s: State, e: Event)
    requires Inv(c, s) && Enabled(c, s, e) && e.Scan?
    ensures Inv(c, Next(c, s, e))
  {
    var t := Next(c, s, e);
    var infos := s.update.infos;
    assert infos[0] in infos && infos == [infos[0]] + infos[1..];
    JobsUntouched(c, s, t);
  }

  lemma ControlStep(c: Config, s: State, e: Event)
    requires Inv(c, s) && Enabled(c, s, e) && (e.TestShutdown? || e.EndScan? || e.TestAdding? || e.EndUpdate? || e.Loop?)
    ensures Inv(c, Next(c, s, e))
  {
    ControlKeeps(c, s, Next(c, s, e));
  }

  lemma ControlKeeps(c: Config, s: State, t: State)
    requires Inv(c, s) && t == s.(update := t.update)
    requires match s.update
             case Dequeued(infos) => s.shutdown || (infos == [] && t.update.Looping?) || t.update == Scanning(infos, {})
             case Scanning(infos, todo) => infos == [] && t.update == Updating(todo)
             case Updating(todo) =>
               || (todo == {} && t.update.Looping?)
               || exists j: nat | j in todo && j < |s.jobs| ::
                    t.update == if s.jobs[j].addingComplete then Checked(j, todo - {j}) else Updating(todo - {j})
             case Looping => s.shutdown || t.update.Waiting?
             case _ => false
    requires s.shutdown && (s.update.Dequeued? || s.update.Looping?) ==> t.update.Exited?
    ensures Inv(c, t)
  {
    JobsUntouched(c, s, t);
  }

  lemma ReduceOutcome(c: Config, job: Job, order: seq<nat>)
    requires AllReady(job) && Enumerates(order, Registered(job))
    ensures forall k | k in order :: k < |job.calls| && job.calls[k].Ready()
    ensures IsReduction(Answers(job.calls), Registered(job), Aggregate(Select(Answers(job.calls), order)))
  {
    BagIsOrderIndependent(Answers(job.calls), order, Registered(job));
    SuccessIsOrderIndependent(Answers(job.calls), order, Registered(job));
  }

  lemma ReduceKeeps(c: Config, s: State, t: State, order: seq<nat>)
    requires Inv(c, s) && s.update.Checked? && s.update.job < |s.jobs| && Enumerates(order, Registered(s.jobs[s.update.job]))
    requires t == s.(update := t.update)
    requires var job := s.jobs[s.update.job];
             t.update == if job.alreadyProcessed || !AllReady(job) then Updating(s.update.todo)
                         else Reduced(s.update.job, s.update.todo, Aggregate(Select(Answers(job.calls), order)))
    ensures Inv(c, t)
  {
    var job := s.jobs[s.update.job];
    if !job.alreadyProcessed && AllReady(job) {
      ReduceOutcome(c, job, order);
    }
    JobsUntouched(c, s, t);
  }

  lemma ReduceStep(c: Config, s: State, e: Event)
    requires Inv(c, s) && Enabled(c, s, e) && e.Reduce?
    ensures Inv(c, Next(c, s, e))
  {
    ReduceKeeps(c, s, Next(c, s, e), e.order);
  }

  lemma SameTable(c: Config, a: Job, b: Job)
    requires a.client == b.client && a.results == b.results && a.refused == b.refused && a.calls == b.calls
    requires TableOk(c, a) && CallsOk(c, a)
    ensures TableOk(c, b) && CallsOk(c, b)
  {
    assert Decided(c, a) == Decided(c, b) && Passed(c, a) == Passed(c, b);
    forall k | 0 <= k < Decided(c, b) ensures k < |c.executors| && (k !in b.refused ==> c.executors[k] in b.results) {
    }
  }

  lemma PublishKeepsJob(c: Config, job: Job, outcome: Outcome)
    requires JobOk(c, job, false) && job.addingComplete && !job.alreadyProcessed
    requires IsReduction(Answers(job.calls), Registered(job), outcome)
    ensures JobOk(c, job.(promise := job.promise + [outcome]), true)
  {
    SameTable(c, job, job.(promise := job.promise + [outcome]));
  }

  lemma MarkKeepsJob(c: Config, job: Job)
    requires JobOk(c, job, true) && !job.alreadyProcessed
    ensures JobOk(c, job.(alreadyProcessed := true), false)
  {
    SameTable(c, job, job.(alreadyProcessed := true));
  }

  lemma PublishedKeeps(c: Config, s: State, j: JobId, published: Job, t: State)
    requires Inv(c, s) && s.update.Reduced? && j == s.update.job < |s.jobs|
    requires published == s.jobs[j].(promise := published.promise) && JobOk(c, published, true) && |published.promise| == 1
    requires t == s.(update := Published(j, s.update.todo), jobs := s.jobs[j := published])
    ensures Inv(c, t)
  {
    OneJobPublished(c, s, t, j);
  }

  lemma PublishStep(c: Config, s: State, e: Event)
    requires Inv(c, s) && Enabled(c, s, e) && e.Publish?
    ensures Inv(c, Next(c, s, e))
  {
    var j, job := s.update.job, s.jobs[s.update.job];
    var published := job.(promise := job.promise + [s.update.outcome]);
    var t := s.(update := Published(j, s.update.todo), jobs := s.jobs[j := published]);
    assert JobOk(c, job, false);
    PublishKeepsJob(c, job, s.update.outcome);
    PublishedKeeps(c, s, j, published, t);
    assert t == UpdaterNext(c, s, e);
  }

  lemma MarkStep(c: Config, s: State, e: Event)
    requires Inv(c, s) && Enabled(c, s, e) && e.MarkProcessed?
    ensures Inv(c, Next(c, s, e))
  {
    var j, job := s.update.job, s.jobs[s.update.job];
    assert JobOk(c, job, true);
    MarkKeepsJob(c, job);
    OneJobPublished(c, s, Next(c, s, e), j);
  }

  lemma OneJobPublished(c: Config, s: State, t: State, j: JobId)
    requires JobsOk(c, s) && WakeOk(s) && j < |s.jobs|
    requires t == s.(jobs := t.jobs, update := t.update) && |t.jobs| == |s.jobs|
    requires forall i | 0 <= i < |s.jobs| && i != j :: t.jobs[i] == s.jobs[i] && IsPublishing(t, i) == IsPublishing(s, i)
    requires JobOk(c, t.jobs[j], IsPublishing(t, j)) && t.jobs[j].client == s.jobs[j].client
    requires Due(t.jobs[j]) ==> InHand(t.update, j)
    requires Batch(t.update) == Batch(s.update) && Todo(t.update) == Todo(s.update)
    requires forall i: nat | i != j :: InHand(s.update, i) <==> InHand(t.update, i)
    ensures JobsOk(c, t) && WakeOk(t)
  {
    forall i | 0 <= i < |t.jobs| && i != j ensures JobOk(c, t.jobs[i], IsPublishing(t, i)) {
      assert JobOk(c, s.jobs[i], IsPublishing(s, i));
    }
    if !t.shutdown {
      forall i | 0 <= i < |t.jobs| && i != j && Due(t.jobs[i]) ensures Awake(t, i) {
        assert Due(s.jobs[i]) && Awake(s, i);
      }
    }
  }

  // Every action of every thread keeps the invariant.
  lemma StepInv(c: Config, s: State, e: Event)
    requires Inv(c, s) && Enabled(c, s, e)
    ensures Inv(c, Next(c, s, e))
  {
    if IsClientEvent(e) { ClientStep(c, s, e); }
    else if IsCallEvent(e) { CallStep(c, s, e); }
    else if e.Dequeue? { DequeueStep(c, s, e); }
    else if e.Scan? { ScanStep(c, s, e); }
    else if e.Reduce? { ReduceStep(c, s, e); }
    else if e.Publish? { PublishStep(c, s, e); }
    else if e.MarkProcessed? { MarkStep(c, s, e); }
    else if e.StoreShutdown? || e.NotifyShutdown? { ShutdownStep(c, s, e); }
    else { ControlStep(c, s, e); }
  }

  lemma ShutdownStep(c: Config, s: State, e: Event)
    requires Inv(c, s) && Enabled(c, s, e) && (e.StoreShutdown? || e.NotifyShutdown?)
    ensures Inv(c, Next(c, s, e))
  {
  }
}
