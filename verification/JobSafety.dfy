/** The safety results of the job protocol, over every run. */
module JobSafety {
  import opened Wrappers
  import opened Jobs
  import opened JobProtocol
  import opened JobInvariant

  lemma {:induction false} RunInv(c: Config, s: State, events: seq<Event>)
    requires Inv(c, s) && Run(c, s, events).Some?
    ensures Inv(c, Run(c, s, events).value)
    decreases |events|
  {
    if events != [] {
      StepInv(c, s, events[0]);
      RunInv(c, Next(c, s, events[0]), events[1..]);
    }
  }

  lemma ReachableInv(c: Config, s: State)
    requires Reachable(c, s)
    ensures Inv(c, s)
  {
    var s0, events :| Init(c, s0) && Run(c, s0, events) == Some(s);
    InitInv(c, s0);
    RunInv(c, s0, events);
  }

  // A job whose adding is complete and whose registered executors have all answered is never forgotten.
  lemma NoLostWakeup(c: Config, s: State, j: JobId)
    requires Reachable(c, s) && !s.shutdown && j < |s.jobs|
    requires s.jobs[j].addingComplete && AllReady(s.jobs[j]) && !s.jobs[j].alreadyProcessed
    ensures || Some(j) in s.queue
            || Some(j) in Batch(s.update)
            || j in Todo(s.update)
            || InHand(s.update, j)
            || s.jobs[j].client.Announcing?
            || exists k | 0 <= k < |s.jobs[j].calls| :: s.jobs[j].calls[k].Answered?
  {
    ReachableInv(c, s);
    assert Awake(s, j);
  }

  lemma ClientKeepsPromises(c: Config, job: Job, e: Event)
    requires IsClientEvent(e) && ClientEnabled(c, job, false, e)
    ensures job.promise <= ClientNext(c, job, e).promise
  {
  }

  lemma UpdaterKeepsPromises(c: Config, s: State, e: Event, j: JobId)
    requires Enabled(c, s, e) && IsUpdaterEvent(e) && j < |s.jobs|
    ensures |UpdaterNext(c, s, e).jobs| == |s.jobs| && s.jobs[j].promise <= UpdaterNext(c, s, e).jobs[j].promise
  {
    if !e.Publish? && !e.MarkProcessed? { assert UpdaterNext(c, s, e).jobs == s.jobs; }
  }

  lemma StepKeepsPromises(c: Config, s: State, e: Event, j: JobId)
    requires Enabled(c, s, e) && j < |s.jobs|
    ensures |Next(c, s, e).jobs| == |s.jobs| && s.jobs[j].promise <= Next(c, s, e).jobs[j].promise
  {
    if IsClientEvent(e) { ClientKeepsPromises(c, s.jobs[e.j], e); }
    else if IsUpdaterEvent(e) { UpdaterKeepsPromises(c, s, e, j); }
  }

  lemma {:induction false} RunKeepsPromises(c: Config, s: State, events: seq<Event>, j: JobId)
    requires Run(c, s, events).Some? && j < |s.jobs|
    ensures |Run(c, s, events).value.jobs| == |s.jobs|
    ensures s.jobs[j].promise <= Run(c, s, events).value.jobs[j].promise
    decreases |events|
  {
    if events != [] {
      StepKeepsPromises(c, s, events[0], j);
      RunKeepsPromises(c, Next(c, s, events[0]), events[1..], j);
    }
  }

  // A promise is set at most once, and what a client may have read from it stays.
  lemma ExactlyOnceCompletion(c: Config, s: State, events: seq<Event>, j: JobId)
    requires Reachable(c, s) && Run(c, s, events).Some? && j < |s.jobs|
    ensures var t := Run(c, s, events).value;
            |t.jobs| == |s.jobs| && |t.jobs[j].promise| <= 1 &&
            (s.jobs[j].promise != [] ==> t.jobs[j].promise == s.jobs[j].promise)
  {
    ReachableInv(c, s);
    RunInv(c, s, events);
    RunKeepsPromises(c, s, events, j);
    assert JobOk(c, s.jobs[j], IsPublishing(s, j));
    var t := Run(c, s, events).value;
    assert JobOk(c, t.jobs[j], IsPublishing(t, j));
  }

  // A tracker that failed to start is unknown to the update thread; only such a tracker holds a failure.
  lemma FailedJobsAreUnreachable(c: Config, s: State, j: JobId)
    requires Reachable(c, s) && j < |s.jobs| && s.jobs[j].promise != []
    ensures j in s.table <==> s.jobs[j].promise[0].Completed?
    ensures j !in s.table <==> Failing(s.jobs[j])
  {
    ReachableInv(c, s);
    assert JobOk(c, s.jobs[j], IsPublishing(s, j));
  }

  // Exactly these futures end up in the tracker's table: the first insertion for each instance that did not throw.
  ghost function FirstOfInstance(c: Config, refused: set<nat>): set<nat> {
    set k: nat | k < |c.executors| && k !in refused &&
                 forall i | 0 <= i < k :: c.executors[i] == c.executors[k] ==> i in refused
  }

  ghost predicate CoversEveryone(c: Config, refused: set<nat>) {
    forall k: nat | k < |c.executors| :: k in FirstOfInstance(c, refused)
  }

  ghost predicate DistinctInstances(c: Config) {
    forall i, k | 0 <= i < k < |c.executors| :: c.executors[i] != c.executors[k]
  }

  lemma RegisteredExactly(c: Config, job: Job)
    requires JobOk(c, job, false) || JobOk(c, job, true)
    requires job.addingComplete
    ensures Registered(job) == FirstOfInstance(c, job.refused)
  {
    forall k | k in FirstOfInstance(c, job.refused) ensures k in Registered(job) {
      var x := c.executors[k];
      assert x in job.results;
      var i := job.results[x];
      assert c.executors[i] == x && i == k;
    }
  }

  // A job in the table is completed only with the reduction of the answers of every executor whose future the tracker
  // holds, all of them having answered and none being added any more.
  lemma RegisteredAreReduced(c: Config, s: State, j: JobId)
    requires Reachable(c, s) && j in s.table && j < |s.jobs| && s.jobs[j].promise != []
    ensures s.jobs[j].addingComplete && AllReady(s.jobs[j])
    ensures IsReduction(Answers(s.jobs[j].calls), FirstOfInstance(c, s.jobs[j].refused), s.jobs[j].promise[0])
  {
    ReachableInv(c, s);
    var job := s.jobs[j];
    assert JobOk(c, job, IsPublishing(s, j));
    RegisteredExactly(c, job);
    forall x | x in job.results ensures job.results[x] < |job.calls| && job.calls[job.results[x]].Ready() {
      assert job.results[x] in Registered(job);
    }
  }

  // No executor's answer is missing exactly when no insertion threw and no two executors share an instance.
  lemma CoversEveryoneIff(c: Config, s: State, j: JobId)
    requires Reachable(c, s) && j < |s.jobs| && s.jobs[j].addingComplete
    ensures CoversEveryone(c, s.jobs[j].refused) <==> s.jobs[j].refused == {} && DistinctInstances(c)
  {
    ReachableInv(c, s);
    var refused := s.jobs[j].refused;
    assert JobOk(c, s.jobs[j], IsPublishing(s, j));
    assert forall k | k in refused :: k < |c.executors| && k !in FirstOfInstance(c, refused);
    if CoversEveryone(c, refused) {
      assert refused == {};
      forall i, k | 0 <= i < k < |c.executors| ensures c.executors[i] != c.executors[k] {
        assert k in FirstOfInstance(c, refused);
      }
    }
  }

  lemma {:induction false} RunFurther(c: Config, s: State, events: seq<Event>, e: Event)
    requires Run(c, s, events).Some? && Enabled(c, Run(c, s, events).value, e)
    ensures Run(c, s, events + [e]) == Some(Next(c, Run(c, s, events).value, e))
    decreases |events|
  {
    if events == [] {
      assert Run(c, Next(c, s, e), []) == Some(Next(c, s, e));
      assert ([e])[1..] == [];
    } else {
      assert (events + [e])[1..] == events[1..] + [e];
      RunFurther(c, Next(c, s, events[0]), events[1..], e);
    }
  }

  lemma ReachFurther(c: Config, s: State, e: Event, t: State)
    requires Reachable(c, s) && Enabled(c, s, e) && Next(c, s, e) == t
    ensures Reachable(c, t)
  {
    var s0, events :| Init(c, s0) && Run(c, s0, events) == Some(s);
    RunFurther(c, s0, events, e);
  }

  lemma ReachByClient(c: Config, s: State, e: Event, t: State)
    requires Reachable(c, s) && IsClientEvent(e) && e.j < |s.jobs| && ClientEnabled(c, s.jobs[e.j], s.update.Scanning?, e)
    requires t == s.(jobs := s.jobs[e.j := ClientNext(c, s.jobs[e.j], e)],
                     queue := if Notifies(e) then s.queue + multiset{Some(e.j)} else s.queue,
                     table := if e.Insert? then s.table + {e.j} else s.table)
    ensures Reachable(c, t)
  {
    ReachFurther(c, s, e, t);
  }

  lemma ReachByUpdater(c: Config, s: State, e: Event, t: State)
    requires Reachable(c, s) && IsUpdaterEvent(e) && Enabled(c, s, e) && t == UpdaterNext(c, s, e)
    ensures Reachable(c, t)
  {
    ReachFurther(c, s, e, t);
  }

  // One client, one executor whose insertion into the table throws.
  lemma RefusingClient(c: Config) returns (s: State)
    requires c == Config([7])
    ensures s == State([Job(Registering(1), map[], [NotStarted], {0}, false, false, [])], {0}, multiset{}, false, false, Waiting)
    ensures Reachable(c, s)
  {
    var job := Job(Idle, map[], [NotStarted], {}, false, false, []);
    var s0 := State([job], {}, multiset{}, false, false, Waiting);
    assert Init(c, s0) && Run(c, s0, []) == Some(s0);
    var s1 := s0.(jobs := [job.(client := Inserting)]);
    ReachByClient(c, s0, StartQuery(0), s1);
    var s2 := s1.(jobs := [job.(client := Registering(0))], table := {0});
    ReachByClient(c, s1, Insert(0), s2);
    assert {} + {0} == {0};
    s := s2.(jobs := [job.(client := Registering(1), refused := {0})]);
    ReachByClient(c, s2, RegisterThrows(0), s);
  }

  lemma ClientFinishes(c: Config, s: State) returns (t: State)
    requires Reachable(c, s) && |s.jobs| == 1 && s.jobs == [s.jobs[0]] && s.jobs[0].client == Registering(|c.executors|)
    ensures t == s.(jobs := [s.jobs[0].(client := Returned, addingComplete := true)], queue := s.queue + multiset{Some(0)})
    ensures Reachable(c, t)
  {
    var s1 := s.(jobs := [s.jobs[0].(client := Announcing, addingComplete := true)]);
    ReachByClient(c, s, CompleteAdding(0), s1);
    t := s1.(jobs := [s1.jobs[0].(client := Returned)], queue := s.queue + multiset{Some(0)});
    ReachByClient(c, s1, NotifyComplete(0), t);
  }

  lemma UpdaterDequeues(c: Config, s: State) returns (t: State)
    requires Reachable(c, s) && s.queue == multiset{Some(0)} && s.update.Waiting? && !s.shutdown
    ensures Reachable(c, t) && t == s.(queue := multiset{}, update := Scanning([Some(0)], {}))
  {
    var s1 := s.(queue := multiset{}, update := Dequeued([Some(0)]));
    ReachByUpdater(c, s, Dequeue([Some(0)]), s1);
    t := s1.(update := Scanning([Some(0)], {}));
    ReachByUpdater(c, s1, TestShutdown, t);
  }

  lemma UpdaterScans(c: Config, s: State) returns (t: State)
    requires Reachable(c, s) && |s.jobs| == 1 && s.table == {0} && s.update == Scanning([Some(0)], {}) && AllReady(s.jobs[0])
    ensures Reachable(c, t) && t == s.(update := Scanning([], {0}))
  {
    assert [Some(0)][1..] == [] && {} + {0} == {0};
    t := s.(update := Scanning([], {0}));
    ReachByUpdater(c, s, Scan, t);
  }

  lemma UpdaterSelects(c: Config, s: State) returns (t: State)
    requires Reachable(c, s) && |s.jobs| == 1 && s.update == Scanning([], {0}) && s.jobs[0].addingComplete
    ensures Reachable(c, t) && t == s.(update := Checked(0, {}))
  {
    assert {0} - {0} == {};
    var s1 := s.(update := Updating({0}));
    ReachByUpdater(c, s, EndScan, s1);
    t := s1.(update := Checked(0, {}));
    ReachByUpdater(c, s1, TestAdding(0), t);
  }

  // When the only executor's insertion throws, that executor is never called and the job still reports success.
  lemma RefusedExecutorGoesUnreported() returns (c: Config, s: State)
    ensures Reachable(c, s) && |c.executors| == |s.jobs| == 1
    ensures s.jobs[0].calls == [NotStarted] && s.jobs[0].promise == [Completed(Succeeded, [])]
  {
    c := Config([7]);
    var s0 := RefusingClient(c);
    assert s0.jobs == [s0.jobs[0]];
    var s1 := ClientFinishes(c, s0);
    assert multiset{} + multiset{Some(0)} == multiset{Some(0)};
    var s2 := UpdaterDequeues(c, s1);
    s2 := UpdaterScans(c, s2);
    var s3 := UpdaterSelects(c, s2);
    s := UpdaterReports(c, s3);
  }

  lemma UpdaterReduces(c: Config, s: State) returns (t: State)
    requires Reachable(c, s) && |s.jobs| == 1 && s.update == Checked(0, {})
    requires s.jobs[0].results == map[] && !s.jobs[0].alreadyProcessed && s.jobs[0].calls == [NotStarted]
    ensures Reachable(c, t) && t == s.(update := Reduced(0, {}, Completed(Succeeded, [])))
  {
    t := s.(update := Reduced(0, {}, Completed(Succeeded, [])));
    assert Select(Answers(s.jobs[0].calls), []) == [];
    ReachByUpdater(c, s, Reduce([]), t);
  }

  lemma UpdaterReports(c: Config, s: State) returns (t: State)
    requires Reachable(c, s) && |s.jobs| == 1 && s.update == Checked(0, {})
    requires var job := s.jobs[0]; job.results == map[] && !job.alreadyProcessed && job.promise == [] && job.calls == [NotStarted]
    ensures Reachable(c, t) && |t.jobs| == 1
    ensures t.jobs[0].calls == [NotStarted] && t.jobs[0].promise == [Completed(Succeeded, [])]
  {
    var s1 := UpdaterReduces(c, s);
    t := s1.(update := Published(0, {}), jobs := s1.jobs[0 := s1.jobs[0].(promise := [Completed(Succeeded, [])])]);
    assert s1.jobs[0].promise + [s1.update.outcome] == [Completed(Succeeded, [])];
    ReachByUpdater(c, s1, Publish, t);
  }

  lemma {:induction false} SeveralSteps(c: Config, s: State, first: seq<Event>, rest: seq<Event>)
    requires Run(c, s, first + rest).Some?
    ensures Run(c, s, first).Some? && Run(c, Run(c, s, first).value, rest) == Run(c, s, first + rest)
    decreases |first|
  {
    if first == [] {
      assert first + rest == rest;
    } else {
      assert (first + rest)[1..] == first[1..] + rest;
      SeveralSteps(c, Next(c, s, first[0]), first[1..], rest);
    }
  }

  // The update thread never hashes a null job: its signal is only in flight once the flag is stored.
  lemma NullSignalImpliesShutdown(c: Config, s: State)
    requires Reachable(c, s)
    ensures None in s.queue || None in Batch(s.update) ==> s.shutdown
    ensures s.update.Scanning? ==> None !in s.update.infos
    ensures !s.update.Crashed?
  {
    ReachableInv(c, s);
  }

  lemma {:induction false} NoLookupOnceDequeued(c: Config, s: State, events: seq<Event>)
    requires s.shutdown && (s.update.Dequeued? || s.update.Exited?) && Run(c, s, events).Some?
    ensures forall i | 0 <= i < |events| :: !events[i].Scan? && !events[i].Dequeue?
    decreases |events|
  {
    if events != [] {
      NoLookupOnceDequeued(c, Next(c, s, events[0]), events[1..]);
      forall i | 0 <= i < |events| ensures !events[i].Scan? && !events[i].Dequeue? {
        if i > 0 { assert events[i] == events[1..][i - 1]; }
      }
    }
  }

  lemma {:induction false} ShutdownStays(c: Config, s: State, events: seq<Event>)
    requires s.shutdown && Run(c, s, events).Some?
    ensures Run(c, s, events).value.shutdown
    decreases |events|
  {
    if events != [] { ShutdownStays(c, Next(c, s, events[0]), events[1..]); }
  }

  // Once the flag is stored the update thread dequeues at most once more, and looks up nothing after that.
  lemma NoLookupAfterNextDequeue(c: Config, s: State, events: seq<Event>, d: nat)
    requires s.shutdown && Run(c, s, events).Some? && d < |events| && events[d].Dequeue?
    ensures forall i | d < i < |events| :: !events[i].Scan? && !events[i].Dequeue?
  {
    var rest := events[d..];
    assert events == events[..d] + rest;
    SeveralSteps(c, s, events[..d], rest);
    ShutdownStays(c, s, events[..d]);
    NoLookupOnceDequeued(c, Next(c, Run(c, s, events[..d]).value, rest[0]), rest[1..]);
    forall i | d < i < |events| ensures !events[i].Scan? && !events[i].Dequeue? {
      assert events[i] == rest[1..][i - d - 1];
    }
  }
}
