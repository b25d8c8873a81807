/** Reports and signals traced back to the events of a run. */
module JobReports {
  import opened Wrappers
  import opened Jobs
  import opened JobProtocol
  import opened JobInvariant
  import opened JobSafety

  // What one event does to one executor's promise.
  predicate Moved(before: Call, after: Call, e: Event, j: JobId, k: nat) {
    if e.GiveAnswer? && e.j == j && e.k == k then !before.Ready() && after.Ready() && after.answer == e.answer
    else before.Ready() == after.Ready() && (before.Ready() ==> after.answer == before.answer)
  }

  lemma CallAnswers(c: Config, s: State, e: Event, j: JobId, k: nat)
    requires Enabled(c, s, e) && IsCallEvent(e) && j < |s.jobs| && k < |s.jobs[j].calls|
    ensures |Next(c, s, e).jobs| == |s.jobs| && |Next(c, s, e).jobs[j].calls| == |s.jobs[j].calls|
    ensures Moved(s.jobs[j].calls[k], Next(c, s, e).jobs[j].calls[k], e, j, k)
  {
  }

  lemma ClientAnswers(c: Config, s: State, e: Event, j: JobId, k: nat, publishing: bool)
    requires Enabled(c, s, e) && IsClientEvent(e) && j < |s.jobs| && k < |s.jobs[j].calls|
    requires JobOk(c, s.jobs[j], publishing)
    ensures |Next(c, s, e).jobs| == |s.jobs| && |Next(c, s, e).jobs[j].calls| == |s.jobs[j].calls|
    ensures Moved(s.jobs[j].calls[k], Next(c, s, e).jobs[j].calls[k], e, j, k)
  {
    if e.j == j { ClientKeepsAnswers(c, s.jobs[j], publishing, e, k); }
  }

  lemma OtherAnswers(c: Config, s: State, e: Event, j: JobId, k: nat)
    requires Enabled(c, s, e) && !IsClientEvent(e) && !IsCallEvent(e) && j < |s.jobs| && k < |s.jobs[j].calls|
    ensures |Next(c, s, e).jobs| == |s.jobs| && |Next(c, s, e).jobs[j].calls| == |s.jobs[j].calls|
    ensures Moved(s.jobs[j].calls[k], Next(c, s, e).jobs[j].calls[k], e, j, k)
  {
    if IsUpdaterEvent(e) { UpdaterKeepsCalls(c, s, e, j); }
  }

  lemma StepAnswers(c: Config, s: State, e: Event, j: JobId, k: nat)
    requires Inv(c, s) && Enabled(c, s, e) && j < |s.jobs| && k < |s.jobs[j].calls|
    ensures |Next(c, s, e).jobs| == |s.jobs| && |Next(c, s, e).jobs[j].calls| == |s.jobs[j].calls|
    ensures Moved(s.jobs[j].calls[k], Next(c, s, e).jobs[j].calls[k], e, j, k)
  {
    assert JobOk(c, s.jobs[j], IsPublishing(s, j));
    if IsClientEvent(e) { ClientAnswers(c, s, e, j, k, IsPublishing(s, j)); }
    else if IsCallEvent(e) { CallAnswers(c, s, e, j, k); }
    else { OtherAnswers(c, s, e, j, k); }
  }

  lemma ClientKeepsAnswers(c: Config, job: Job, publishing: bool, e: Event, k: nat)
    requires JobOk(c, job, publishing) && IsClientEvent(e) && ClientEnabled(c, job, false, e) && k < |job.calls|
    ensures |ClientNext(c, job, e).calls| == |job.calls|
    ensures ClientNext(c, job, e).calls[k] == job.calls[k]
            || (!job.calls[k].Ready() && !ClientNext(c, job, e).calls[k].Ready())
  {
  }

  lemma UpdaterKeepsCalls(c: Config, s: State, e: Event, j: JobId)
    requires Enabled(c, s, e) && IsUpdaterEvent(e) && j < |s.jobs|
    ensures |UpdaterNext(c, s, e).jobs| == |s.jobs| && UpdaterNext(c, s, e).jobs[j].calls == s.jobs[j].calls
  {
    if !e.Publish? && !e.MarkProcessed? { assert UpdaterNext(c, s, e).jobs == s.jobs; }
  }

  // A run makes a promise ready with the answer given in it, and an answer is given only once.
  lemma {:induction false} RunAnswers(c: Config, s: State, events: seq<Event>, j: JobId, k: nat)
    requires Inv(c, s) && Run(c, s, events).Some? && j < |s.jobs| && k < |s.jobs[j].calls|
    ensures var t := Run(c, s, events).value;
            && |t.jobs| == |s.jobs| && |t.jobs[j].calls| == |s.jobs[j].calls|
            && GivenBetween(s.jobs[j].calls[k], t.jobs[j].calls[k], events, j, k)
    decreases |events|
  {
    if events != [] {
      StepAnswers(c, s, events[0], j, k);
      StepInv(c, s, events[0]);
      var next := Next(c, s, events[0]);
      RunAnswers(c, next, events[1..], j, k);
      GivenBefore(s.jobs[j].calls[k], next.jobs[j].calls[k], Run(c, s, events).value.jobs[j].calls[k], events, j, k);
    }
  }

  // A promise that becomes ready holds the answer given in these events, and one that was ready stays as it is.
  ghost predicate GivenBetween(before: Call, after: Call, events: seq<Event>, j: JobId, k: nat) {
    && (before.Ready() ==> after.Ready() && after.answer == before.answer)
    && forall a :: GiveAnswer(j, k, a) in events <==> !before.Ready() && after.Ready() && after.answer == a
  }

  lemma GivenBefore(before: Call, next: Call, after: Call, events: seq<Event>, j: JobId, k: nat)
    requires events != [] && Moved(before, next, events[0], j, k) && GivenBetween(next, after, events[1..], j, k)
    ensures GivenBetween(before, after, events, j, k)
  {
    assert events == [events[0]] + events[1..];
  }

  /** In every run, an executor's promise holds an answer exactly if the executor gave this answer. */
  lemma AnswersAreThoseGiven(c: Config, s0: State, events: seq<Event>, s: State, j: JobId, k: nat)
    requires Init(c, s0) && Run(c, s0, events) == Some(s) && j < |s.jobs| && k < |c.executors|
    ensures k < |s.jobs[j].calls|
    ensures forall a :: GiveAnswer(j, k, a) in events <==> s.jobs[j].calls[k].Ready() && s.jobs[j].calls[k].answer == a
  {
    RunKeepsJobs(c, s0, events);
    assert Fresh(c, s0.jobs[j]);
    InitInv(c, s0);
    RunAnswers(c, s0, events, j, k);
  }

  lemma {:induction false} RunKeepsJobs(c: Config, s: State, events: seq<Event>)
    requires Run(c, s, events).Some?
    ensures |Run(c, s, events).value.jobs| == |s.jobs|
    decreases |events|
  {
    if events != [] {
      NextKeepsJobs(c, s, events[0]);
      RunKeepsJobs(c, Next(c, s, events[0]), events[1..]);
    }
  }

  lemma NextKeepsJobs(c: Config, s: State, e: Event)
    requires Enabled(c, s, e)
    ensures |Next(c, s, e).jobs| == |s.jobs|
  {
    if IsUpdaterEvent(e) && s.jobs != [] { UpdaterKeepsCalls(c, s, e, 0); }
  }

  // What one event does to the job table and to the executors that were left out.
  predicate Recorded(before: Job, after: Job, wasTabled: bool, tabled: bool, e: Event, j: JobId) {
    && (tabled <==> wasTabled || e == Insert(j))
    && (if e == RegisterThrows(j) then after.refused != {} else after.refused == before.refused)
  }

  lemma StepRecords(c: Config, s: State, e: Event, j: JobId)
    requires Enabled(c, s, e) && j < |s.jobs|
    ensures |Next(c, s, e).jobs| == |s.jobs|
    ensures Recorded(s.jobs[j], Next(c, s, e).jobs[j], j in s.table, j in Next(c, s, e).table, e, j)
  {
    if IsClientEvent(e) { ClientStepRecords(c, s, e, j); }
    else if IsUpdaterEvent(e) { UpdaterStepRecords(c, s, e, j); }
    else { OtherStepRecords(c, s, e, j); }
  }

  lemma ClientStepRecords(c: Config, s: State, e: Event, j: JobId)
    requires Enabled(c, s, e) && IsClientEvent(e) && j < |s.jobs|
    ensures |Next(c, s, e).jobs| == |s.jobs|
    ensures Recorded(s.jobs[j], Next(c, s, e).jobs[j], j in s.table, j in Next(c, s, e).table, e, j)
  {
    ClientChangeRecords(c, s, Next(c, s, e), e, j);
  }

  lemma ClientChangeRecords(c: Config, s: State, t: State, e: Event, j: JobId)
    requires IsClientEvent(e) && e.j < |s.jobs| && ClientEnabled(c, s.jobs[e.j], false, e) && j < |s.jobs|
    requires t.jobs == s.jobs[e.j := ClientNext(c, s.jobs[e.j], e)]
    requires t.table == if e.Insert? then s.table + {e.j} else s.table
    ensures Recorded(s.jobs[j], t.jobs[j], j in s.table, j in t.table, e, j)
  {
    ClientRecords(c, s.jobs[e.j], e);
  }

  lemma UpdaterStepRecords(c: Config, s: State, e: Event, j: JobId)
    requires Enabled(c, s, e) && IsUpdaterEvent(e) && j < |s.jobs|
    ensures |Next(c, s, e).jobs| == |s.jobs|
    ensures Recorded(s.jobs[j], Next(c, s, e).jobs[j], j in s.table, j in Next(c, s, e).table, e, j)
  {
    UpdaterRecordsNothing(c, s, e, j);
  }

  lemma OtherStepRecords(c: Config, s: State, e: Event, j: JobId)
    requires Enabled(c, s, e) && !IsClientEvent(e) && !IsUpdaterEvent(e) && j < |s.jobs|
    ensures |Next(c, s, e).jobs| == |s.jobs|
    ensures Recorded(s.jobs[j], Next(c, s, e).jobs[j], j in s.table, j in Next(c, s, e).table, e, j)
  {
  }

  lemma ClientRecords(c: Config, job: Job, e: Event)
    requires IsClientEvent(e) && ClientEnabled(c, job, false, e)
    ensures if e.RegisterThrows? then ClientNext(c, job, e).refused != {} else ClientNext(c, job, e).refused == job.refused
  {
  }

  lemma UpdaterRecordsNothing(c: Config, s: State, e: Event, j: JobId)
    requires Enabled(c, s, e) && IsUpdaterEvent(e) && j < |s.jobs|
    ensures |UpdaterNext(c, s, e).jobs| == |s.jobs| && UpdaterNext(c, s, e).table == s.table
    ensures UpdaterNext(c, s, e).jobs[j].refused == s.jobs[j].refused
  {
    if !e.Publish? && !e.MarkProcessed? { assert UpdaterNext(c, s, e).jobs == s.jobs; }
  }

  lemma {:induction false} RunRecords(c: Config, s: State, events: seq<Event>, j: JobId)
    requires Run(c, s, events).Some? && j < |s.jobs|
    ensures var t := Run(c, s, events).value;
            && |t.jobs| == |s.jobs|
            && (j in t.table <==> j in s.table || Insert(j) in events)
            && (t.jobs[j].refused == {} <==> s.jobs[j].refused == {} && RegisterThrows(j) !in events)
    decreases |events|
  {
    if events != [] {
      StepRecords(c, s, events[0], j);
      RunRecords(c, Next(c, s, events[0]), events[1..], j);
      assert events == [events[0]] + events[1..];
    }
  }

  // The answers behind a reduction, by executor.
  lemma SameScores(calls: seq<Call>, chosen: set<nat>, outcome: Outcome) returns (given: map<nat, Answer>)
    requires IsReduction(Answers(calls), chosen, outcome)
    ensures forall k | k in chosen :: k < |calls| && calls[k].Ready()
    ensures outcome.Completed? && given.Keys == chosen && forall k | k in given :: given[k] == calls[k].answer
    ensures forall x ::
              multiset(outcome.scores)[x] ==
              |set k: nat, i: nat | k in given && given[k].scores.Some? && i < |given[k].scores.value|
                && given[k].scores.value[i] == x :: (k, i)|
    ensures outcome.completion ==
              if forall k | k in given :: given[k].completion == Succeeded then Succeeded else SucceededPartially
  {
    var answers := Answers(calls);
    assert forall k | k in chosen :: answers[k].Some? && answers[k].value == calls[k].answer;
    EveryScoreIsReported(answers, chosen, outcome);
    given := map k: nat | k in chosen && k < |calls| && calls[k].Ready() :: calls[k].answer;
    forall x ensures multiset(outcome.scores)[x] ==
      |set k: nat, i: nat | k in given && given[k].scores.Some? && i < |given[k].scores.value|
        && given[k].scores.value[i] == x :: (k, i)|
    {
      assert Spots(answers, chosen, |answers|, x) ==
        set k: nat, i: nat | k in given && given[k].scores.Some? && i < |given[k].scores.value|
          && given[k].scores.value[i] == x :: (k, i);
    }
  }

  lemma AllAnswersAreThoseGiven(c: Config, s0: State, events: seq<Event>, s: State, j: JobId)
    requires Init(c, s0) && Run(c, s0, events) == Some(s) && j < |s.jobs| && |s.jobs[j].calls| == |c.executors|
    ensures forall k, a | 0 <= k < |c.executors| ::
              GiveAnswer(j, k, a) in events <==> s.jobs[j].calls[k].Ready() && s.jobs[j].calls[k].answer == a
  {
    forall k, a | 0 <= k < |c.executors|
      ensures GiveAnswer(j, k, a) in events <==> s.jobs[j].calls[k].Ready() && s.jobs[j].calls[k].answer == a
    {
      AnswersAreThoseGiven(c, s0, events, s, j, k);
    }
  }

  lemma TabledInRun(c: Config, s0: State, events: seq<Event>, s: State, j: JobId)
    requires Init(c, s0) && Run(c, s0, events) == Some(s) && j < |s.jobs|
    requires Insert(j) in events && s.jobs[j].promise != []
    ensures s.jobs[j].addingComplete && |s.jobs[j].promise| == 1 && |s.jobs[j].calls| == |c.executors|
    ensures IsReduction(Answers(s.jobs[j].calls), FirstOfInstance(c, s.jobs[j].refused), s.jobs[j].promise[0])
  {
    RunKeepsJobs(c, s0, events);
    RunRecords(c, s0, events, j);
    RegisteredAreReduced(c, s, j);
    ReachableInv(c, s);
    assert JobOk(c, s.jobs[j], IsPublishing(s, j));
  }

  /** Completeness, for every run: the report of a job in the table is made from exactly one answer of each executor that
      is the first of its instance whose insertion did not throw, and this answer is the one that the executor gave in the
      run. Each score is reported as often as it stands in these answers, and full success exactly if all of them are. */
  lemma CompletenessAtCompletion(c: Config, s0: State, events: seq<Event>, s: State, j: JobId)
    returns (given: map<nat, Answer>)
    requires Init(c, s0) && Run(c, s0, events) == Some(s) && j < |s.jobs|
    requires Insert(j) in events && s.jobs[j].promise != []
    ensures s.jobs[j].addingComplete && |s.jobs[j].promise| == 1 && s.jobs[j].promise[0].Completed?
    ensures var refused := s.jobs[j].refused;
            forall k: nat :: k in given <==>
              k < |c.executors| && k !in refused && forall i | 0 <= i < k :: c.executors[i] == c.executors[k] ==> i in refused
    ensures forall k, a | k in given :: GiveAnswer(j, k, a) in events <==> a == given[k]
    ensures s.jobs[j].promise[0].completion ==
              if forall k | k in given :: given[k].completion == Succeeded then Succeeded else SucceededPartially
    ensures forall x ::
              multiset(s.jobs[j].promise[0].scores)[x] ==
              |set k: nat, i: nat | k in given && given[k].scores.Some? && i < |given[k].scores.value|
                && given[k].scores.value[i] == x :: (k, i)|
  {
    TabledInRun(c, s0, events, s, j);
    AllAnswersAreThoseGiven(c, s0, events, s, j);
    var job := s.jobs[j];
    var chosen := FirstOfInstance(c, job.refused);
    given := SameScores(job.calls, chosen, job.promise[0]);
  }

  /** With distinct instances and no failed insertion the client gets the scores of every executor's answer, as often as
      they were given, and full success exactly if every executor gave it. */
  lemma EveryoneIsReported(c: Config, s0: State, events: seq<Event>, s: State, j: JobId) returns (given: seq<Answer>)
    requires Init(c, s0) && Run(c, s0, events) == Some(s) && j < |s.jobs|
    requires Insert(j) in events && s.jobs[j].promise != []
    requires RegisterThrows(j) !in events && forall i, k | 0 <= i < k < |c.executors| :: c.executors[i] != c.executors[k]
    ensures |given| == |c.executors|
    ensures forall k, a | 0 <= k < |given| :: GiveAnswer(j, k, a) in events <==> a == given[k]
    ensures |s.jobs[j].promise| == 1 && s.jobs[j].promise[0].Completed?
    ensures s.jobs[j].promise[0].completion == Succeeded <==> forall k | 0 <= k < |given| :: given[k].completion == Succeeded
    ensures forall x ::
              multiset(s.jobs[j].promise[0].scores)[x] ==
              |set k: nat, i: nat | k < |given| && given[k].scores.Some? && i < |given[k].scores.value|
                && given[k].scores.value[i] == x :: (k, i)|
  {
    var chosen := CompletenessAtCompletion(c, s0, events, s, j);
    RunKeepsJobs(c, s0, events);
    RunRecords(c, s0, events, j);
    given := seq(|c.executors|, k requires 0 <= k < |c.executors| => chosen[k]);
    assert forall k | k in chosen :: k < |given| && given[k] == chosen[k];
    assert forall k | 0 <= k < |given| :: k in chosen;
    forall x ensures multiset(s.jobs[j].promise[0].scores)[x] ==
      |set k: nat, i: nat | k < |given| && given[k].scores.Some? && i < |given[k].scores.value|
        && given[k].scores.value[i] == x :: (k, i)|
    {
      assert (set k: nat, i: nat | k in chosen && chosen[k].scores.Some? && i < |chosen[k].scores.value|
                && chosen[k].scores.value[i] == x :: (k, i)) ==
             (set k: nat, i: nat | k < |given| && given[k].scores.Some? && i < |given[k].scores.value|
                && given[k].scores.value[i] == x :: (k, i));
    }
  }
}
