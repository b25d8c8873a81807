/** A run of the job protocol that does what the protocol is for. */
module JobExample {
  import opened Wrappers
  import opened Jobs
  import opened Orders
  import opened JobProtocol
  import opened JobSafety

  // One client has inserted its job.
  lemma ClientEnters(c: Config) returns (s: State)
    requires |c.executors| == 1
    ensures s == State([Job(Registering(0), map[], [NotStarted], {}, false, false, [])], {0}, multiset{}, false, false, Waiting)
    ensures Reachable(c, s)
  {
    var job := Job(Idle, map[], [NotStarted], {}, false, false, []);
    var s0 := State([job], {}, multiset{}, false, false, Waiting);
    assert Init(c, s0) && Run(c, s0, []) == Some(s0);
    var s1 := s0.(jobs := [job.(client := Inserting)]);
    ReachByClient(c, s0, StartQuery(0), s1);
    s := s1.(jobs := [job.(client := Registering(0))], table := {0});
    assert {} + {0} == {0};
    ReachByClient(c, s1, Insert(0), s);
  }

  // It registers the only executor and calls it.
  lemma ClientCalls(c: Config, s: State, x: Instance) returns (t: State)
    requires c == Config([x]) && Reachable(c, s) && |s.jobs| == 1
    requires s.jobs[0] == Job(Registering(0), map[], [NotStarted], {}, false, false, [])
    ensures t == s.(jobs := [Job(Registering(1), map[x := 0], [Running], {}, false, false, [])])
    ensures Reachable(c, t)
  {
    var s1 := s.(jobs := [s.jobs[0].(client := Starting(0), results := map[x := 0])]);
    ReachByClient(c, s, Register(0), s1);
    assert [NotStarted][0 := Running] == [Running];
    t := s1.(jobs := [Job(Registering(1), map[x := 0], [Running], {}, false, false, [])]);
    ReachByClient(c, s1, StartCall(0), t);
  }

  lemma ExecutorAnswers(c: Config, s: State, a: Answer) returns (t: State)
    requires Reachable(c, s) && |s.jobs| == 1 && s.jobs[0].calls == [Running]
    ensures t == s.(jobs := [s.jobs[0].(calls := [Answered(a)])]) && Reachable(c, t)
  {
    t := s.(jobs := [s.jobs[0].(calls := [Answered(a)])]);
    var e := GiveAnswer(0, 0, a);
    assert [Running][0 := Answered(a)] == [Answered(a)];
    assert CallNext(s.jobs[0], e) == t.jobs[0];
    assert s.jobs[0 := t.jobs[0]] == t.jobs;
    ReachFurther(c, s, e, t);
  }

  function Reported(a: Answer): Outcome {
    Completed(if a.completion == Succeeded then Succeeded else SucceededPartially, if a.scores.Some? then a.scores.value else [])
  }

  lemma AloneIsReported(a: Answer)
    ensures Select(Answers([Answered(a)]), [0]) == [a] && Aggregate([a]) == Reported(a)
  {
    assert [a][..0] == [] && ConcatScores([a]) == ConcatScores([]) + ScoresOf(a);
    assert a in [a];
  }

  lemma OneEntry(x: Instance, results: map<Instance, nat>)
    requires results == map[x := 0]
    ensures results.Values == {0} && Enumerates([0], results.Values)
  {
    assert results[x] == 0 && x in results;
    assert 0 in results.Values;
  }

  lemma UpdaterReducesAnswer(c: Config, s: State, x: Instance, a: Answer) returns (t: State)
    requires Reachable(c, s) && |s.jobs| == 1 && s.update == Checked(0, {})
    requires s.jobs[0].results == map[x := 0] && !s.jobs[0].alreadyProcessed && s.jobs[0].calls == [Answered(a)]
    ensures Reachable(c, t) && t == s.(update := Reduced(0, {}, Reported(a)))
  {
    t := s.(update := Reduced(0, {}, Reported(a)));
    AloneIsReported(a);
    OneEntry(x, s.jobs[0].results);
    ReachByUpdater(c, s, Reduce([0]), t);
  }

  lemma UpdaterPublishesAnswer(c: Config, s: State) returns (t: State)
    requires Reachable(c, s) && |s.jobs| == 1 && s.update.Reduced? && s.update.job == 0 && s.jobs[0].promise == []
    ensures Reachable(c, t) && |t.jobs| == 1 && t.jobs[0].promise == [s.update.outcome]
  {
    t := s.(update := Published(0, s.update.todo), jobs := s.jobs[0 := s.jobs[0].(promise := [s.update.outcome])]);
    assert s.jobs[0].promise + [s.update.outcome] == [s.update.outcome];
    ReachByUpdater(c, s, Publish, t);
  }

  lemma AnswerIsCalledFor(x: Instance, a: Answer) returns (s: State)
    ensures Reachable(Config([x]), s) && |s.jobs| == 1 && s.jobs[0] == Job(Registering(1), map[x := 0], [Answered(a)], {}, false, false, [])
    ensures s.table == {0} && s.queue == multiset{} && !s.shutdown && s.update.Waiting?
  {
    var c := Config([x]);
    var s0 := ClientEnters(c);
    var s1 := ClientCalls(c, s0, x);
    s := ExecutorAnswers(c, s1, a);
  }

  /** Whatever the only executor answers can be, and then is, reported. */
  lemma LoneAnswerIsReported(x: Instance, a: Answer) returns (s: State)
    ensures Reachable(Config([x]), s) && |s.jobs| == 1
    ensures s.jobs[0].promise == [Completed(if a.completion == Succeeded then Succeeded else SucceededPartially,
                                            if a.scores.Some? then a.scores.value else [])]
  {
    var c := Config([x]);
    var s0 := AnswerIsCalledFor(x, a);
    assert s0.jobs == [s0.jobs[0]];
    var s1 := ClientFinishes(c, s0);
    assert multiset{} + multiset{Some(0)} == multiset{Some(0)};
    var s2 := UpdaterDequeues(c, s1);
    var s3 := UpdaterScans(c, s2);
    var s4 := UpdaterSelects(c, s3);
    var s5 := UpdaterReducesAnswer(c, s4, x, a);
    s := UpdaterPublishesAnswer(c, s5);
  }
}
