/** Queries seen over whole runs: which runs leave a call undisturbed, and a run that makes a call miss a chunk. */
module WorkerRuns {
  import opened Wrappers
  import opened Sorting
  import opened MapReduce
  import opened Schedulers
  import opened WorkerProtocol
  import opened WorkerInvariant
  import opened WorkerSafety

  // A run: its states, and the event between each two of them.
  ghost predicate IsRun(c: Config, states: seq<State>, events: seq<Event>)
    requires WellFormed(c)
  {
    && |states| == |events| + 1 && Init(c, states[0])
    && forall n | 0 <= n < |events| :: Enabled(c, states[n], events[n]) && states[n + 1] == Next(c, states[n], events[n])
  }

  lemma {:induction false} RunIsReachable(c: Config, states: seq<State>, events: seq<Event>, n: nat)
    requires WellFormed(c) && IsRun(c, states, events) && n <= |events|
    ensures Reachable(c, states[n])
  {
    if n == 0 {
      assert Run(c, states[0], []) == Some(states[0]);
    } else {
      RunIsReachable(c, states, events, n - 1);
      var s0, before :| Init(c, s0) && Run(c, s0, before) == Some(states[n - 1]);
      RunSnoc(c, s0, before, states[n - 1], events[n - 1]);
    }
  }

  // Call k looks at a list, or is answered by a worker that has mapped its own.
  predicate Concerns(c: Config, s: State, e: Event, k: nat) {
    || (e == Select(k) && k < |s.calls| && s.calls[k].phase.Selecting? && s.calls[k].phase.next < c.workers)
    || (&& e.Work? && e.w < |s.workers| && e.w < |s.lists| && s.workers[e.w].Mapping?
        && s.workers[e.w].call == k && s.workers[e.w].done >= |s.lists[e.w]|)
  }

  /** Call k begins with event i while nobody is redistributing, and no list is changed before the call has had its last
      look and its last answer. */
  ghost predicate Quiet(c: Config, states: seq<State>, events: seq<Event>, i: nat, k: nat) {
    && |states| == |events| + 1 && i < |events| && events[i] == Start(k) && Settled(states[i].writers)
    && forall m, n | i < m < n < |events| && ChangesLists(c, states[m], events[m]) :: !Concerns(c, states[n], events[n], k)
  }

  ghost predicate ChangedSince(c: Config, states: seq<State>, events: seq<Event>, i: nat, n: nat)
    requires n <= |events| <= |states|
  {
    exists m :: i < m < n && ChangesLists(c, states[m], events[m])
  }

  // The call as it is while undisturbed.
  ghost predicate Undisturbed(start: State, s: State, k: nat, changed: bool) {
    && k < |s.calls| && !s.calls[k].phase.NotStarted? && s.calls[k].steady
    && s.calls[k].seen == start.lists && s.calls[k].since == start.version
    && (!changed ==> s.version == start.version)
  }

  lemma StepLeavesUndisturbed(c: Config, start: State, s: State, e: Event, k: nat, changed: bool)
    requires WellFormed(c) && Reachable(c, s) && Enabled(c, s, e) && Undisturbed(start, s, k, changed)
    requires changed ==> !Concerns(c, s, e, k)
    ensures Undisturbed(start, Next(c, s, e), k, changed || ChangesLists(c, s, e))
  {
    ListsChangeUnderLock(c, s, e);
  }

  lemma BeginsUndisturbed(c: Config, s: State, k: nat, changed: bool)
    requires WellFormed(c) && Enabled(c, s, Start(k))
    ensures Undisturbed(s, Next(c, s, Start(k)), k, changed)
  {
  }

  lemma ChangedSinceStep(c: Config, states: seq<State>, events: seq<Event>, i: nat, n: nat)
    requires i < n < |events| < |states|
    ensures ChangedSince(c, states, events, i, n + 1)
            <==> ChangedSince(c, states, events, i, n) || ChangesLists(c, states[n], events[n])
  {
    if m :| i < m < n && ChangesLists(c, states[m], events[m]) { assert i < m < n + 1; }
    if ChangesLists(c, states[n], events[n]) { assert i < n < n + 1; }
  }

  lemma RunLeavesUndisturbed(c: Config, states: seq<State>, events: seq<Event>, n: nat, start: State, k: nat, changed: bool)
    requires WellFormed(c) && IsRun(c, states, events) && n < |events| && Undisturbed(start, states[n], k, changed)
    requires changed ==> !Concerns(c, states[n], events[n], k)
    ensures Undisturbed(start, states[n + 1], k, changed || ChangesLists(c, states[n], events[n]))
  {
    RunIsReachable(c, states, events, n);
    StepLeavesUndisturbed(c, start, states[n], events[n], k, changed);
  }

  lemma RunBeginsUndisturbed(c: Config, states: seq<State>, events: seq<Event>, i: nat, k: nat, changed: bool)
    requires WellFormed(c) && IsRun(c, states, events) && i < |events| && events[i] == Start(k)
    ensures Undisturbed(states[i], states[i + 1], k, changed)
  {
    assert Enabled(c, states[i], events[i]) && states[i + 1] == Next(c, states[i], events[i]);
    BeginsUndisturbed(c, states[i], k, changed);
  }

  lemma QuietStep(c: Config, states: seq<State>, events: seq<Event>, i: nat, k: nat, n: nat)
    requires Quiet(c, states, events, i, k) && i < n < |events| && ChangedSince(c, states, events, i, n)
    ensures !Concerns(c, states[n], events[n], k)
  {
    var m :| i < m < n && ChangesLists(c, states[m], events[m]);
  }

  lemma {:induction false} QuietLeavesUndisturbed(c: Config, states: seq<State>, events: seq<Event>, i: nat, k: nat, n: nat)
    requires WellFormed(c) && IsRun(c, states, events) && Quiet(c, states, events, i, k) && i < n <= |events|
    ensures Undisturbed(states[i], states[n], k, ChangedSince(c, states, events, i, n))
  {
    if n == i + 1 {
      RunBeginsUndisturbed(c, states, events, i, k, ChangedSince(c, states, events, i, n));
    } else {
      var changed := ChangedSince(c, states, events, i, n - 1);
      QuietLeavesUndisturbed(c, states, events, i, k, n - 1);
      ChangedSinceStep(c, states, events, i, n - 1);
      if changed { QuietStep(c, states, events, i, k, n - 1); }
      RunLeavesUndisturbed(c, states, events, n - 1, states[i], k, changed);
    }
  }

  /** A call that has returned in such a run returns the scores of the distribution that it began with, in the order of
      the workers, in every interleaving; with the intended index that is the bag of scores that one worker holding all
      the coordinator's chunks returns. */
  lemma QuietCallIsExact(c: Config, states: seq<State>, events: seq<Event>, i: nat, k: nat)
    requires WellFormed(c) && IsRun(c, states, events) && Quiet(c, states, events, i, k)
    requires k < |states[|events|].calls| && states[|events|].calls[k].phase.Returned?
    ensures |states[|events|].calls| == |c.queries|
    ensures states[|events|].calls[k].phase.scores
            == ParallelScores(c.memory, Deques(c.form, states[i].chunks, c.workers), c.queries[k])
    ensures c.form.AsIntended? ==>
              multiset(states[|events|].calls[k].phase.scores)
              == multiset(ListScores(c.memory, states[i].chunks, c.queries[k]))
  {
    var start, end := states[i], states[|events|];
    assert Enabled(c, start, events[i]);
    if i + 1 <= |events| { QuietLeavesUndisturbed(c, states, events, i, k, |events|); }
    RunIsReachable(c, states, events, i);
    RunIsReachable(c, states, events, |events|);
    SettledListsAreDistribution(c, start);
    SteadyCallIsExact(c, end, k);
    if c.form.AsIntended? {
      IntendedIsPartition(start.chunks, c.workers);
      ParallelIsFlat(c.memory, start.lists, c.queries[k]);
    }
  }

  // What a step adds to the record of a call.
  predicate Looks(c: Config, s: State, e: Event, k: nat, before: Call, after: Call) {
    || after.looked == before.looked
    || after.looked == []
    || (&& e == Select(k) && before.phase == Selecting(|before.looked|) && |before.looked| < |s.lists|
        && after.looked == before.looked + [s.lists[|before.looked|]])
  }

  predicate Maps(s: State, e: Event, k: nat, before: Call, after: Call) {
    forall w | w in after.mapped ::
      || (w in before.mapped && after.mapped[w] == before.mapped[w])
      || (&& e == Work(w) && w < |s.workers| && w < |s.lists| && s.workers[w].Mapping? && s.workers[w].call == k
          && after.mapped[w] == s.lists[w])
  }

  lemma StepLooks(c: Config, s: State, e: Event, k: nat)
    requires WellFormed(c) && Inv(c, s) && Enabled(c, s, e) && k < |s.calls|
    ensures |Next(c, s, e).calls| == |s.calls| && Looks(c, s, e, k, s.calls[k], Next(c, s, e).calls[k])
  {
    assert CallOk(c.workers, s.calls[k]);
  }

  lemma StepMaps(c: Config, s: State, e: Event, k: nat)
    requires WellFormed(c) && Enabled(c, s, e) && k < |s.calls|
    ensures |Next(c, s, e).calls| == |s.calls| && Maps(s, e, k, s.calls[k], Next(c, s, e).calls[k])
  {
  }

  // Call k finds this list when it looks at worker w.
  ghost predicate LookedAt(c: Config, states: seq<State>, events: seq<Event>, m: nat, k: nat, w: nat, list: seq<WeakPtr>)
    requires m < |events| <= |states|
  {
    && events[m] == Select(k) && k < |states[m].calls| && states[m].calls[k].phase == Selecting(w)
    && w < |states[m].lists| && states[m].lists[w] == list
  }

  // Worker w has mapped this list when it answers call k.
  ghost predicate AnsweredWith(c: Config, states: seq<State>, events: seq<Event>, m: nat, k: nat, w: nat, list: seq<WeakPtr>)
    requires m < |events| <= |states|
  {
    && events[m] == Work(w) && w < |states[m].workers| && states[m].workers[w].Mapping? && states[m].workers[w].call == k
    && w < |states[m].lists| && states[m].lists[w] == list
  }

  ghost predicate LookedAtBefore(c: Config, states: seq<State>, events: seq<Event>, n: nat, k: nat, w: nat,
                                 list: seq<WeakPtr>)
    requires n <= |events| < |states|
  {
    exists m: nat :: m < n && LookedAt(c, states, events, m, k, w, list)
  }

  ghost predicate AnsweredBefore(c: Config, states: seq<State>, events: seq<Event>, n: nat, k: nat, w: nat,
                                 list: seq<WeakPtr>)
    requires n <= |events| < |states|
  {
    exists m: nat :: m < n && AnsweredWith(c, states, events, m, k, w, list)
  }

  ghost predicate LooksAreReal(c: Config, states: seq<State>, events: seq<Event>, n: nat, k: nat) {
    && n <= |events| < |states| && k < |states[n].calls|
    && forall w: nat | w < |states[n].calls[k].looked| ::
         LookedAtBefore(c, states, events, n, k, w, states[n].calls[k].looked[w])
  }

  ghost predicate MapsAreReal(c: Config, states: seq<State>, events: seq<Event>, n: nat, k: nat) {
    && n <= |events| < |states| && k < |states[n].calls|
    && forall w | w in states[n].calls[k].mapped ::
         AnsweredBefore(c, states, events, n, k, w, states[n].calls[k].mapped[w])
  }

  lemma RealLooksStay(c: Config, states: seq<State>, events: seq<Event>, n: nat, k: nat)
    requires LooksAreReal(c, states, events, n, k) && n < |events| && k < |states[n + 1].calls|
    requires Looks(c, states[n], events[n], k, states[n].calls[k], states[n + 1].calls[k])
    ensures LooksAreReal(c, states, events, n + 1, k)
  {
    var before, after := states[n].calls[k], states[n + 1].calls[k];
    forall w: nat | w < |after.looked|
      ensures LookedAtBefore(c, states, events, n + 1, k, w, after.looked[w])
    {
      if w == |before.looked| {
        assert LookedAt(c, states, events, n, k, w, after.looked[w]);
      } else {
        assert LookedAtBefore(c, states, events, n, k, w, before.looked[w]);
      }
    }
  }

  lemma RealMapsStay(c: Config, states: seq<State>, events: seq<Event>, n: nat, k: nat)
    requires MapsAreReal(c, states, events, n, k) && n < |events| && k < |states[n + 1].calls|
    requires Maps(states[n], events[n], k, states[n].calls[k], states[n + 1].calls[k])
    ensures MapsAreReal(c, states, events, n + 1, k)
  {
    var before, after := states[n].calls[k], states[n + 1].calls[k];
    forall w | w in after.mapped
      ensures AnsweredBefore(c, states, events, n + 1, k, w, after.mapped[w])
    {
      if w in before.mapped && after.mapped[w] == before.mapped[w] {
        assert AnsweredBefore(c, states, events, n, k, w, before.mapped[w]);
      } else {
        assert AnsweredWith(c, states, events, n, k, w, after.mapped[w]);
      }
    }
  }

  lemma {:induction false} RecordsStayReal(c: Config, states: seq<State>, events: seq<Event>, n: nat, k: nat)
    requires WellFormed(c) && IsRun(c, states, events) && n <= |events| && k < |c.queries|
    ensures LooksAreReal(c, states, events, n, k) && MapsAreReal(c, states, events, n, k)
  {
    if n > 0 {
      RecordsStayReal(c, states, events, n - 1, k);
      RunIsReachable(c, states, events, n - 1);
      ReachableInv(c, states[n - 1]);
      StepLooks(c, states[n - 1], events[n - 1], k);
      StepMaps(c, states[n - 1], events[n - 1], k);
      RealLooksStay(c, states, events, n - 1, k);
      RealMapsStay(c, states, events, n - 1, k);
    }
  }

  /** The records are those of the run: the list noted for a worker was on it when the call looked at it, and the list noted
      for an answer was on the worker when it gave the answer. */
  lemma RecordsAreReal(c: Config, states: seq<State>, events: seq<Event>, k: nat)
    requires WellFormed(c) && IsRun(c, states, events) && k < |c.queries|
    ensures k < |states[|events|].calls|
    ensures var call := states[|events|].calls[k];
            && (forall w: nat | w < |call.looked| ::
                  LookedAtBefore(c, states, events, |events|, k, w, call.looked[w]))
            && (forall w | w in call.mapped ::
                  AnsweredBefore(c, states, events, |events|, k, w, call.mapped[w]))
  {
    RecordsStayReal(c, states, events, |events|, k);
  }

  // One worker, one chunk, one writer that only redistributes, and one query.
  function LoneConfig(memory: Memory, query: seq<real>, form: Form): Config {
    Config(memory, [query], form, 1, [None], 2, true)
  }

  function LoneState(p: WeakPtr, lists: seq<seq<WeakPtr>>, version: nat, holder: Option<nat>, writer: Writer, call: Call)
    : State
  {
    State([p], lists, version, [[]], [Idle], {}, holder, [writer], [call])
  }

  lemma LoneDistribution(form: Form, p: WeakPtr)
    ensures Deques(form, [p], 1) == [[p]]
  {
    ShareSizes(form, [p], 1, 0);
    assert |[p]| / 1 == 1;
    assert [p][..1] == [p] && [p][0..1] == [p] && [p][1..] == [] && [p] + [] == [p];
  }

  lemma LonePrune(memory: Memory, p: WeakPtr)
    requires p in memory
    ensures Prune([p], memory.Keys) == [p]
  {
    assert [p][..0] == [];
  }

  // The writer takes the lock and is about to empty the worker's list.
  lemma LoneWriterEnters(memory: Memory, query: seq<real>, form: Form, p: WeakPtr)
    requires p in memory && AllFit(memory, query) && WellFormed(LoneConfig(memory, query, form))
    ensures var c, s0 := LoneConfig(memory, query, form), LoneState(p, [[p]], 0, None, Outside, BEFORE_START);
            Init(c, s0) && Leads(c, s0, LoneState(p, [[p]], 0, Some(0), Clearing(0), BEFORE_START))
  {
    var c, s0 := LoneConfig(memory, query, form), LoneState(p, [[p]], 0, None, Outside, BEFORE_START);
    LoneDistribution(form, p);
    LonePrune(memory, p);
    assert [p] + [] == [p];
    assert Run(c, s0, []) == Some(s0);
    var s1 := LoneState(p, [[p]], 0, None, Writer.Waiting, BEFORE_START);
    var s2 := LoneState(p, [[p]], 0, Some(0), Locked, BEFORE_START);
    LeadsFurther(c, s0, s0, Write(0), s1);
    LeadsFurther(c, s0, s1, Write(0), s2);
    LeadsFurther(c, s0, s2, Write(0), LoneState(p, [[p]], 0, Some(0), Clearing(0), BEFORE_START));
  }

  function WhileCleared(p: WeakPtr, phase: Phase, looked: seq<seq<WeakPtr>>): State {
    LoneState(p, [[]], 1, Some(0), Clearing(1), Call(phase, 1, [[]], true, looked, [], map[], map[]))
  }

  lemma LoneCallBegins(memory: Memory, query: seq<real>, form: Form, p: WeakPtr, s0: State)
    requires AllFit(memory, query) && WellFormed(LoneConfig(memory, query, form))
    requires Leads(LoneConfig(memory, query, form), s0, LoneState(p, [[p]], 0, Some(0), Clearing(0), BEFORE_START))
    ensures Leads(LoneConfig(memory, query, form), s0, WhileCleared(p, Selecting(0), []))
  {
    var c := LoneConfig(memory, query, form);
    var s1 := LoneState(p, [[p]], 0, Some(0), Clearing(0), BEFORE_START);
    var s2 := LoneState(p, [[]], 1, Some(0), Clearing(1), BEFORE_START);
    LeadsFurther(c, s0, s1, Write(0), s2);
    var t := WhileCleared(p, Selecting(0), []);
    assert s2.calls[0 := t.calls[0]] == t.calls;
    LeadsFurther(c, s0, s2, Start(0), t);
  }

  lemma LoneCallLooks(memory: Memory, query: seq<real>, form: Form, p: WeakPtr, s0: State)
    requires AllFit(memory, query) && WellFormed(LoneConfig(memory, query, form))
    requires Leads(LoneConfig(memory, query, form), s0, WhileCleared(p, Selecting(0), []))
    ensures Leads(LoneConfig(memory, query, form), s0, WhileCleared(p, Selecting(1), [[]]))
  {
    var c := LoneConfig(memory, query, form);
    var s, t := WhileCleared(p, Selecting(0), []), WhileCleared(p, Selecting(1), [[]]);
    assert s.calls[0].looked + [[]] == [[]] && s.calls[0].asked + [] == [];
    assert NextSelection(s.lists, s.version, s.calls[0]) == t.calls[0];
    assert s.calls[0 := t.calls[0]] == t.calls;
    LeadsFurther(c, s0, s, Select(0), t);
  }

  lemma LoneCallReturns(memory: Memory, query: seq<real>, form: Form, p: WeakPtr, s0: State)
    requires AllFit(memory, query) && WellFormed(LoneConfig(memory, query, form))
    requires Leads(LoneConfig(memory, query, form), s0, WhileCleared(p, Selecting(1), [[]]))
    ensures Leads(LoneConfig(memory, query, form), s0, WhileCleared(p, Returned([]), [[]]))
  {
    var c := LoneConfig(memory, query, form);
    var s1, s2 := WhileCleared(p, Selecting(1), [[]]), WhileCleared(p, Reducing(0, []), [[]]);
    var s3 := WhileCleared(p, Returned([]), [[]]);
    assert s1.calls[0 := s2.calls[0]] == s2.calls && s2.calls[0 := s3.calls[0]] == s3.calls;
    LeadsFurther(c, s0, s1, Select(0), s2);
    LeadsFurther(c, s0, s2, Reduce(0), s3);
  }

  /** A run in which a call misses a chunk: the chunk exists, has vectors, was on the worker's list at the beginning and is
      among the coordinator's chunks all the time, but the call looks at the list, which it reads without the lock, while
      a redistribution has emptied it, and returns no score. */
  lemma CallDuringRedistributionMissesChunk(memory: Memory, query: seq<real>, form: Form, p: WeakPtr)
    requires p in memory && AllFit(memory, query) && memory[p].vectors > 0
    ensures var c := LoneConfig(memory, query, form);
            WellFormed(c) && exists s0, events, s ::
              && Init(c, s0) && s0.lists == [[p]] && s0.chunks == [p] && Run(c, s0, events) == Some(s)
              && |s.calls| == 1 && s.calls[0].phase == Returned([]) && s.chunks == [p]
              && ListScores(memory, s.chunks, query) != []
  {
    var c := LoneConfig(memory, query, form);
    assert WellFormed(c);
    var s0, s := LoneState(p, [[p]], 0, None, Outside, BEFORE_START), WhileCleared(p, Returned([]), [[]]);
    LoneWriterEnters(memory, query, form, p);
    LoneCallBegins(memory, query, form, p, s0);
    LoneCallLooks(memory, query, form, p, s0);
    LoneCallReturns(memory, query, form, p, s0);
    var events :| Run(c, s0, events) == Some(s);
    OneScorePerVector(memory, [p], query);
    assert [p][..0] == [];
    assert ListVectors(memory, [p]) == memory[p].vectors;
  }
}
