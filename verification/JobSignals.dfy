/** Wake-ups are neither lost nor invented: what is sent to the update thread is what it dequeued and what still waits. */
module JobSignals {
  import opened Wrappers
  import opened Bags
  import opened JobProtocol
  import opened JobSafety

  // The events that send the signal: the four ways in which a job is announced, and the destructor.
  predicate Sends(e: Event, x: Option<JobId>) {
    match e
    case NotifyFailed(j) => x == Some(j)
    case DestroyFailed(j) => x == Some(j)
    case NotifyComplete(j) => x == Some(j)
    case NotifyAnswer(j, _) => x == Some(j)
    case NotifyShutdown => x == None
    case _ => false
  }

  function Received(e: Event): seq<Option<JobId>> { if e.Dequeue? then e.infos else [] }

  lemma StepSignals(c: Config, s: State, e: Event, x: Option<JobId>)
    requires Enabled(c, s, e)
    ensures Next(c, s, e).queue[x] + multiset(Received(e))[x] == s.queue[x] + if Sends(e, x) then 1 else 0
    ensures |Received(e)| <= 16
  {
    if IsUpdaterEvent(e) && !e.Dequeue? { assert UpdaterNext(c, s, e).queue == s.queue; }
  }

  ghost function SentBy(events: seq<Event>, n: nat, x: Option<JobId>): set<nat>
    requires n <= |events|
  {
    set i: nat | i < n && Sends(events[i], x)
  }

  ghost function ReceivedBy(events: seq<Event>, n: nat, x: Option<JobId>): set<(nat, nat)>
    requires n <= |events|
  {
    set i: nat, p: nat | i < n && events[i].Dequeue? && p < |events[i].infos| && events[i].infos[p] == x :: (i, p)
  }

  lemma SentNext(events: seq<Event>, n: nat, x: Option<JobId>)
    requires n < |events|
    ensures |SentBy(events, n + 1, x)| == |SentBy(events, n, x)| + if Sends(events[n], x) then 1 else 0
  {
    SentSet(events, n, x);
  }

  lemma SentSet(events: seq<Event>, n: nat, x: Option<JobId>)
    requires n < |events|
    ensures SentBy(events, n + 1, x) == SentBy(events, n, x) + if Sends(events[n], x) then {n} else {}
    ensures n !in SentBy(events, n, x)
  {
  }

  lemma ReceivedSet(events: seq<Event>, n: nat, x: Option<JobId>)
    requires n < |events|
    ensures ReceivedBy(events, n + 1, x)
            == ReceivedBy(events, n, x) + SpotsIn(Received(events[n]), n, |Received(events[n])|, x)
    ensures forall q | q in ReceivedBy(events, n, x) :: q.0 < n
  {
  }

  lemma ReceivedNext(events: seq<Event>, n: nat, x: Option<JobId>)
    requires n < |events|
    ensures |ReceivedBy(events, n + 1, x)| == |ReceivedBy(events, n, x)| + multiset(Received(events[n]))[x]
  {
    var infos := Received(events[n]);
    ReceivedSet(events, n, x);
    DisjointSizes(ReceivedBy(events, n, x), SpotsIn(infos, n, |infos|, x), n);
    SpotsInCount(infos, n, |infos|, x);
    assert infos[..|infos|] == infos;
  }

  lemma StepOfRun(c: Config, s: State, events: seq<Event>, n: nat)
    requires Run(c, s, events).Some? && n < |events|
    ensures Run(c, s, events[..n]).Some? && Enabled(c, Run(c, s, events[..n]).value, events[n])
    ensures Run(c, s, events[..n + 1]) == Some(Next(c, Run(c, s, events[..n]).value, events[n]))
  {
    assert events == events[..n] + events[n..] && events[..n + 1] == events[..n] + [events[n]];
    SeveralSteps(c, s, events[..n], events[n..]);
    RunFurther(c, s, events[..n], events[n]);
  }

  // What was sent by the first n events is what they received and what is in the queue then.
  ghost predicate Balanced(events: seq<Event>, n: nat, x: Option<JobId>, first: nat, now: nat) {
    n <= |events| && now + |ReceivedBy(events, n, x)| == first + |SentBy(events, n, x)|
  }

  lemma BalancedNext(events: seq<Event>, n: nat, x: Option<JobId>, first: nat, now: nat, next: nat)
    requires n < |events| && Balanced(events, n, x, first, now)
    requires next + multiset(Received(events[n]))[x] == now + if Sends(events[n], x) then 1 else 0
    ensures Balanced(events, n + 1, x, first, next)
  {
    SentNext(events, n, x);
    ReceivedNext(events, n, x);
  }

  lemma {:induction false} SignalsUpTo(c: Config, s: State, events: seq<Event>, n: nat, x: Option<JobId>)
    requires Run(c, s, events).Some? && n <= |events|
    ensures Run(c, s, events[..n]).Some?
    ensures Balanced(events, n, x, s.queue[x], Run(c, s, events[..n]).value.queue[x])
  {
    if n == 0 {
      assert SentBy(events, 0, x) == {} && ReceivedBy(events, 0, x) == {};
    } else {
      SignalsUpTo(c, s, events, n - 1, x);
      StepOfRun(c, s, events, n - 1);
      var before, after := Run(c, s, events[..n - 1]).value, Run(c, s, events[..n]).value;
      StepSignals(c, before, events[n - 1], x);
      BalancedNext(events, n - 1, x, s.queue[x], before.queue[x], after.queue[x]);
    }
  }

  lemma SentForJob(events: seq<Event>, j: JobId)
    ensures |SentBy(events, |events|, Some(j))|
            == |set i: nat | i < |events| && (events[i] == NotifyFailed(j) || events[i] == DestroyFailed(j)
                 || events[i] == NotifyComplete(j) || (events[i].NotifyAnswer? && events[i].j == j))|
  {
    assert SentBy(events, |events|, Some(j)) ==
      set i: nat | i < |events| && (events[i] == NotifyFailed(j) || events[i] == DestroyFailed(j)
        || events[i] == NotifyComplete(j) || (events[i].NotifyAnswer? && events[i].j == j));
  }

  lemma SentByDestructor(events: seq<Event>)
    ensures |SentBy(events, |events|, None)| == |set i: nat | i < |events| && events[i].NotifyShutdown?|
  {
    assert SentBy(events, |events|, None) == set i: nat | i < |events| && events[i].NotifyShutdown?;
  }

  lemma SignalsOfRun(c: Config, s0: State, events: seq<Event>, s: State, x: Option<JobId>)
    requires Init(c, s0) && Run(c, s0, events) == Some(s)
    ensures s.queue[x] + |ReceivedBy(events, |events|, x)| == |SentBy(events, |events|, x)|
  {
    assert events[..|events|] == events;
    SignalsUpTo(c, s0, events, |events|, x);
  }

  /** In every run each announcement of a job, by a failure, by the failed tracker's destructor, by completed adding or by
      an answer, puts one entry into the queue, and nothing else does; each entry is dequeued once or still waiting. */
  lemma SignalsAreConserved(c: Config, s0: State, events: seq<Event>, s: State, j: JobId)
    requires Init(c, s0) && Run(c, s0, events) == Some(s)
    ensures s.queue[Some(j)] +
            |set i: nat, p: nat | i < |events| && events[i].Dequeue? && p < |events[i].infos|
               && events[i].infos[p] == Some(j) :: (i, p)|
            == |set i: nat | i < |events| && (events[i] == NotifyFailed(j) || events[i] == DestroyFailed(j)
                 || events[i] == NotifyComplete(j) || (events[i].NotifyAnswer? && events[i].j == j))|
  {
    SignalsOfRun(c, s0, events, s, Some(j));
    SentForJob(events, j);
  }

  /** The same for the null entry, which only the destructor sends; and a batch has at most 16 entries. */
  lemma NullSignalsAreConserved(c: Config, s0: State, events: seq<Event>, s: State)
    requires Init(c, s0) && Run(c, s0, events) == Some(s)
    ensures s.queue[None] +
            |set i: nat, p: nat | i < |events| && events[i].Dequeue? && p < |events[i].infos|
               && events[i].infos[p] == None :: (i, p)|
            == |set i: nat | i < |events| && events[i].NotifyShutdown?|
    ensures forall i | 0 <= i < |events| && events[i].Dequeue? :: |events[i].infos| <= 16
  {
    SignalsOfRun(c, s0, events, s, None);
    SentByDestructor(events);
    BatchesAreSmall(c, s0, events);
  }

  lemma {:induction false} BatchesAreSmall(c: Config, s: State, events: seq<Event>)
    requires Run(c, s, events).Some?
    ensures forall i | 0 <= i < |events| && events[i].Dequeue? :: |events[i].infos| <= 16
    decreases |events|
  {
    if events != [] {
      BatchesAreSmall(c, Next(c, s, events[0]), events[1..]);
      forall i | 0 <= i < |events| && events[i].Dequeue? ensures |events[i].infos| <= 16 {
        if i == 0 { StepSignals(c, s, events[0], None); } else { assert events[i] == events[1..][i - 1]; }
      }
    }
  }
}
