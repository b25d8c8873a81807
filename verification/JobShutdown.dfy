/** After the destructor has stored the shutdown flag, the update thread exits. */
module JobShutdown {
  import opened Wrappers
  import opened JobProtocol
  import opened JobInvariant
  import opened JobSafety
  import opened JobLiveness

  // How far the update thread is from its next test of the flag, where it is idle.
  function Distance(u: Updater): nat {
    match u
    case Waiting => 2
    case Dequeued(_) => 1
    case Looping => 1
    case _ => 0
  }

  function StepsLeft(c: Config, s: State): nat { 3 * Measure(c, s) + Distance(s.update) }

  // The flag stays, and with it even the idle cycle uses up steps, for it ends at the next test.
  lemma StepsRunOut(c: Config, s: State, e: Event)
    requires Inv(c, s) && Enabled(c, s, e) && s.shutdown
    ensures Next(c, s, e).shutdown && StepsLeft(c, Next(c, s, e)) < StepsLeft(c, s)
  {
    StepWorks(c, s, e);
    FlagStays(c, s, e);
    if IsIdle(s, e) { IdleComesCloser(c, s, e); } else { DistanceIsSmall(Next(c, s, e).update); }
  }

  lemma DistanceIsSmall(u: Updater)
    ensures Distance(u) <= 2
  {
  }

  lemma IdleComesCloser(c: Config, s: State, e: Event)
    requires Enabled(c, s, e) && s.shutdown && IsIdle(s, e)
    ensures Distance(Next(c, s, e).update) < Distance(s.update)
  {
  }

  lemma FlagStays(c: Config, s: State, e: Event)
    requires Enabled(c, s, e) && s.shutdown
    ensures Next(c, s, e).shutdown
  {
    assert Run(c, Next(c, s, e), []) == Some(Next(c, s, e));
    assert [e][1..] == [];
    ShutdownStays(c, s, [e]);
  }

  lemma {:induction false} RunIsShort(c: Config, s: State, events: seq<Event>)
    requires Inv(c, s) && s.shutdown && Run(c, s, events).Some?
    ensures |events| <= StepsLeft(c, s)
    decreases |events|
  {
    if events != [] {
      StepsRunOut(c, s, events[0]);
      StepInv(c, s, events[0]);
      RunIsShort(c, Next(c, s, events[0]), events[1..]);
    }
  }

  ghost predicate Stuck(c: Config, s: State) {
    forall e :: !Enabled(c, s, e)
  }

  /** Once the flag is stored, every run ends after a number of steps known then, and it can only end with the update
      thread's exit: the destructor's join returns. */
  lemma ShutdownExits(c: Config, s: State, events: seq<Event>)
    requires Reachable(c, s) && s.shutdown && Run(c, s, events).Some?
    ensures |events| <= StepsLeft(c, s)
    ensures Stuck(c, Run(c, s, events).value) ==> Run(c, s, events).value.update.Exited?
  {
    ReachableInv(c, s);
    RunIsShort(c, s, events);
    var t := Run(c, s, events).value;
    RunInv(c, s, events);
    if Stuck(c, t) && !t.update.Exited? {
      UpdaterCanAct(c, t);
    }
  }
}
