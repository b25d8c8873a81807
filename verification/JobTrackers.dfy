/**
  The job tracker and the coordinator as objects: what each method does to its fields. Each method of the tracker is
  related to the atomic actions of the step system: it does to the tracker's view what they do to a job.
 */
module JobTrackers {
  import opened Wrappers
  import opened Bags
  import opened Jobs
  import opened Orders
  import opened JobProtocol

  // The queue that wakes the update thread; None is the general-purpose signal.
  class SignalQueue {
    var items: seq<Option<JobId>>

    constructor ()
      ensures items == []
    {
      items := [];
    }

    method Notify(info: Option<JobId>)
      modifies this
      ensures items == old(items) + [info]
    {
      items := items + [info];
    }
  }

  // Handing the job to the next executor: its future is registered and it is called, unless the insertion throws.
  function HandOver(c: Config, job: Job, j: JobId, throws: bool): Job
    requires job.client.Registering? && job.client.next < |c.executors| == |job.calls|
  {
    if throws then ClientNext(c, job, RegisterThrows(j))
    else ClientNext(c, ClientNext(c, job, Register(j)), StartCall(j))
  }

  function FinishAdding(c: Config, job: Job, j: JobId): Job
    requires job.client.Registering? && job.client.next == |c.executors|
  {
    ClientNext(c, ClientNext(c, job, CompleteAdding(j)), NotifyComplete(j))
  }

  // The rule: a job that lacks an executor's answer, or holds one that is not a full success, is partial.
  ghost predicate FollowsRule(promises: seq<Option<Answer>>, registered: set<nat>, ready: set<nat>, outcome: Outcome)
    requires forall k | k in ready :: k < |promises| && promises[k].Some?
  {
    outcome.Completed? &&
    (outcome.completion == Succeeded <==>
      ready == registered && forall k | k in ready :: promises[k].value.completion == Succeeded)
  }

  class JobTracker {
    const info: JobId
    const signal: SignalQueue
    ghost const plan: seq<Instance>           // the executors that the job is handed to, one after the other
    var executorResults: map<Instance, nat>   // instance -> the promise its future belongs to
    var promises: seq<Option<Answer>>         // one promise per executor handed to ProcessOn
    var raised: set<nat>                      // the promises that were given an exception instead
    var addingComplete: bool
    var alreadyProcessed: bool
    var promise: Option<Outcome>              // settable once

    ghost predicate Valid()
      reads this
    {
      && |promises| <= |plan|
      && (forall x | x in executorResults :: executorResults[x] < |promises| && executorResults[x] !in raised)
      && (forall k | k in raised :: k < |promises| && promises[k].None?)
      && (alreadyProcessed ==> promise.Some?)
    }

    // A tracker whose promise was given a failure; such a tracker is never in the job table.
    predicate Failed()
      reads this
    {
      promise.Some? && !alreadyProcessed
    }

    ghost function Registered(): set<nat>
      reads this
    {
      executorResults.Values
    }

    ghost function Ready(): (r: set<nat>)
      reads this
      ensures forall k | k in r :: k < |promises| && promises[k].Some?
    {
      set k | k in executorResults.Values && k < |promises| && promises[k].Some?
    }

    ghost function CallOf(k: nat): Call
      reads this
    {
      if k >= |promises| || k in raised then NotStarted
      else if promises[k].Some? then Notified(promises[k].value) else Running
    }

    // The job of the step system that this tracker is, while the thread inside query() stands at `client`.
    ghost function View(client: Client): (job: Job)
      reads this
      ensures |job.calls| == |plan|
    {
      Job(client, executorResults, seq(|plan|, k requires 0 <= k < |plan| reads this => CallOf(k)), raised,
          addingComplete, alreadyProcessed, if promise.Some? then [promise.value] else [])
    }

    constructor (info: JobId, signal: SignalQueue, ghost plan: seq<Instance>)
      ensures Valid() && !Failed() && this.info == info && this.signal == signal && this.plan == plan
      ensures executorResults == map[] && promises == [] && raised == {}
      ensures !addingComplete && !alreadyProcessed && promise == None
      ensures Fresh(Config(plan), View(Client.Idle))
    {
      this.info, this.signal, this.plan := info, signal, plan;
      executorResults, promises, raised := map[], [], {};
      addingComplete, alreadyProcessed, promise := false, false, None;
    }

    // The destructor announces the job once more.
    method Destroy()
      modifies signal
      ensures signal.items == old(signal.items) + [Some(info)]
    {
      signal.Notify(Some(info));
    }

    // Registers the executor's future and calls the executor, unless the insertion throws.
    method ProcessOn(instance: Instance, insertThrows: bool) returns (called: bool)
      requires Valid() && |promises| < |plan| && plan[|promises|] == instance
      modifies this
      ensures Valid() && called == !insertThrows && promises == old(promises) + [None]
      ensures raised == old(raised) + if insertThrows then {|old(promises)|} else {}
      ensures executorResults == if insertThrows || instance in old(executorResults) then old(executorResults)
                                 else old(executorResults)[instance := |old(promises)|]
      ensures unchanged(`addingComplete) && unchanged(`alreadyProcessed) && unchanged(`promise)
      ensures View(Registering(|promises|))
              == HandOver(Config(plan), old(View(Registering(|promises|))), info, insertThrows)
    {
      var k := |promises|;
      promises := promises + [None];
      if insertThrows {
        raised := raised + {k};
        return false;
      }
      if instance !in executorResults {
        executorResults := executorResults[instance := k];
      }
      return true;
    }

    // The callback handed to an executor: fulfil its promise, then wake the update thread.
    method OnAnswer(k: nat, answer: Answer)
      requires Valid() && k < |promises| && promises[k].None? && k !in raised
      modifies this, signal
      ensures Valid() && promises == old(promises)[k := Some(answer)] && signal.items == old(signal.items) + [Some(info)]
      ensures unchanged(`executorResults) && unchanged(`raised)
      ensures unchanged(`addingComplete) && unchanged(`alreadyProcessed) && unchanged(`promise)
      ensures forall client :: View(client)
                == CallNext(CallNext(old(View(client)), GiveAnswer(info, k, answer)), NotifyAnswer(info, k))
    {
      promises := promises[k := Some(answer)];
      signal.Notify(Some(info));
      assert forall client :: View(client).calls == old(View(client)).calls[k := Notified(answer)];
    }

    method CompleteAdding()
      requires Valid()
      modifies this`addingComplete, signal
      ensures Valid() && addingComplete && signal.items == old(signal.items) + [Some(info)]
      ensures |promises| == |plan| ==>
                View(Returned) == FinishAdding(Config(plan), old(View(Registering(|plan|))), info)
    {
      addingComplete := true;
      signal.Notify(Some(info));
    }

    method Fail(outcome: Outcome) returns (result: Outcome)
      requires Valid() && promise == None && !alreadyProcessed && !outcome.Completed?
      modifies this`promise, signal
      ensures Valid() && Failed() && promise == Some(outcome) && result == outcome
      ensures signal.items == old(signal.items) + [Some(info)]
      ensures var e := if outcome.Raised? then InsertThrows(info) else InsertRefused(info);
              View(FailReturned) == ClientNext(Config(plan), ClientNext(Config(plan), old(View(Inserting)), e), NotifyFailed(info))
    {
      promise := Some(outcome);
      signal.Notify(Some(info));
      return outcome;
    }

    method ShouldUpdate() returns (ready: bool)
      requires Valid()
      ensures ready <==> Ready() == Registered()
      ensures forall client :: ready <==> AllReady(View(client))
    {
      var rest := executorResults.Keys;
      while rest != {}
        invariant rest <= executorResults.Keys
        invariant forall x | x in executorResults && x !in rest :: promises[executorResults[x]].Some?
        decreases rest
      {
        var x :| x in rest;
        rest := rest - {x};
        if promises[executorResults[x]].None? {
          assert executorResults[x] in Registered() && executorResults[x] !in Ready();
          return false;
        }
      }
      assert forall k | k in Registered() :: k in Ready();
      return true;
    }

    /** Reports the job's outcome once it is due. Unforced, nothing happens before adding is complete and every
        registered executor has answered; forced, whatever has been answered is reported, and then the rule for partial
        results is followed exactly when nobody is missing or some answer is itself not a full success. */
    method Update(force: bool) returns (done: bool)
      requires Valid() && !Failed()
      modifies this`alreadyProcessed, this`promise
      ensures Valid() && !Failed()
      ensures done <==> (addingComplete || force) && (old(alreadyProcessed) || force || Ready() == Registered())
      ensures done && !old(alreadyProcessed) ==>
                alreadyProcessed && promise.Some? && IsReduction(promises, Ready(), promise.value)
      ensures done && !old(alreadyProcessed) ==>
                && promise.value.Completed?
                && promise.value.completion ==
                   (if forall k | k in executorResults.Values && k < |promises| && promises[k].Some? ::
                         promises[k].value.completion == Succeeded
                    then Succeeded else SucceededPartially)
                && forall x ::
                     multiset(promise.value.scores)[x] ==
                     |set k: nat, i: nat | k in executorResults.Values && k < |promises| && promises[k].Some?
                       && promises[k].value.scores.Some? && i < |promises[k].value.scores.value|
                       && promises[k].value.scores.value[i] == x :: (k, i)|
      ensures !done || old(alreadyProcessed) ==> unchanged(this)
      ensures force && done && !old(alreadyProcessed) ==>
                (FollowsRule(promises, Registered(), Ready(), promise.value) <==>
                  Ready() == Registered() || exists k :: k in Ready() && promises[k].value.completion != Succeeded)
      ensures !force ==> UpdatedView(old(View(Returned)), View(Returned))
    {
      if !addingComplete && !force { return false; }
      if alreadyProcessed { return true; }

      done := ReduceAndReport(force);
      if done { EveryScoreOfReady(promises, executorResults.Values, Ready(), promise.value); }
      if force { ForcedRule(promises, Registered(), Ready(), promise.value); }
    }

    // The part of update() behind its two tests.
    method ReduceAndReport(force: bool) returns (done: bool)
      requires Valid() && !alreadyProcessed && promise == None && (addingComplete || force)
      modifies this`alreadyProcessed, this`promise
      ensures Valid() && (done <==> force || Ready() == Registered())
      ensures done ==> alreadyProcessed && promise.Some? && IsReduction(promises, Ready(), promise.value)
      ensures !done ==> unchanged(this)
      ensures !force ==> UpdatedView(old(View(Returned)), View(Returned))
    {
      var results, complete := Gather(force);
      if !complete && !force { return false; }
      var scores, completion, order := Reduce(results, !complete && !force);
      Report(Completed(completion, scores), order);
      return true;
    }

    method Report(outcome: Outcome, ghost order: seq<nat>)
      requires Valid() && !alreadyProcessed && promise == None && outcome.Completed?
      requires Enumerates(order, Ready()) && outcome == Aggregate(Select(promises, order))
      modifies this`alreadyProcessed, this`promise
      ensures Valid() && alreadyProcessed && promise == Some(outcome)
      ensures addingComplete && Ready() == Registered() ==> UpdatedView(old(View(Returned)), View(Returned))
    {
      ghost var before := View(Returned);
      SameSelection(before.calls, promises, order);
      promise := Some(outcome);
      alreadyProcessed := true;
      assert View(Returned) == MarkIn(PublishIn(before, outcome));
    }

    // The answers that are there, and whether an unforced update finds one missing.
    method Gather(force: bool) returns (results: set<nat>, complete: bool)
      requires Valid()
      ensures results == Ready() && (complete <==> force || Ready() == Registered())
    {
      results := {};
      var unprocessed: set<Instance> := {};
      var rest := executorResults.Keys;
      while rest != {}
        invariant rest <= executorResults.Keys
        invariant forall k :: k in results <==>
                    k in Ready() && exists x :: x in executorResults && x !in rest && executorResults[x] == k
        invariant forall x :: x in unprocessed <==>
                    x in executorResults && x !in rest && promises[executorResults[x]].None? && !force
        decreases rest
      {
        var x :| x in rest;
        rest := rest - {x};
        if promises[executorResults[x]].Some? {
          results := results + {executorResults[x]};
          assert executorResults[x] in Ready();
          continue;
        }
        if !force {
          unprocessed := unprocessed + {x};
        }
      }
      complete := unprocessed == {};
      if !complete {
        var x :| x in unprocessed;
        assert executorResults[x] in Registered() && executorResults[x] !in Ready();
      } else if !force {
        forall k | k in Registered() ensures k in Ready() {
          var x :| x in executorResults && executorResults[x] == k;
          assert x !in unprocessed;
        }
      }
    }

    // Feeds the gathered answers to the reducer, in whatever order the hash set yields them.
    method Reduce(results: set<nat>, partial: bool)
      returns (scores: seq<Scores.Score>, completion: Completion, ghost order: seq<nat>)
      requires !partial && forall k | k in results :: k < |promises| && promises[k].Some?
      ensures Enumerates(order, results) && Completed(completion, scores) == Aggregate(Select(promises, order))
      ensures IsReduction(promises, results, Completed(completion, scores))
      ensures completion == Succeeded <==> forall k | k in results :: promises[k].value.completion == Succeeded
      ensures forall x ::
                multiset(scores)[x] ==
                |set k: nat, i: nat | k in results && k < |promises| && promises[k].Some? && promises[k].value.scores.Some?
                  && i < |promises[k].value.scores.value| && promises[k].value.scores.value[i] == x :: (k, i)|
    {
      scores, order := [], [];
      var partialResults := partial;
      var rest := results;
      while rest != {}
        invariant rest <= results && Enumerates(order, results - rest)
        invariant scores == ConcatScores(Select(promises, order))
        invariant partialResults <==> !AllSucceeded(Select(promises, order))
        decreases rest
      {
        var k :| k in rest;
        rest := rest - {k};
        var answer := promises[k].value;
        SelectSnoc(promises, order, k);
        order := order + [k];
        match answer.completion {
          case Succeeded =>
          case _ => partialResults := true;
        }
        if answer.scores.None? { continue; }
        scores := scores + answer.scores.value;
      }
      assert results - rest == results;
      completion := if partialResults then SucceededPartially else Succeeded;
      BagIsOrderIndependent(promises, order, results);
      SuccessIsOrderIndependent(promises, order, results);
      EveryScoreIsReported(promises, results, Completed(completion, scores));
    }
  }

  // Every score is reported as often as it stands in the answers that are there.
  ghost predicate ReportsScores(promises: seq<Option<Answer>>, registered: set<nat>, scores: seq<Scores.Score>) {
    forall x ::
      multiset(scores)[x] ==
      |set k: nat, i: nat | k in registered && k < |promises| && promises[k].Some? && promises[k].value.scores.Some?
        && i < |promises[k].value.scores.value| && promises[k].value.scores.value[i] == x :: (k, i)|
  }

  // Only the answers that are there have scores to report.
  lemma EveryScoreOfReady(promises: seq<Option<Answer>>, registered: set<nat>, ready: set<nat>, outcome: Outcome)
    requires IsReduction(promises, ready, outcome)
    requires ready == set k | k in registered && k < |promises| && promises[k].Some?
    ensures ReportsScores(promises, registered, outcome.scores)
  {
    EveryScoreIsReported(promises, ready, outcome);
    forall x {:trigger multiset(outcome.scores)[x]}
      ensures multiset(outcome.scores)[x] == |Spots(promises, registered, |promises|, x)|
    {
      assert Spots(promises, registered, |promises|, x) == Spots(promises, ready, |promises|, x);
    }
  }

  // A forced update forgets that executors are missing.
  lemma ForcedRule(promises: seq<Option<Answer>>, registered: set<nat>, ready: set<nat>, outcome: Outcome)
    requires IsReduction(promises, ready, outcome) && ready <= registered
    ensures FollowsRule(promises, registered, ready, outcome) <==>
              ready == registered || exists k :: k in ready && promises[k].value.completion != Succeeded
  {
  }

  lemma SelectSnoc(promises: seq<Option<Answer>>, order: seq<nat>, k: nat)
    requires k < |promises| && promises[k].Some? && forall i | i in order :: i < |promises| && promises[i].Some?
    ensures forall i | i in order + [k] :: i < |promises| && promises[i].Some?
    ensures Select(promises, order + [k]) == Select(promises, order) + [promises[k].value]
    ensures ConcatScores(Select(promises, order + [k])) == ConcatScores(Select(promises, order)) + ScoresOf(promises[k].value)
    ensures AllSucceeded(Select(promises, order + [k]))
            <==> AllSucceeded(Select(promises, order)) && promises[k].value.completion == Succeeded
  {
    var all, front := Select(promises, order + [k]), Select(promises, order);
    assert all == front + [promises[k].value];
    assert all[..|all| - 1] == front;
  }

  // What an unforced update does to a job is what the update thread does to it in the step system.
  ghost predicate UpdatedView(before: Job, after: Job) {
    if !before.addingComplete || !MayReport(before) then after == before
    else exists order ::
           && Enumerates(order, before.results.Values)
           && (forall k | k in order :: k < |before.calls| && before.calls[k].Ready())
           && after == MarkIn(PublishIn(before, Aggregate(Select(Answers(before.calls), order))))
  }

  lemma SameSelection(calls: seq<Call>, promises: seq<Option<Answer>>, order: seq<nat>)
    requires forall k | k in order ::
               k < |promises| && k < |calls| && promises[k].Some? && calls[k] == Notified(promises[k].value)
    ensures Select(Answers(calls), order) == Select(promises, order)
  {
    forall i | 0 <= i < |order| ensures Select(Answers(calls), order)[i] == Select(promises, order)[i] {
      assert order[i] in order;
    }
  }

  // The job after the first n executors of the configuration had it handed over.
  function Handed(c: Config, j: JobId, throws: set<nat>, n: nat): (job: Job)
    requires n <= |c.executors|
    ensures job.client == Registering(n) && |job.calls| == |c.executors|
  {
    if n == 0 then Job(Registering(0), map[], seq(|c.executors|, _ => NotStarted), {}, false, false, [])
    else HandOver(c, Handed(c, j, throws, n - 1), j, n - 1 in throws)
  }

  ghost predicate FirstOf(c: Config, throws: set<nat>, k: nat) {
    k < |c.executors| && k !in throws && forall i | 0 <= i < k :: c.executors[i] == c.executors[k] ==> i in throws
  }

  // The tracker keeps the future of the first executor of each instance whose insertion does not throw.
  lemma {:induction false} HandedRegistered(c: Config, j: JobId, throws: set<nat>, n: nat)
    requires n <= |c.executors|
    ensures forall x | x in Handed(c, j, throws, n).results ::
              var k := Handed(c, j, throws, n).results[x]; k < n && c.executors[k] == x && FirstOf(c, throws, k)
    ensures forall k: nat :: k in Handed(c, j, throws, n).results.Values <==> k < n && FirstOf(c, throws, k)
  {
    if n > 0 {
      HandedRegistered(c, j, throws, n - 1);
      HandedNext(c, throws, n - 1, Handed(c, j, throws, n - 1).results, Handed(c, j, throws, n).results);
    }
  }

  lemma HandedNext(c: Config, throws: set<nat>, n: nat, before: map<Instance, nat>, after: map<Instance, nat>)
    requires n < |c.executors|
    requires forall x | x in before :: before[x] < n && c.executors[before[x]] == x && FirstOf(c, throws, before[x])
    requires forall k: nat :: k in before.Values <==> k < n && FirstOf(c, throws, k)
    requires after == if n in throws || c.executors[n] in before then before else before[c.executors[n] := n]
    ensures forall x | x in after :: after[x] < n + 1 && c.executors[after[x]] == x && FirstOf(c, throws, after[x])
    ensures forall k: nat :: k in after.Values <==> k < n + 1 && FirstOf(c, throws, k)
  {
    FirstIfFree(c, throws, n, before);
    forall k: nat ensures k in after.Values <==> k < n + 1 && FirstOf(c, throws, k) {
      if k < n + 1 && FirstOf(c, throws, k) {
        if k == n { assert after[c.executors[k]] == k; }
        else { var x :| x in before && before[x] == k; assert after[x] == k; }
      }
    }
  }

  lemma {:induction false} HandedRefused(c: Config, j: JobId, throws: set<nat>, n: nat)
    requires n <= |c.executors|
    ensures forall k: nat :: k in Handed(c, j, throws, n).refused <==> k < n && k in throws
  {
    if n > 0 { HandedRefused(c, j, throws, n - 1); }
  }

  lemma FirstIfFree(c: Config, throws: set<nat>, n: nat, results: map<Instance, nat>)
    requires n < |c.executors|
    requires forall x | x in results :: results[x] < n && c.executors[results[x]] == x && FirstOf(c, throws, results[x])
    requires forall k: nat :: k in results.Values <==> k < n && FirstOf(c, throws, k)
    ensures FirstOf(c, throws, n) <==> n !in throws && c.executors[n] !in results
  {
    var x := c.executors[n];
    if x in results { assert results[x] !in throws; }
    if n !in throws && x !in results {
      forall i | 0 <= i < n && c.executors[i] == x ensures i in throws { EarliestThrows(c, throws, i, results); }
    }
  }

  // Of an instance without an entry every executor so far threw.
  lemma {:induction false} EarliestThrows(c: Config, throws: set<nat>, i: nat, results: map<Instance, nat>)
    requires i < |c.executors| && c.executors[i] !in results
    requires forall x | x in results :: results[x] < |c.executors| && c.executors[results[x]] == x
    requires FirstOf(c, throws, i) ==> i in results.Values
    requires forall k | 0 <= k < i :: FirstOf(c, throws, k) ==> k in results.Values
    ensures i in throws
  {
    forall k | 0 <= k < i && c.executors[k] == c.executors[i] ensures k in throws {
      EarliestThrows(c, throws, k, results);
    }
    assert forall x | x in results :: results[x] != i;
  }

  // The job when query() returns.
  function HandedOver(c: Config, j: JobId, throws: set<nat>): Job {
    FinishAdding(c, Handed(c, j, throws, |c.executors|), j)
  }

  /** One registered executor that has not answered: a forced update reports success although the rule calls for a
      partial result. */
  method ForcedUpdateBreaksRule(info: JobId, signal: SignalQueue, instance: Instance) returns (tracker: JobTracker)
    modifies signal
    ensures fresh(tracker) && tracker.Valid() && tracker.addingComplete && tracker.alreadyProcessed
    ensures tracker.Registered() == {0} && tracker.promises == [None] && tracker.promise == Some(Completed(Succeeded, []))
    ensures !FollowsRule(tracker.promises, tracker.Registered(), tracker.Ready(), tracker.promise.value)
  {
    tracker := new JobTracker(info, signal, [instance]);
    var called := tracker.ProcessOn(instance, false);
    tracker.CompleteAdding();
    assert tracker.executorResults == map[instance := 0];
    assert tracker.Registered() == {0} && tracker.Ready() == {};
    var done := tracker.Update(true);
    UnionEmpty(ScoreBags(tracker.promises), 1);
    assert |multiset(tracker.promise.value.scores)| == 0;
    assert 0 in tracker.Registered() && 0 !in tracker.Ready();
  }

  class JobCoordinator {
    const signal: SignalQueue
    var jobs: map<JobId, JobTracker>

    ghost predicate Valid()
      reads this, jobs.Values
    {
      && (forall i, j | i in jobs && j in jobs :: jobs[i] == jobs[j] ==> i == j)
      && (forall j | j in jobs :: jobs[j].info == j && jobs[j].signal == signal && jobs[j].Valid() && !jobs[j].Failed())
    }

    constructor (signal: SignalQueue)
      ensures Valid() && jobs == map[] && this.signal == signal
    {
      this.signal := signal;
      jobs := map[];
    }

    /** A query. The insertion into the job table may throw, and fails if the job is in the table already; then the
        tracker fails, the table stays as it is, and the dying tracker announces the job a second time. Otherwise the job
        is handed to every executor in turn and adding is completed: `throws` holds the executors whose insertion into
        the tracker's table throws. */
    method Query(info: JobId, executors: seq<Instance>, throws: set<nat>, insertThrows: bool)
      returns (tracker: JobTracker, failure: Option<Outcome>)
      requires Valid()
      modifies this, signal
      ensures Valid() && fresh(tracker) && tracker.plan == executors && forall t | t in old(jobs.Values) :: unchanged(t)
      ensures failure == if insertThrows then Some(Raised) else if info in old(jobs) then Some(UnableToStart) else None
      ensures failure.Some? ==>
                && jobs == old(jobs) && tracker.promise == failure && tracker.promises == []
                && signal.items == old(signal.items) + [Some(info), Some(info)]
      ensures failure.None? ==>
                && jobs == old(jobs)[info := tracker] && signal.items == old(signal.items) + [Some(info)]
                && tracker.addingComplete && |tracker.promises| == |executors| && tracker.promise == None
                && tracker.View(Returned) == HandedOver(Config(executors), info, throws)
      ensures failure.None? ==> forall k: nat :: k in tracker.executorResults.Values <==>
                k < |executors| && k !in throws && forall i | 0 <= i < k :: executors[i] == executors[k] ==> i in throws
      ensures failure.None? ==> forall k: nat :: k in tracker.raised <==> k < |executors| && k in throws
    {
      tracker := new JobTracker(info, signal, executors);
      if insertThrows || info in jobs {
        var outcome := tracker.Fail(if insertThrows then Raised else UnableToStart);
        tracker.Destroy();
        return tracker, Some(outcome);
      }
      jobs := jobs[info := tracker];
      HandToAll(tracker, executors, throws);
      failure := None;
    }

    method HandToAll(tracker: JobTracker, executors: seq<Instance>, throws: set<nat>)
      requires tracker.Valid() && !tracker.Failed() && tracker.plan == executors && tracker.promise == None
      requires tracker.promises == [] && tracker.executorResults == map[] && tracker.raised == {}
      requires !tracker.addingComplete && !tracker.alreadyProcessed
      modifies tracker, tracker.signal
      ensures tracker.Valid() && !tracker.Failed() && tracker.promise == None && tracker.addingComplete
      ensures |tracker.promises| == |executors| && tracker.signal.items == old(tracker.signal.items) + [Some(tracker.info)]
      ensures tracker.View(Returned) == HandedOver(Config(executors), tracker.info, throws)
      ensures forall k: nat :: k in tracker.executorResults.Values <==>
                k < |executors| && k !in throws && forall i | 0 <= i < k :: executors[i] == executors[k] ==> i in throws
      ensures forall k: nat :: k in tracker.raised <==> k < |executors| && k in throws
    {
      AddExecutors(tracker, executors, throws);
      HandedRefused(Config(executors), tracker.info, throws, |executors|);
      assert tracker.raised == tracker.View(Registering(|executors|)).refused;
      assert forall k: nat :: k in tracker.executorResults.Values <==> FirstOf(Config(executors), throws, k);
      tracker.CompleteAdding();
    }

    method AddExecutors(tracker: JobTracker, executors: seq<Instance>, throws: set<nat>)
      requires tracker.Valid() && !tracker.Failed() && tracker.plan == executors && tracker.promise == None
      requires tracker.promises == [] && tracker.executorResults == map[] && tracker.raised == {}
      requires !tracker.addingComplete && !tracker.alreadyProcessed
      modifies tracker
      ensures tracker.Valid() && !tracker.Failed() && tracker.promise == None && !tracker.addingComplete
      ensures |tracker.promises| == |executors|
      ensures tracker.View(Registering(|executors|)) == Handed(Config(executors), tracker.info, throws, |executors|)
      ensures forall k: nat :: k in tracker.Registered() <==> FirstOf(Config(executors), throws, k)
    {
      assert tracker.View(Registering(0)) == Handed(Config(executors), tracker.info, throws, 0);
      for n := 0 to |executors|
        invariant tracker.Valid() && !tracker.Failed() && tracker.promise == None && !tracker.addingComplete
        invariant |tracker.promises| == n && tracker.View(Registering(n)) == Handed(Config(executors), tracker.info, throws, n)
      {
        var _ := tracker.ProcessOn(executors[n], n in throws);
      }
      HandedRegistered(Config(executors), tracker.info, throws, |executors|);
    }

    // The first half of a pass, under the read lock: the trackers of the batch whose executors have all answered.
    method SelectTrackers(infos: seq<JobId>) returns (trackersToUpdate: set<JobTracker>)
      requires Valid()
      ensures forall t :: t in trackersToUpdate <==>
                t in jobs.Values && t.info in infos && t.Ready() == t.Registered()
    {
      trackersToUpdate := {};
      for i := 0 to |infos|
        invariant forall t :: t in trackersToUpdate <==>
                    t in jobs.Values && t.info in infos[..i] && t.Ready() == t.Registered()
      {
        if infos[i] !in jobs { continue; }  // the lookup throws, and the exception is ignored
        var tracker := jobs[infos[i]];
        var ready := tracker.ShouldUpdate();
        if !ready { continue; }
        trackersToUpdate := trackersToUpdate + {tracker};
      }
    }

    // A tracker completed by this pass, or one left exactly as it was.
    twostate predicate CompletedOrSame(t: JobTracker, complete: bool)
      reads t
    {
      && unchanged(t`executorResults) && unchanged(t`promises) && unchanged(t`addingComplete)
      && (if complete
          then t.alreadyProcessed && t.promise.Some? && IsReduction(t.promises, t.Registered(), t.promise.value)
          else unchanged(t))
    }

    method UpdateOne(tracker: JobTracker)
      requires tracker.Valid() && !tracker.Failed() && tracker.Ready() == tracker.Registered()
      modifies tracker
      ensures tracker.Valid() && !tracker.Failed()
      ensures CompletedOrSame(tracker, old(tracker.addingComplete && !tracker.alreadyProcessed))
    {
      var _ := tracker.Update(false);
    }

    // The second half of a pass: the selected trackers, in whatever order the hash set yields them.
    method UpdateEach(trackers: set<JobTracker>)
      requires forall t | t in trackers :: t.Valid() && !t.Failed() && t.Ready() == t.Registered()
      modifies trackers
      ensures forall t | t in trackers :: t.Valid() && !t.Failed()
      ensures forall t | t in trackers :: CompletedOrSame(t, old(t.addingComplete && !t.alreadyProcessed))
    {
      var rest := trackers;
      while rest != {}
        invariant rest <= trackers
        invariant forall t | t in rest :: unchanged(t)
        invariant forall t | t in trackers && t !in rest ::
                    t.Valid() && !t.Failed() && CompletedOrSame(t, old(t.addingComplete && !t.alreadyProcessed))
        decreases rest
      {
        var tracker :| tracker in rest;
        rest := rest - {tracker};
        UpdateOne(tracker);
      }
    }

    /** One pass of the update thread over a batch it dequeued: exactly the jobs of the batch that are due are
        completed, each with the reduction of all its registered executors' answers. */
    method UpdatePass(infos: seq<JobId>)
      requires Valid()
      modifies jobs.Values
      ensures Valid() && unchanged(this)
      ensures forall t | t in jobs.Values ::
                CompletedOrSame(t, t.info in infos && old(t.addingComplete && t.Ready() == t.Registered() && !t.alreadyProcessed))
      ensures forall t, x | t in jobs.Values && t.alreadyProcessed && !old(t.alreadyProcessed) ::
                t.promise.Some? && t.promise.value.Completed? && multiset(t.promise.value.scores)[x] ==
                |set k: nat, i: nat | k in t.executorResults.Values
                  && k < |t.promises| && t.promises[k].Some? && t.promises[k].value.scores.Some?
                  && i < |t.promises[k].value.scores.value| && t.promises[k].value.scores.value[i] == x :: (k, i)|
    {
      var trackersToUpdate := SelectTrackers(infos);
      UpdateEach(trackersToUpdate);
      forall t, x | t in jobs.Values && t.alreadyProcessed && !old(t.alreadyProcessed)
        ensures t.promise.Some? && t.promise.value.Completed? && multiset(t.promise.value.scores)[x] ==
          |set k: nat, i: nat | k in t.executorResults.Values
            && k < |t.promises| && t.promises[k].Some? && t.promises[k].value.scores.Some?
            && i < |t.promises[k].value.scores.value| && t.promises[k].value.scores.value[i] == x :: (k, i)|
      {
        EveryScoreIsReported(t.promises, t.Registered(), t.promise.value);
      }
    }
  }
}
