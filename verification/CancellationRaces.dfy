/**
  Tokens created while their source is being canceled: any number of create_token() and cancel() calls on one
  source, interleaved action by action. Each creator makes one token, so tokens carry their creator's number.
 */
module CreateCancelRace {
  datatype Creator =
    | Ready
    | Made        // token constructed from a first look at the signal, not registered yet
    | Registered  // second look at the signal still to come
    | Rechecked   // saw the signal, about to cancel its own token
    | Returned

  datatype Canceller =
    | Waiting
    | Won               // its exchange set the signal
    | Visiting(pos: nat)  // holds the read lock, the tokens before `pos` are done
    | Visited
    | Done(won: bool)

  datatype State = State(
    signal: bool,
    creators: seq<Creator>,
    cancellers: seq<Canceller>,
    tokens: seq<nat>,       // the source's list of weak pointers
    canceled: set<nat>,
    dropped: set<nat>)      // tokens that no longer exist

  datatype Event =
    | Make(i: nat)
    | RegisterToken(i: nat)
    | Recheck(i: nat)
    | CancelOwn(i: nat)
    | Drop(i: nat)
    | Exchange(k: nat)
    | Lock(k: nat)
    | Visit(k: nat)
    | Unlock(k: nat)
    | Purge(k: nat)

  predicate ByCreator(e: Event) { e.Make? || e.RegisterToken? || e.Recheck? || e.CancelOwn? || e.Drop? }

  predicate ReadLocked(s: State) {
    exists k | 0 <= k < |s.cancellers| :: s.cancellers[k].Visiting?
  }

  predicate Enabled(s: State, e: Event) {
    if ByCreator(e) then
      && e.i < |s.creators|
      && (match e
          case Make(i) => s.creators[i].Ready?
          case RegisterToken(i) => s.creators[i].Made? && !ReadLocked(s)
          case Recheck(i) => s.creators[i].Registered?
          case CancelOwn(i) => s.creators[i].Rechecked?
          case Drop(i) => s.creators[i].Returned?)
    else
      && e.k < |s.cancellers|
      && (match e
          case Exchange(k) => s.cancellers[k].Waiting?
          case Lock(k) => s.cancellers[k].Won?
          case Visit(k) => s.cancellers[k].Visiting? && s.cancellers[k].pos < |s.tokens|
          case Unlock(k) => s.cancellers[k].Visiting? && s.cancellers[k].pos == |s.tokens|
          case Purge(k) => s.cancellers[k].Visited? && !ReadLocked(s))
  }

  // remove_if followed by erase: the tokens that still exist, in their order.
  function Existing(tokens: seq<nat>, dropped: set<nat>): (r: seq<nat>)
    ensures forall t :: t in r <==> t in tokens && t !in dropped
  {
    if tokens == [] then []
    else
      var front := Existing(tokens[..|tokens| - 1], dropped);
      if tokens[|tokens| - 1] in dropped then front else front + [tokens[|tokens| - 1]]
  }

  function Next(s: State, e: Event): State
    requires Enabled(s, e)
  {
    match e
    case Make(i) =>
      s.(creators := s.creators[i := Made], canceled := if s.signal then s.canceled + {i} else s.canceled)
    case RegisterToken(i) => s.(creators := s.creators[i := Registered], tokens := s.tokens + [i])
    case Recheck(i) => s.(creators := s.creators[i := if s.signal then Rechecked else Returned])
    case CancelOwn(i) => s.(creators := s.creators[i := Returned], canceled := s.canceled + {i})
    case Drop(i) => s.(dropped := s.dropped + {i})
    case Exchange(k) =>
      if s.signal then s.(cancellers := s.cancellers[k := Done(false)])
      else s.(cancellers := s.cancellers[k := Won], signal := true)
    case Lock(k) => s.(cancellers := s.cancellers[k := Visiting(0)])
    case Visit(k) =>
      var pos := s.cancellers[k].pos;
      s.(cancellers := s.cancellers[k := Visiting(pos + 1)],
         canceled := if s.tokens[pos] in s.dropped then s.canceled else s.canceled + {s.tokens[pos]})
    case Unlock(k) => s.(cancellers := s.cancellers[k := Visited])
    case Purge(k) => s.(cancellers := s.cancellers[k := Done(true)], tokens := Existing(s.tokens, s.dropped))
  }

  // The source may have been constructed canceled.
  predicate Init(s: State) {
    && (forall i | 0 <= i < |s.creators| :: s.creators[i].Ready?)
    && (forall k | 0 <= k < |s.cancellers| :: s.cancellers[k].Waiting?)
    && s.tokens == [] && s.canceled == {} && s.dropped == {}
  }

  predicate PossibleAll(s: State, events: seq<Event>)
    decreases |events|
  {
    events == [] || (Enabled(s, events[0]) && PossibleAll(Next(s, events[0]), events[1..]))
  }

  function After(s: State, events: seq<Event>): State
    requires PossibleAll(s, events)
    decreases |events|
  {
    if events == [] then s else After(Next(s, events[0]), events[1..])
  }

  predicate InList(c: Creator) { c.Registered? || c.Rechecked? || c.Returned? }

  // The canceller k is still going to visit token i.
  predicate WillVisit(s: State, k: nat, i: nat) {
    k < |s.cancellers| &&
    match s.cancellers[k]
    case Won => i in s.tokens
    case Visiting(pos) => pos <= |s.tokens| && i in s.tokens[pos..]
    case _ => false
  }

  ghost predicate Inv(s: State) {
    && (forall t | t in s.tokens :: t < |s.creators| && InList(s.creators[t]))
    && (forall i | 0 <= i < |s.creators| && InList(s.creators[i]) && i !in s.dropped :: i in s.tokens)
    && (forall k | 0 <= k < |s.cancellers| && !s.cancellers[k].Waiting? :: s.signal)
    && (forall k | 0 <= k < |s.cancellers| && s.cancellers[k].Visiting? :: s.cancellers[k].pos <= |s.tokens|)
    && (forall i | i in s.canceled :: s.signal)
    && (s.signal ==> forall i | 0 <= i < |s.creators| && s.creators[i].Returned? && i !in s.dropped ::
          i in s.canceled || exists k :: WillVisit(s, k, i))
    && (forall i | 0 <= i < |s.creators| && s.creators[i].Rechecked? :: s.signal)
  }

  lemma CreatorStep(s: State, e: Event)
    requires Inv(s) && Enabled(s, e) && ByCreator(e)
    ensures Inv(Next(s, e))
  {
    var t := Next(s, e);
    if t.signal {
      forall i | 0 <= i < |t.creators| && t.creators[i].Returned? && i !in t.dropped
        ensures i in t.canceled || exists k :: WillVisit(t, k, i)
      {
        if i != e.i || e.Drop? {
          if k :| WillVisit(s, k, i) { assert WillVisit(t, k, i); }
        }
      }
    }
  }

  lemma ExchangeStep(s: State, e: Event)
    requires Inv(s) && Enabled(s, e) && e.Exchange?
    ensures Inv(Next(s, e))
  {
    var t := Next(s, e);
    forall i | 0 <= i < |t.creators| && t.creators[i].Returned? && i !in t.dropped
      ensures i in t.canceled || exists k :: WillVisit(t, k, i)
    {
      if s.signal {
        if k :| WillVisit(s, k, i) { assert WillVisit(t, k, i); }
      } else {
        assert WillVisit(t, e.k, i);
      }
    }
  }

  lemma CancellerStep(s: State, e: Event)
    requires Inv(s) && Enabled(s, e) && !ByCreator(e) && !e.Exchange?
    ensures Inv(Next(s, e))
  {
    var t := Next(s, e);
    forall i | 0 <= i < |t.creators| && t.creators[i].Returned? && i !in t.dropped
      ensures i in t.canceled || exists k :: WillVisit(t, k, i)
    {
      if k :| WillVisit(s, k, i) {
        if k != e.k || i !in t.canceled { assert WillVisit(t, k, i); }
      }
    }
  }

  lemma StepInv(s: State, e: Event)
    requires Inv(s) && Enabled(s, e)
    ensures Inv(Next(s, e))
  {
    if ByCreator(e) { CreatorStep(s, e); } else if e.Exchange? { ExchangeStep(s, e); } else { CancellerStep(s, e); }
  }

  lemma {:induction false} RunInv(s: State, events: seq<Event>)
    requires Inv(s) && PossibleAll(s, events)
    ensures Inv(After(s, events))
    decreases |events|
  {
    if events != [] {
      StepInv(s, events[0]);
      RunInv(Next(s, events[0]), events[1..]);
    }
  }

  // The tokens that no longer exist are those that were dropped in the run.
  lemma {:induction false} DroppedInRun(s: State, events: seq<Event>)
    requires PossibleAll(s, events)
    ensures forall i :: i in After(s, events).dropped <==> i in s.dropped || Drop(i) in events
    decreases |events|
  {
    if events != [] {
      DroppedInRun(Next(s, events[0]), events[1..]);
      assert events == [events[0]] + events[1..];
    }
  }

  // A cancellation ends by taking the dropped tokens off the list, and no others.
  lemma PurgeTakesDroppedOff(s0: State, events: seq<Event>, k: nat)
    requires Init(s0) && PossibleAll(s0, events) && Enabled(After(s0, events), Purge(k))
    ensures forall t :: t in Next(After(s0, events), Purge(k)).tokens <==>
              t in After(s0, events).tokens && Drop(t) !in events
  {
    DroppedInRun(s0, events);
  }

  /** In every interleaving: a token is canceled only if its source was; and once the cancel() call that set the
      signal is past its visit, every existing token whose create_token() returned is canceled. */
  lemma RaceIsClosed(s0: State, events: seq<Event>, i: nat)
    requires Init(s0) && PossibleAll(s0, events)
    requires i < |After(s0, events).creators| && After(s0, events).creators[i].Returned? && Drop(i) !in events
    ensures var s := After(s0, events);
            && (i in s.canceled ==> s.signal)
            && (s.signal && i !in s.canceled ==>
                  exists k | 0 <= k < |s.cancellers| :: s.cancellers[k].Won? || s.cancellers[k].Visiting?)
  {
    RunInv(s0, events);
    DroppedInRun(s0, events);
    var s := After(s0, events);
    if s.signal && i !in s.canceled {
      var k: nat :| WillVisit(s, k, i);
      assert s.cancellers[k].Won? || s.cancellers[k].Visiting?;
    }
  }

  // When every call has returned, the tokens that exist are canceled exactly if the source is.
  lemma OnceAllHaveReturned(s0: State, events: seq<Event>)
    requires Init(s0) && PossibleAll(s0, events)
    requires var s := After(s0, events);
             forall k | 0 <= k < |s.cancellers| :: s.cancellers[k].Waiting? || s.cancellers[k].Done?
    ensures var s := After(s0, events);
            forall i | 0 <= i < |s.creators| && s.creators[i].Returned? && Drop(i) !in events :: i in s.canceled <==> s.signal
  {
    var s := After(s0, events);
    forall i | 0 <= i < |s.creators| && s.creators[i].Returned? && Drop(i) !in events ensures i in s.canceled <==> s.signal {
      RaceIsClosed(s0, events, i);
    }
  }

  // A second cancel() returns at once, possibly before the first has canceled anything.
  lemma LoserReturnsEarly()
    ensures var s0 := State(false, [Ready], [Waiting, Waiting], [], {}, {});
            var events := [Make(0), RegisterToken(0), Recheck(0), Exchange(0), Exchange(1)];
            && Init(s0) && PossibleAll(s0, events)
            && var s := After(s0, events);
               s.cancellers[1] == Done(false) && s.creators[0].Returned? && 0 !in s.canceled && 0 !in s.dropped
  {
    var s0 := State(false, [Ready], [Waiting, Waiting], [], {}, {});
    var s1 := Next(s0, Make(0));
    var s2 := Next(s1, RegisterToken(0));
    var s3 := Next(s2, Recheck(0));
    var s4 := Next(s3, Exchange(0));
    var s5 := Next(s4, Exchange(1));
    var e5: seq<Event> := [];
    var e4 := [Exchange(1)];
    var e3 := [Exchange(0), Exchange(1)];
    var e2 := [Recheck(0), Exchange(0), Exchange(1)];
    var e1 := [RegisterToken(0), Recheck(0), Exchange(0), Exchange(1)];
    assert e4[1..] == e5 && e3[1..] == e4 && e2[1..] == e3 && e1[1..] == e2;
    assert [Make(0), RegisterToken(0), Recheck(0), Exchange(0), Exchange(1)][1..] == e1;
    assert PossibleAll(s4, e4) && After(s4, e4) == s5;
    assert PossibleAll(s3, e3) && After(s3, e3) == s5;
    assert PossibleAll(s2, e2) && After(s2, e2) == s5;
    assert PossibleAll(s1, e1) && After(s1, e1) == s5;
  }
}

/**
  register_callback() looks at the signal before it takes the lock, as the source has it: the look and the
  insertion are separate actions, and a cancellation fits between them.
 */
module RegisterCancelRace {
  datatype Registrar =
    | Ready
    | Passed     // saw no signal, callback not inserted yet
    | Entered
    | RanAtOnce  // saw the signal

  datatype Canceller = Waiting | Won | Drained | Lost

  datatype State = State(
    signal: bool,
    registrars: seq<Registrar>,   // each registers one callback, which carries its number
    cancellers: seq<Canceller>,
    table: set<nat>,
    ran: multiset<nat>,
    late: set<nat>,               // callbacks inserted after a cancellation had emptied the table
    born: bool)                   // the token was constructed canceled

  datatype Event = Look(i: nat) | Insert(i: nat) | Exchange(k: nat) | Drain(k: nat)

  predicate Enabled(s: State, e: Event) {
    match e
    case Look(i) => i < |s.registrars| && s.registrars[i].Ready?
    case Insert(i) => i < |s.registrars| && s.registrars[i].Passed?
    case Exchange(k) => k < |s.cancellers| && s.cancellers[k].Waiting?
    case Drain(k) => k < |s.cancellers| && s.cancellers[k].Won?
  }

  predicate HasDrained(s: State) {
    exists k | 0 <= k < |s.cancellers| :: s.cancellers[k].Drained?
  }

  function Next(s: State, e: Event): State
    requires Enabled(s, e)
  {
    match e
    case Look(i) =>
      if s.signal then s.(registrars := s.registrars[i := RanAtOnce], ran := s.ran + multiset{i})
      else s.(registrars := s.registrars[i := Passed])
    case Insert(i) =>
      s.(registrars := s.registrars[i := Entered], table := s.table + {i},
         late := if HasDrained(s) then s.late + {i} else s.late)
    case Exchange(k) =>
      if s.signal then s.(cancellers := s.cancellers[k := Lost])
      else s.(cancellers := s.cancellers[k := Won], signal := true)
    case Drain(k) => s.(cancellers := s.cancellers[k := Drained], ran := s.ran + multiset(s.table), table := {})
  }

  predicate Init(s: State) {
    && (forall i | 0 <= i < |s.registrars| :: s.registrars[i].Ready?)
    && (forall k | 0 <= k < |s.cancellers| :: s.cancellers[k].Waiting?)
    && s.table == {} && s.ran == multiset{} && s.late == {} && s.signal == s.born
  }

  predicate PossibleAll(s: State, events: seq<Event>)
    decreases |events|
  {
    events == [] || (Enabled(s, events[0]) && PossibleAll(Next(s, events[0]), events[1..]))
  }

  function After(s: State, events: seq<Event>): State
    requires PossibleAll(s, events)
    decreases |events|
  {
    if events == [] then s else After(Next(s, events[0]), events[1..])
  }

  ghost predicate Inv(s: State) {
    && (forall k, l | 0 <= k < |s.cancellers| && 0 <= l < |s.cancellers| ::
          (s.cancellers[k].Won? || s.cancellers[k].Drained?) && (s.cancellers[l].Won? || s.cancellers[l].Drained?) ==> k == l)
    && (s.signal <==> s.born || exists k | 0 <= k < |s.cancellers| :: s.cancellers[k].Won? || s.cancellers[k].Drained?)
    && (s.born ==> forall k | 0 <= k < |s.cancellers| :: !s.cancellers[k].Won? && !s.cancellers[k].Drained?)
    && (s.born ==> forall i | 0 <= i < |s.registrars| :: !s.registrars[i].Passed? && !s.registrars[i].Entered?)
    && (forall i | i in s.table || i in s.ran || i in s.late :: i < |s.registrars|)
    && (forall i | 0 <= i < |s.registrars| ::
          && s.ran[i] <= 1
          && (s.registrars[i].Ready? || s.registrars[i].Passed? ==> s.ran[i] == 0 && i !in s.table && i !in s.late)
          && (s.registrars[i].RanAtOnce? ==> s.ran[i] == 1 && i !in s.table && i !in s.late && s.signal)
          && (s.registrars[i].Entered? ==>
                if i in s.late then i in s.table && s.ran[i] == 0 && HasDrained(s)
                else if HasDrained(s) then i !in s.table && s.ran[i] == 1
                else i in s.table && s.ran[i] == 0))
  }

  lemma RegistrarStep(s: State, e: Event)
    requires Inv(s) && Enabled(s, e) && (e.Look? || e.Insert?)
    ensures Inv(Next(s, e))
  {
    var t := Next(s, e);
    assert t.cancellers == s.cancellers && HasDrained(t) == HasDrained(s);
  }

  lemma ExchangeStep(s: State, e: Event)
    requires Inv(s) && Enabled(s, e) && e.Exchange?
    ensures Inv(Next(s, e))
  {
    var k, t := e.k, Next(s, e);
    if !s.signal { assert t.cancellers[k].Won?; }
    assert HasDrained(t) == HasDrained(s) by {
      if l :| 0 <= l < |s.cancellers| && s.cancellers[l].Drained? { assert t.cancellers[l].Drained?; }
    }
    if l :| 0 <= l < |s.cancellers| && (s.cancellers[l].Won? || s.cancellers[l].Drained?) {
      assert t.cancellers[l].Won? || t.cancellers[l].Drained?;
    }
  }

  lemma DrainStep(s: State, e: Event)
    requires Inv(s) && Enabled(s, e) && e.Drain?
    ensures Inv(Next(s, e))
  {
    var t := Next(s, e);
    assert t.cancellers[e.k].Drained?;
    assert !HasDrained(s);
  }

  lemma StepInv(s: State, e: Event)
    requires Inv(s) && Enabled(s, e)
    ensures Inv(Next(s, e))
  {
    match e
    case Look(_) => RegistrarStep(s, e);
    case Insert(_) => RegistrarStep(s, e);
    case Exchange(_) => ExchangeStep(s, e);
    case Drain(_) => DrainStep(s, e);
  }

  lemma {:induction false} RunInv(s: State, events: seq<Event>)
    requires Inv(s) && PossibleAll(s, events)
    ensures Inv(After(s, events))
    decreases |events|
  {
    if events != [] {
      StepInv(s, events[0]);
      RunInv(Next(s, events[0]), events[1..]);
    }
  }

  lemma {:induction false} LastStep(s: State, front: seq<Event>, last: Event)
    requires PossibleAll(s, front + [last])
    ensures PossibleAll(s, front) && Enabled(After(s, front), last)
    ensures After(s, front + [last]) == Next(After(s, front), last)
    decreases |front|
  {
    if front == [] {
      assert (front + [last])[1..] == [];
    } else {
      assert (front + [last])[1..] == front[1..] + [last];
      LastStep(Next(s, front[0]), front[1..], last);
    }
  }

  ghost predicate DrainIn(events: seq<Event>) {
    exists d | 0 <= d < |events| :: events[d].Drain?
  }

  // A cancellation empties the table before the registration inserts its callback.
  ghost predicate DrainBeforeInsert(events: seq<Event>, i: nat) {
    exists e | 0 <= e < |events| :: events[e] == Insert(i) && DrainIn(events[..e])
  }

  lemma DrainInSnoc(front: seq<Event>, last: Event)
    ensures DrainIn(front + [last]) <==> DrainIn(front) || last.Drain?
  {
    var all := front + [last];
    assert all[|front|] == last;
    if d :| 0 <= d < |front| && front[d].Drain? { assert all[d].Drain?; }
  }

  lemma LateSnoc(front: seq<Event>, last: Event, i: nat)
    ensures DrainBeforeInsert(front + [last], i) <==> DrainBeforeInsert(front, i) || (last == Insert(i) && DrainIn(front))
  {
    var all := front + [last];
    assert all[|front|] == last && all[..|front|] == front;
    if e :| 0 <= e < |front| && front[e] == Insert(i) && DrainIn(front[..e]) {
      assert all[e] == Insert(i) && all[..e] == front[..e];
    }
    if e :| 0 <= e < |all| && all[e] == Insert(i) && DrainIn(all[..e]) {
      if e < |front| { assert front[e] == Insert(i) && all[..e] == front[..e]; }
    }
  }

  lemma DrainedNext(s: State, e: Event)
    requires Enabled(s, e)
    ensures HasDrained(Next(s, e)) <==> HasDrained(s) || e.Drain?
  {
    var t := Next(s, e);
    if l :| 0 <= l < |s.cancellers| && s.cancellers[l].Drained? { assert t.cancellers[l].Drained?; }
    if e.Drain? { assert t.cancellers[e.k].Drained?; }
  }

  // What the history field records, said of the run alone.
  lemma {:induction false} LateMeansDrainBeforeInsert(s0: State, events: seq<Event>, i: nat)
    requires Init(s0) && PossibleAll(s0, events)
    ensures HasDrained(After(s0, events)) <==> DrainIn(events)
    ensures i in After(s0, events).late <==> DrainBeforeInsert(events, i)
    decreases |events|
  {
    if events != [] {
      var front, last := events[..|events| - 1], events[|events| - 1];
      assert events == front + [last];
      LastStep(s0, front, last);
      LateMeansDrainBeforeInsert(s0, front, i);
      DrainedNext(After(s0, front), last);
      DrainInSnoc(front, last);
      LateSnoc(front, last, i);
    }
  }

  /** In every interleaving a callback runs at most once. When the token was canceled and no call is under way, a
      registered callback was lost exactly if it was inserted after the cancellation had emptied the table. */
  lemma LostExactlyIfLate(s0: State, events: seq<Event>, i: nat)
    requires Init(s0) && PossibleAll(s0, events) && i < |After(s0, events).registrars|
    ensures After(s0, events).ran[i] <= 1
    ensures var s := After(s0, events);
            s.signal && (s.registrars[i].Entered? || s.registrars[i].RanAtOnce?) &&
            (forall k | 0 <= k < |s.cancellers| :: !s.cancellers[k].Won?)
            ==> (s.ran[i] == 0 <==> DrainBeforeInsert(events, i))
  {
    RunInv(s0, events);
    LateMeansDrainBeforeInsert(s0, events, i);
  }

  // The interleaving that loses a callback: look, cancel, insert.
  lemma CallbackIsLost()
    ensures var s0 := State(false, [Ready], [Waiting], {}, multiset{}, {}, false);
            var events := [Look(0), Exchange(0), Drain(0), Insert(0)];
            && Init(s0) && PossibleAll(s0, events)
            && var s := After(s0, events);
               s.signal && s.registrars[0].Entered? && s.cancellers[0].Drained? && s.ran[0] == 0
  {
    var s0 := State(false, [Ready], [Waiting], {}, multiset{}, {}, false);
    var s1 := Next(s0, Look(0));
    var s2 := Next(s1, Exchange(0));
    var s3 := Next(s2, Drain(0));
    var s4 := Next(s3, Insert(0));
    assert [Look(0), Exchange(0), Drain(0), Insert(0)][1..] == [Exchange(0), Drain(0), Insert(0)];
    assert [Exchange(0), Drain(0), Insert(0)][1..] == [Drain(0), Insert(0)];
    assert [Drain(0), Insert(0)][1..] == [Insert(0)] && [Insert(0)][1..] == [];
    assert PossibleAll(s3, [Insert(0)]) && After(s3, [Insert(0)]) == s4;
    assert PossibleAll(s2, [Drain(0), Insert(0)]) && After(s2, [Drain(0), Insert(0)]) == s4;
  }
}
