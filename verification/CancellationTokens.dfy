/**
  A cancellation token with its callbacks. Handles are heap objects: their address is the key of the
  callback table, and an address is only free for the allocator while no handle lives there.
 */
module CancellationTokens {
  import opened Wrappers
  import opened Orders

  type Address = nat

  // Callbacks are told apart by the number of the registration that brought them.
  type CallbackId = nat

  datatype TokenState = TokenState(
    signal: bool,
    callbacks: map<Address, CallbackId>,
    live: set<Address>,      // addresses of handles that exist, leaked ones included
    held: set<Address>,      // the handles some client still owns
    ran: seq<CallbackId>,    // every callback invocation so far
    registered: nat)

  datatype Op =
    | Register(address: Address)               // the address the allocator returns for the handle
    | UnregisterRef(handle: Option<Address>)   // unregister_callback(const callback_token&)
    | UnregisterMove(handle: Option<Address>)  // unregister_callback(callback_token&&)
    | Destroy(owned: Address)                  // the owner drops its handle
    | Cancel(order: seq<Address>)              // the order in which the hash table yields its entries

  ghost predicate Possible(s: TokenState, op: Op) {
    match op
    case Register(a) => a !in s.live
    case UnregisterRef(h) => h.Some? ==> h.value in s.held
    case UnregisterMove(h) => h.Some? ==> h.value in s.held
    case Destroy(h) => h in s.held
    case Cancel(order) => Enumerates(order, s.callbacks.Keys)
  }

  function Invoked(callbacks: map<Address, CallbackId>, order: seq<Address>): (r: seq<CallbackId>)
    requires forall a | a in order :: a in callbacks
    ensures |r| == |order|
  {
    seq(|order|, i requires 0 <= i < |order| => assert order[i] in order; callbacks[order[i]])
  }

  ghost function Apply(s: TokenState, op: Op): TokenState
    requires Possible(s, op)
  {
    match op
    case Register(a) =>
      if s.signal then s.(ran := s.ran + [s.registered], registered := s.registered + 1)
      else s.(callbacks := if a in s.callbacks then s.callbacks else s.callbacks[a := s.registered],
              live := s.live + {a}, held := s.held + {a}, registered := s.registered + 1)
    case UnregisterRef(h) => if h.None? then s else s.(callbacks := s.callbacks - {h.value})
    case UnregisterMove(h) => if h.None? then s else s.(held := s.held - {h.value})
    case Destroy(h) => s.(callbacks := s.callbacks - {h}, live := s.live - {h}, held := s.held - {h})
    case Cancel(order) =>
      if s.signal then s
      else s.(signal := true, callbacks := map[], ran := s.ran + Invoked(s.callbacks, order))
  }

  function Created(canceled: bool): TokenState {
    TokenState(canceled, map[], {}, {}, [], 0)
  }

  ghost predicate PossibleAll(s: TokenState, ops: seq<Op>)
    decreases |ops|
  {
    ops == [] || (Possible(s, ops[0]) && PossibleAll(Apply(s, ops[0]), ops[1..]))
  }

  ghost function ApplyAll(s: TokenState, ops: seq<Op>): TokenState
    requires PossibleAll(s, ops)
    decreases |ops|
  {
    if ops == [] then s else ApplyAll(Apply(s, ops[0]), ops[1..])
  }

  // Keys are addresses of existing handles, each callback is in the table once, and none that ran is in it.
  ghost predicate Inv(s: TokenState) {
    && s.callbacks.Keys <= s.live && s.held <= s.live
    && (forall a, b | a in s.callbacks && b in s.callbacks :: s.callbacks[a] == s.callbacks[b] ==> a == b)
    && (forall a | a in s.callbacks :: s.callbacks[a] < s.registered && s.callbacks[a] !in s.ran)
    && (forall id | id in s.ran :: id < s.registered)
    && (s.signal ==> s.callbacks == map[])
  }

  lemma InvokedIds(callbacks: map<Address, CallbackId>, order: seq<Address>)
    requires Enumerates(order, callbacks.Keys)
    ensures forall id :: id in Invoked(callbacks, order) <==> exists a :: a in callbacks && callbacks[a] == id
  {
    var ids := Invoked(callbacks, order);
    forall id | id in ids ensures exists a :: a in callbacks && callbacks[a] == id {
      var i :| 0 <= i < |ids| && ids[i] == id;
      assert order[i] in callbacks;
    }
    forall a | a in callbacks ensures callbacks[a] in ids {
      var i :| 0 <= i < |order| && order[i] == a;
      assert ids[i] == callbacks[a];
    }
  }

  lemma StepInv(s: TokenState, op: Op)
    requires Inv(s) && Possible(s, op)
    ensures Inv(Apply(s, op))
  {
    if op.Cancel? { InvokedIds(s.callbacks, op.order); }
  }

  // In every history the table's keys are existing handles, and a new handle's address is never already a key.
  lemma {:induction false} HistoryInv(s: TokenState, ops: seq<Op>)
    requires Inv(s) && PossibleAll(s, ops)
    ensures Inv(ApplyAll(s, ops))
    ensures forall a :: a !in ApplyAll(s, ops).live ==> a !in ApplyAll(s, ops).callbacks
    decreases |ops|
  {
    if ops != [] {
      StepInv(s, ops[0]);
      HistoryInv(Apply(s, ops[0]), ops[1..]);
    }
  }

  function RunsOf(s: TokenState, id: CallbackId): nat { multiset(s.ran)[id] }

  // A callback that is not in the table and was registered before is never invoked again.
  lemma {:induction false} NeverAgain(s: TokenState, ops: seq<Op>, id: CallbackId)
    requires Inv(s) && PossibleAll(s, ops)
    requires id < s.registered && forall a | a in s.callbacks :: s.callbacks[a] != id
    ensures multiset(ApplyAll(s, ops).ran)[id] == multiset(s.ran)[id]
    decreases |ops|
  {
    if ops != [] {
      var t := Apply(s, ops[0]);
      StepInv(s, ops[0]);
      if ops[0].Cancel? { InvokedIds(s.callbacks, ops[0].order); }
      NeverAgain(t, ops[1..], id);
    }
  }

  // The operation takes the callback whose handle lives at `a` out of the table.
  predicate Drops(op: Op, a: Address) { op == UnregisterRef(Some(a)) || op == Destroy(a) }

  // A cancellation comes before any operation that drops the callback.
  ghost predicate StillRegisteredAtCancel(ops: seq<Op>, a: Address) {
    exists q :: 0 <= q < |ops| && ops[q].Cancel? && forall i | 0 <= i < q :: !Drops(ops[i], a)
  }

  lemma StillRegisteredStep(ops: seq<Op>, a: Address)
    requires ops != []
    ensures StillRegisteredAtCancel(ops, a) <==>
              ops[0].Cancel? || (!Drops(ops[0], a) && StillRegisteredAtCancel(ops[1..], a))
  {
    if StillRegisteredAtCancel(ops, a) && !ops[0].Cancel? {
      var q :| 0 <= q < |ops| && ops[q].Cancel? && forall i | 0 <= i < q :: !Drops(ops[i], a);
      assert ops[1..][q - 1].Cancel? && forall i | 0 <= i < q - 1 :: !Drops(ops[1..][i], a);
    }
    if ops[0].Cancel? {
      var q := 0;
      assert 0 <= q < |ops| && ops[q].Cancel?;
    } else if !Drops(ops[0], a) && StillRegisteredAtCancel(ops[1..], a) {
      var q :| 0 <= q < |ops[1..]| && ops[1..][q].Cancel? && forall i | 0 <= i < q :: !Drops(ops[1..][i], a);
      assert ops[q + 1].Cancel? && forall i | 0 <= i < q + 1 :: !Drops(ops[i], a) by {
        forall i | 0 <= i < q + 1 ensures !Drops(ops[i], a) {
          if i > 0 { assert ops[i] == ops[1..][i - 1]; }
        }
      }
    }
  }

  lemma OccursOnce(ids: seq<CallbackId>, i: nat)
    requires i < |ids| && forall j | 0 <= j < |ids| && j != i :: ids[j] != ids[i]
    ensures multiset(ids)[ids[i]] == 1
  {
    var id, before, after := ids[i], ids[..i], ids[i + 1..];
    assert ids == before + [id] + after;
    assert id !in before && id !in after;
    assert multiset(ids) == multiset(before) + multiset{id} + multiset(after);
  }

  lemma CancelInvokesOnce(s: TokenState, order: seq<Address>, a: Address)
    requires Inv(s) && a in s.callbacks && !s.signal && Enumerates(order, s.callbacks.Keys)
    ensures RunsOf(Apply(s, Cancel(order)), s.callbacks[a]) == 1
  {
    var i :| 0 <= i < |order| && order[i] == a;
    var ids := Invoked(s.callbacks, order);
    forall j | 0 <= j < |ids| && j != i ensures ids[j] != ids[i] {
      assert order[j] in s.callbacks && order[j] != order[i];
    }
    OccursOnce(ids, i);
    assert multiset(s.ran + ids) == multiset(s.ran) + multiset(ids);
  }

  lemma {:induction false} WaitingCallback(s: TokenState, ops: seq<Op>, a: Address)
    requires Inv(s) && PossibleAll(s, ops) && a in s.callbacks
    ensures multiset(ApplyAll(s, ops).ran)[s.callbacks[a]] == if StillRegisteredAtCancel(ops, a) then 1 else 0
    decreases |ops|
  {
    var id := s.callbacks[a];
    if ops != [] {
      var op := ops[0];
      var t := Apply(s, op);
      StepInv(s, op);
      StillRegisteredStep(ops, a);
      if op.Cancel? {
        CancelInvokesOnce(s, op.order, a);
        NeverAgain(t, ops[1..], id);
      } else if Drops(op, a) {
        NeverAgain(t, ops[1..], id);
      } else {
        WaitingCallback(t, ops[1..], a);
      }
    }
  }

  lemma {:induction false} SplitHistory(s: TokenState, first: seq<Op>, rest: seq<Op>)
    requires PossibleAll(s, first + rest)
    ensures PossibleAll(s, first) && PossibleAll(ApplyAll(s, first), rest)
    ensures ApplyAll(s, first + rest) == ApplyAll(ApplyAll(s, first), rest)
    decreases |first|
  {
    if first == [] {
      assert first + rest == rest;
    } else {
      assert (first + rest)[1..] == first[1..] + rest;
      SplitHistory(Apply(s, first[0]), first[1..], rest);
    }
  }

  lemma {:induction false} SignalIffCancelled(s: TokenState, ops: seq<Op>)
    requires PossibleAll(s, ops)
    ensures ApplyAll(s, ops).signal <==> s.signal || exists q :: 0 <= q < |ops| && ops[q].Cancel?
    decreases |ops|
  {
    if ops != [] {
      SignalIffCancelled(Apply(s, ops[0]), ops[1..]);
      if q :| 0 <= q < |ops[1..]| && ops[1..][q].Cancel? { assert ops[q + 1].Cancel?; }
      if q :| 0 <= q < |ops| && ops[q].Cancel? && q > 0 { assert ops[1..][q - 1].Cancel?; }
    }
  }

  lemma RegisteredCallback(s: TokenState, ops: seq<Op>)
    requires Inv(s) && PossibleAll(s, ops) && ops != [] && ops[0].Register?
    ensures RunsOf(ApplyAll(s, ops), s.registered) ==
              if s.signal || StillRegisteredAtCancel(ops[1..], ops[0].address) then 1 else 0
  {
    var t := Apply(s, ops[0]);
    StepInv(s, ops[0]);
    if s.signal {
      assert s.registered !in s.ran;
      assert multiset(t.ran) == multiset(s.ran) + multiset{s.registered};
      NeverAgain(t, ops[1..], s.registered);
    } else {
      WaitingCallback(t, ops[1..], ops[0].address);
    }
  }

  lemma CallbackRuns(canceled: bool, ops: seq<Op>, p: nat)
    requires PossibleAll(Created(canceled), ops) && p < |ops| && ops[p].Register?
    ensures PossibleAll(Created(canceled), ops[..p])
    ensures var id := ApplyAll(Created(canceled), ops[..p]).registered;
            RunsOf(ApplyAll(Created(canceled), ops), id) ==
              if || canceled
                 || (exists q :: 0 <= q < p && ops[q].Cancel?)
                 || StillRegisteredAtCancel(ops[p + 1..], ops[p].address)
              then 1 else 0
  {
    var s0 := Created(canceled);
    var first, rest := ops[..p], ops[p..];
    assert ops == first + rest && rest[1..] == ops[p + 1..];
    SplitHistory(s0, first, rest);
    HistoryInv(s0, first);
    SignalIffCancelled(s0, first);
    assert (exists q :: 0 <= q < p && ops[q].Cancel?) <==> exists q :: 0 <= q < |first| && first[q].Cancel? by {
      if q :| 0 <= q < p && ops[q].Cancel? { assert first[q].Cancel?; }
      if q :| 0 <= q < |first| && first[q].Cancel? { assert ops[q].Cancel?; }
    }
    RegisteredCallback(ApplyAll(s0, first), rest);
  }

  /** Over any history of a token, the callback registered by the operation at p runs at most once; it runs exactly
      when the token was canceled before, or is canceled later while its handle was neither passed to
      unregister_callback by reference nor destroyed. */
  lemma CallbackExactlyOnce(canceled: bool, ops: seq<Op>, p: nat)
    requires PossibleAll(Created(canceled), ops) && p < |ops| && ops[p].Register?
    ensures PossibleAll(Created(canceled), ops[..p])
    ensures var id := ApplyAll(Created(canceled), ops[..p]).registered;
            multiset(ApplyAll(Created(canceled), ops).ran)[id] ==
              if || canceled
                 || (exists q :: 0 <= q < p && ops[q].Cancel?)
                 || (exists q :: p < q < |ops| && ops[q].Cancel? && forall i | p < i < q ::
                       ops[i] != UnregisterRef(Some(ops[p].address)) && ops[i] != Destroy(ops[p].address))
              then 1 else 0
  {
    CallbackRuns(canceled, ops, p);
    StillRegisteredFrom(ops, p, ops[p].address);
  }

  lemma StillRegisteredFrom(ops: seq<Op>, p: nat, a: Address)
    requires p < |ops|
    ensures StillRegisteredAtCancel(ops[p + 1..], a) <==>
              exists q :: p < q < |ops| && ops[q].Cancel? && forall i | p < i < q ::
                ops[i] != UnregisterRef(Some(a)) && ops[i] != Destroy(a)
  {
    var rest := ops[p + 1..];
    assert forall i | 0 <= i < |rest| :: rest[i] == ops[p + 1 + i];
    if StillRegisteredAtCancel(rest, a) {
      var r :| 0 <= r < |rest| && rest[r].Cancel? && forall i | 0 <= i < r :: !Drops(rest[i], a);
      assert ops[p + 1 + r].Cancel?;
      forall i | p < i < p + 1 + r ensures ops[i] != UnregisterRef(Some(a)) && ops[i] != Destroy(a) {
        assert !Drops(rest[i - p - 1], a);
      }
    }
    if q :| p < q < |ops| && ops[q].Cancel? && forall i | p < i < q :: ops[i] != UnregisterRef(Some(a)) && ops[i] != Destroy(a) {
      assert rest[q - p - 1].Cancel? && forall i | 0 <= i < q - p - 1 :: !Drops(rest[i], a);
    }
  }

  // Unregistering a handle a second time changes nothing.
  lemma DoubleUnregister(s: TokenState, h: Option<Address>)
    requires Possible(s, UnregisterRef(h))
    ensures var t := Apply(s, UnregisterRef(h));
            Possible(t, UnregisterRef(h)) && Apply(t, UnregisterRef(h)) == t
    ensures h.Some? ==> Apply(Apply(s, UnregisterRef(h)), Destroy(h.value)) == Apply(s, Destroy(h.value))
  {
    if h.Some? {
      assert s.callbacks - {h.value} - {h.value} == s.callbacks - {h.value};
    }
  }

  // A handle that exists and belongs to nobody can neither be unregistered nor destroyed.
  lemma {:induction false} NobodyDrops(s: TokenState, ops: seq<Op>, a: Address)
    requires PossibleAll(s, ops) && a in s.live && a !in s.held
    ensures forall i | 0 <= i < |ops| :: !Drops(ops[i], a)
    decreases |ops|
  {
    if ops != [] {
      NobodyDrops(Apply(s, ops[0]), ops[1..], a);
      forall i | 0 <= i < |ops| ensures !Drops(ops[i], a) {
        if i > 0 { assert ops[i] == ops[1..][i - 1]; }
      }
    }
  }

  lemma NotDroppedOnceMoved(s: TokenState, ops: seq<Op>, q: nat, a: Address)
    requires Inv(s) && PossibleAll(s, ops) && q < |ops| && ops[q] == UnregisterMove(Some(a))
    ensures forall i | q <= i < |ops| :: !Drops(ops[i], a)
  {
    var first, rest := ops[..q], ops[q..];
    assert ops == first + rest;
    SplitHistory(s, first, rest);
    HistoryInv(s, first);
    NobodyDrops(Apply(ApplyAll(s, first), rest[0]), rest[1..], a);
    forall i | q <= i < |ops| ensures !Drops(ops[i], a) {
      if i > q { assert ops[i] == rest[1..][i - q - 1]; }
    }
  }

  lemma MovedCallbackRuns(canceled: bool, ops: seq<Op>, p: nat, q: nat)
    requires PossibleAll(Created(canceled), ops) && p < q < |ops|
    requires ops[p].Register? && ops[q] == UnregisterMove(Some(ops[p].address))
    requires forall i | p < i < q :: !Drops(ops[i], ops[p].address)
    ensures PossibleAll(Created(canceled), ops[..p])
    ensures var id := ApplyAll(Created(canceled), ops[..p]).registered;
            RunsOf(ApplyAll(Created(canceled), ops), id) ==
              if canceled || exists r :: 0 <= r < |ops| && ops[r].Cancel? then 1 else 0
  {
    var a, rest := ops[p].address, ops[p + 1..];
    CallbackRuns(canceled, ops, p);
    NotDroppedOnceMoved(Created(canceled), ops, q, a);
    forall i | 0 <= i < |rest| ensures !Drops(rest[i], a) { assert rest[i] == ops[p + 1 + i]; }
    NeverDropped(rest, a);
    CancelBeforeOrAfter(ops, rest, p);
  }

  lemma NeverDropped(ops: seq<Op>, a: Address)
    requires forall i | 0 <= i < |ops| :: !Drops(ops[i], a)
    ensures StillRegisteredAtCancel(ops, a) <==> exists q :: 0 <= q < |ops| && ops[q].Cancel?
  {
  }

  lemma CancelBeforeOrAfter(ops: seq<Op>, rest: seq<Op>, p: nat)
    requires p < |ops| && !ops[p].Cancel? && rest == ops[p + 1..]
    ensures (exists r :: 0 <= r < |ops| && ops[r].Cancel?) <==>
              || (exists q :: 0 <= q < p && ops[q].Cancel?)
              || (exists q :: 0 <= q < |rest| && rest[q].Cancel?)
  {
    if r :| 0 <= r < |ops| && ops[r].Cancel? && r > p { assert rest[r - p - 1].Cancel?; }
    if q :| 0 <= q < |rest| && rest[q].Cancel? { assert ops[p + 1 + q].Cancel?; }
  }

  /** Handing the handle over by value is meant to unregister its callback; it is leaked instead. The callback, not
      dropped before, then stays unregistered in effect (it never runs) exactly when the token is never canceled: it runs
      once if the token is canceled at any time, before or after the handle was given away. */
  lemma MoveUnregistersIff(canceled: bool, ops: seq<Op>, p: nat, q: nat)
    requires PossibleAll(Created(canceled), ops) && p < q < |ops|
    requires ops[p].Register? && ops[q] == UnregisterMove(Some(ops[p].address))
    requires forall i | p < i < q :: ops[i] != UnregisterRef(Some(ops[p].address)) && ops[i] != Destroy(ops[p].address)
    ensures PossibleAll(Created(canceled), ops[..p])
    ensures var id := ApplyAll(Created(canceled), ops[..p]).registered;
            multiset(ApplyAll(Created(canceled), ops).ran)[id] ==
              if canceled || exists r :: 0 <= r < |ops| && ops[r].Cancel? then 1 else 0
  {
    assert forall i | p < i < q :: !Drops(ops[i], ops[p].address);
    MovedCallbackRuns(canceled, ops, p, q);
  }

  // A callback handed over by value still runs.
  lemma MovedCallbackStillRuns(h: Address)
    ensures var ops := [Register(h), UnregisterMove(Some(h)), Cancel([h])];
            PossibleAll(Created(false), ops) && ApplyAll(Created(false), ops).ran == [0]
  {
    var s1 := Apply(Created(false), Register(h));
    var s2 := Apply(s1, UnregisterMove(Some(h)));
    assert Enumerates([h], s2.callbacks.Keys);
    var s3 := Apply(s2, Cancel([h]));
    assert [UnregisterMove(Some(h)), Cancel([h])][1..] == [Cancel([h])] && [Cancel([h])][1..] == [];
    assert [Register(h), UnregisterMove(Some(h)), Cancel([h])][1..] == [UnregisterMove(Some(h)), Cancel([h])];
    assert PossibleAll(s3, []) && ApplyAll(s3, []) == s3;
    assert PossibleAll(s2, [Cancel([h])]) && ApplyAll(s2, [Cancel([h])]) == s3;
    assert s3.ran == [0];
  }

  class CancellationToken {
    var signal: bool
    var callbacks: map<Address, CallbackId>
    var registered: nat
    var ran: seq<CallbackId>
    ghost var live: set<Address>
    ghost var held: set<Address>

    ghost function View(): TokenState
      reads this
    {
      TokenState(signal, callbacks, live, held, ran, registered)
    }

    constructor (canceled: bool)
      ensures View() == Created(canceled)
    {
      signal, callbacks, registered, ran := canceled, map[], 0, [];
      live, held := {}, {};
    }

    // The invocation of the callback with the given number.
    method Invoke(id: CallbackId)
      modifies this`ran
      ensures ran == old(ran) + [id]
    {
      ran := ran + [id];
    }

    method RegisterCallback(address: Address) returns (handle: Option<Address>)
      requires Possible(View(), Register(address))
      modifies this
      ensures View() == Apply(old(View()), Register(address))
      ensures handle == if old(signal) then None else Some(address)
      ensures signal == old(signal) && ran == (if signal then old(ran) + [old(registered)] else old(ran))
      ensures registered == old(registered) + 1
      ensures old(signal) ==> callbacks == old(callbacks) && live == old(live) && held == old(held)
      ensures !old(signal) && address !in old(callbacks) ==> callbacks == old(callbacks)[address := old(registered)]
      ensures !old(signal) ==> live == old(live) + {address} && held == old(held) + {address}
    {
      var id := registered;
      registered := registered + 1;
      if signal {
        Invoke(id);
        return None;
      }
      live, held := live + {address}, held + {address};
      if address !in callbacks {
        callbacks := callbacks[address := id];
      }
      return Some(address);
    }

    // Walks the table to the entry with the handle's address and erases it.
    method Erase(key: Address)
      modifies this`callbacks
      ensures callbacks == old(callbacks) - {key}
    {
      var rest := callbacks.Keys;
      while rest != {}
        invariant rest <= callbacks.Keys && callbacks == old(callbacks)
        invariant key in callbacks ==> key in rest
        decreases rest
      {
        var it :| it in rest;
        if it == key {
          callbacks := callbacks - {it};
          return;
        }
        rest := rest - {it};
      }
      assert callbacks - {key} == callbacks;
    }

    method UnregisterCallback(handle: Option<Address>)
      requires Possible(View(), UnregisterRef(handle))
      modifies this
      ensures View() == Apply(old(View()), UnregisterRef(handle))
      ensures callbacks == if handle.Some? then old(callbacks) - {handle.value} else old(callbacks)
      ensures unchanged(`signal) && unchanged(`ran) && unchanged(`registered) && unchanged(`live) && unchanged(`held)
    {
      if handle.None? { return; }
      Erase(handle.value);
    }

    // The overload that takes the handle by value releases it without destroying it.
    method UnregisterMovedCallback(handle: Option<Address>)
      requires Possible(View(), UnregisterMove(handle))
      modifies this
      ensures View() == Apply(old(View()), UnregisterMove(handle))
      ensures held == if handle.Some? then old(held) - {handle.value} else old(held)
      ensures unchanged(`signal) && unchanged(`ran) && unchanged(`registered) && unchanged(`live) && unchanged(`callbacks)
    {
      if handle.Some? { held := held - {handle.value}; }
    }

    // The handle's destructor unregisters it; then its memory is free again.
    method DestroyHandle(handle: Address)
      requires Possible(View(), Destroy(handle))
      modifies this
      ensures View() == Apply(old(View()), Destroy(handle))
      ensures callbacks == old(callbacks) - {handle} && live == old(live) - {handle} && held == old(held) - {handle}
      ensures unchanged(`signal) && unchanged(`ran) && unchanged(`registered)
    {
      Erase(handle);
      live, held := live - {handle}, held - {handle};
    }

    method CancelToken()
      modifies this
      ensures exists order :: Enumerates(order, old(callbacks).Keys) && View() == Apply(old(View()), Cancel(order))
      ensures signal && unchanged(`registered) && unchanged(`live) && unchanged(`held)
      ensures old(signal) ==> unchanged(this)
      ensures !old(signal) ==> callbacks == map[] && |ran| == |old(ran)| + |old(callbacks)| && exists order ::
                && Enumerates(order, old(callbacks).Keys) && |order| == |old(callbacks)|
                && forall i | 0 <= i < |order| :: ran[|old(ran)| + i] == old(callbacks)[order[i]]
    {
      var wasCanceled := signal;
      signal := true;
      ghost var order: seq<Address> := [];
      var rest := callbacks.Keys;
      if wasCanceled {
        order := SomeOrder(callbacks.Keys);
        return;
      }
      while rest != {}
        invariant rest <= callbacks.Keys && callbacks == old(callbacks)
        invariant Enumerates(order, callbacks.Keys - rest)
        invariant ran == old(ran) + Invoked(callbacks, order)
        invariant signal && registered == old(registered) && live == old(live) && held == old(held)
        decreases rest
      {
        var it :| it in rest;
        rest := rest - {it};
        Invoke(callbacks[it]);
        assert Invoked(callbacks, order + [it]) == Invoked(callbacks, order) + [callbacks[it]];
        order := order + [it];
      }
      assert callbacks.Keys - rest == callbacks.Keys;
      OrderSize(order, callbacks.Keys);
      callbacks := map[];
    }
  }
}
