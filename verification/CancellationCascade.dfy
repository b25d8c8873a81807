/**
  Sources, their tokens, and sources chained to tokens: canceling one source cancels what hangs below it.
  The heap is compared with an immutable picture of its edges, in which reachability is defined.
 */
module CancellationGraph {
  datatype NodeId = Src(id: nat) | Tok(id: nat)

  // Which node cancels which when it is canceled.
  type Graph = set<(NodeId, NodeId)>

  ghost predicate IsPath(g: Graph, path: seq<NodeId>) {
    path != [] && forall i | 0 <= i < |path| - 1 :: (path[i], path[i + 1]) in g
  }

  ghost predicate Reach(g: Graph, from: NodeId, to: NodeId) {
    exists path :: IsPath(g, path) && path[0] == from && path[|path| - 1] == to
  }

  lemma ReachSelf(g: Graph, n: NodeId)
    ensures Reach(g, n, n)
  {
    assert IsPath(g, [n]);
  }

  lemma ReachFurther(g: Graph, from: NodeId, to: NodeId, next: NodeId)
    requires Reach(g, from, to) && (to, next) in g
    ensures Reach(g, from, next)
  {
    var path :| IsPath(g, path) && path[0] == from && path[|path| - 1] == to;
    var longer := path + [next];
    forall i | 0 <= i < |longer| - 1 ensures (longer[i], longer[i + 1]) in g {
      if i < |path| - 1 { assert longer[i] == path[i] && longer[i + 1] == path[i + 1]; }
    }
    assert IsPath(g, longer);
  }

  // A set of nodes with everything its members cancel.
  ghost predicate ClosedUnder(g: Graph, nodes: set<NodeId>) {
    forall e | e in g && e.0 in nodes :: e.1 in nodes
  }

  lemma {:induction false} PathStaysInside(g: Graph, nodes: set<NodeId>, path: seq<NodeId>, i: nat)
    requires ClosedUnder(g, nodes) && IsPath(g, path) && path[0] in nodes && i < |path|
    ensures path[i] in nodes
  {
    if i > 0 {
      PathStaysInside(g, nodes, path, i - 1);
      assert (path[i - 1], path[i]) in g;
    }
  }

  // Nodes are numbered as they are created, and hang for ever on the node they are created for, which is older.
  ghost predicate CreationOrdered(g: Graph, parents: map<NodeId, NodeId>) {
    && (forall m | m in parents :: parents[m].id < m.id)
    && (forall e | e in g :: e.1 in parents && parents[e.1] == e.0)
  }

  lemma {:induction false} NumbersGrowAlong(g: Graph, parents: map<NodeId, NodeId>, path: seq<NodeId>, i: nat)
    requires CreationOrdered(g, parents) && IsPath(g, path) && i < |path|
    ensures path[0].id <= path[i].id && (i > 0 ==> path[0].id < path[i].id)
  {
    if i > 0 {
      NumbersGrowAlong(g, parents, path, i - 1);
      assert (path[i - 1], path[i]) in g;
    }
  }

  lemma OnlyYounger(g: Graph, parents: map<NodeId, NodeId>, from: NodeId, to: NodeId)
    requires CreationOrdered(g, parents) && Reach(g, from, to)
    ensures from == to || from.id < to.id
    ensures from != to ==> to in parents && Reach(g, from, parents[to])
  {
    var path :| IsPath(g, path) && path[0] == from && path[|path| - 1] == to;
    var last := |path| - 1;
    NumbersGrowAlong(g, parents, path, last);
    if last > 0 {
      assert (path[last - 1], path[last]) in g;
      assert IsPath(g, path[..last]) by {
        forall i | 0 <= i < last - 1 ensures (path[..last][i], path[..last][i + 1]) in g {
          assert (path[i], path[i + 1]) in g;
        }
      }
    }
  }

  // Canceling a node never reaches the node it hangs on, nor another node that hangs there.
  lemma NeitherParentNorSibling(g: Graph, parents: map<NodeId, NodeId>, node: NodeId, sibling: NodeId)
    requires CreationOrdered(g, parents) && node in parents
    ensures !Reach(g, node, parents[node])
    ensures sibling in parents && parents[sibling] == parents[node] && sibling != node ==> !Reach(g, node, sibling)
  {
    if Reach(g, node, parents[node]) { OnlyYounger(g, parents, node, parents[node]); }
    if Reach(g, node, sibling) && sibling != node { OnlyYounger(g, parents, node, sibling); }
  }
}

module CancellationCascade {
  import opened CancellationGraph
  import opened Filters

  // A callback of the chained source cancels it; any other callback is just an invocation to be recorded.
  datatype Callback = Plain(id: nat) | Chain(child: Source)

  // The record of invocations once the first n callbacks were invoked: the plain ones among them are appended.
  function FiredAfter(fired: seq<nat>, callbacks: seq<Callback>, n: nat): seq<nat>
    requires n <= |callbacks|
  {
    if n == 0 then fired
    else if callbacks[n - 1].Plain? then FiredAfter(fired, callbacks, n - 1) + [callbacks[n - 1].id]
    else FiredAfter(fired, callbacks, n - 1)
  }

  function LiveOnly(list: seq<Token>, live: set<Token>): (r: seq<Token>)
    ensures forall t | t in r :: t in list && t in live
    ensures forall t | t in list && t in live :: t in r
  {
    if list == [] then []
    else LiveOnly(list[..|list| - 1], live) + (if list[|list| - 1] in live then [list[|list| - 1]] else [])
  }

  lemma {:induction false} LiveOnlyFilters(list: seq<Token>, live: set<Token>)
    ensures IsFiltered(list, live, LiveOnly(list, live))
  {
    if list != [] {
      LiveOnlyFilters(list[..|list| - 1], live);
      FilteredNext(list, live, LiveOnly(list[..|list| - 1], live));
      assert LiveOnly(list[..|list| - 1], live) + [] == LiveOnly(list[..|list| - 1], live);
    }
  }

  // How many of the first n callbacks are plain.
  ghost function PlainBefore(callbacks: seq<Callback>, n: nat): nat
    requires n <= |callbacks|
  {
    |set i: nat | i < n && callbacks[i].Plain?|
  }

  lemma PlainNext(callbacks: seq<Callback>, n: nat)
    requires n < |callbacks|
    ensures PlainBefore(callbacks, n + 1) == PlainBefore(callbacks, n) + if callbacks[n].Plain? then 1 else 0
  {
    var before := set i: nat | i < n && callbacks[i].Plain?;
    assert (set i: nat | i < n + 1 && callbacks[i].Plain?) == before + if callbacks[n].Plain? then {n} else {};
  }

  // The plain ones among the first n callbacks have been invoked once each, in the order of the list, and nothing else.
  ghost predicate PlainRan(before: seq<nat>, callbacks: seq<Callback>, n: nat, after: seq<nat>)
    requires n <= |callbacks|
  {
    && before <= after && |after| == |before| + PlainBefore(callbacks, n)
    && forall k: nat | k < n && callbacks[k].Plain? ::
         var at := |before| + PlainBefore(callbacks, k); at < |after| && after[at] == callbacks[k].id
  }

  lemma {:induction false} FiredInOrder(before: seq<nat>, callbacks: seq<Callback>, n: nat)
    requires n <= |callbacks|
    ensures PlainRan(before, callbacks, n, FiredAfter(before, callbacks, n))
  {
    if n == 0 {
      assert PlainBefore(callbacks, 0) == 0;
    } else {
      FiredInOrder(before, callbacks, n - 1);
      PlainNext(callbacks, n - 1);
    }
  }

  datatype SourceView = SourceView(signal: bool, tokens: seq<Token>)
  datatype TokenView = TokenView(signal: bool, callbacks: seq<Callback>, fired: seq<nat>)

  /** A footprint that is closed under cancellation, the tokens that still exist, and the fields of the objects when
      the cascade starts. */
  datatype World = World(
    sources: set<Source>,
    tokens: set<Token>,
    live: set<Token>,
    sourceStart: map<Source, SourceView>,
    tokenStart: map<Token, TokenView>)

  ghost predicate ListInside(w: World, list: seq<Token>) {
    forall k | 0 <= k < |list| && list[k] in w.live :: list[k] in w.tokens
  }

  ghost predicate CallbacksInside(w: World, callbacks: seq<Callback>) {
    forall k | 0 <= k < |callbacks| && callbacks[k].Chain? :: callbacks[k].child in w.sources
  }

  // Whatever a node of the footprint cancels lies in the footprint.
  ghost predicate Closed(w: World) {
    && w.sourceStart.Keys == w.sources && w.tokenStart.Keys == w.tokens
    && (forall s | s in w.sources :: ListInside(w, w.sourceStart[s].tokens))
    && (forall t | t in w.tokens :: CallbacksInside(w, w.tokenStart[t].callbacks))
  }

  // The nodes that are not canceled: what a cascade uses up.
  ghost function OpenSources(w: World): set<Source>
    reads w.sources
  {
    set s | s in w.sources && !s.signal
  }

  ghost function OpenTokens(w: World): set<Token>
    reads w.tokens
  {
    set t | t in w.tokens && !t.signal
  }

  ghost predicate ListCanceled(w: World, list: seq<Token>, n: nat)
    requires n <= |list| && ListInside(w, list)
    reads w.tokens
  {
    forall k | 0 <= k < n && list[k] in w.live :: list[k] !in OpenTokens(w)
  }

  ghost predicate CallbacksCanceled(w: World, callbacks: seq<Callback>, n: nat)
    requires n <= |callbacks| && CallbacksInside(w, callbacks)
    reads w.sources
  {
    forall k | 0 <= k < n && callbacks[k].Chain? :: callbacks[k].child !in OpenSources(w)
  }

  // A source is as it was at the start, or was canceled since, which takes expired tokens off its list.
  ghost predicate SourceOk(w: World, s: Source)
    requires Closed(w) && s in w.sources
    reads s, w.tokens
  {
    var start := w.sourceStart[s];
    && (SourceView(s.signal, s.tokens) == start
        || (!start.signal && s.signal && s.tokens == LiveOnly(start.tokens, w.live)))
    && (s.signal ==> ListCanceled(w, start.tokens, |start.tokens|))
  }

  // A token is as it was at the start, or was canceled since, and then each plain callback ran once.
  ghost predicate TokenOk(w: World, t: Token)
    requires Closed(w) && t in w.tokens
    reads t, w.sources
  {
    var start := w.tokenStart[t];
    && (TokenView(t.signal, t.callbacks, t.fired) == start
        || (&& !start.signal && t.signal && t.callbacks == []
            && t.fired == FiredAfter(start.fired, start.callbacks, |start.callbacks|)))
    && (t.signal ==> CallbacksCanceled(w, start.callbacks, |start.callbacks|))
  }

  // All nodes but those being canceled right now are in order: whatever hangs on a canceled one is canceled too.
  ghost predicate Inv(w: World, busySources: set<Source>, busyTokens: set<Token>)
    reads w.sources, w.tokens
  {
    && Closed(w) && busySources <= w.sources && busyTokens <= w.tokens
    && (forall s | s in w.sources :: if s in busySources then s.signal else SourceOk(w, s))
    && (forall t | t in w.tokens :: if t in busyTokens then t.signal else TokenOk(w, t))
  }

  // Canceled nodes stay canceled, and those on the call stack keep their fields.
  twostate predicate Grown(w: World, busySources: set<Source>, busyTokens: set<Token>)
    reads w.sources, w.tokens
  {
    && OpenSources(w) <= old(OpenSources(w)) && OpenTokens(w) <= old(OpenTokens(w))
    && (forall s | s in w.sources && s in busySources :: unchanged(s))
    && (forall t | t in w.tokens && t in busyTokens :: unchanged(t))
  }

  class Token {
    const id: nat
    var signal: bool
    var callbacks: seq<Callback>
    var fired: seq<nat>          // plain callbacks invoked so far

    constructor (id: nat, canceled: bool)
      ensures this.id == id && signal == canceled && callbacks == [] && fired == []
    {
      this.id, signal, callbacks, fired := id, canceled, [], [];
    }

    method Cancel(live: set<Token>, ghost w: World, ghost busySources: set<Source>, ghost busyTokens: set<Token>)
      requires live == w.live
      requires Inv(w, busySources, busyTokens) && this in w.tokens
      modifies w.sources, w.tokens
      ensures Inv(w, busySources, busyTokens) && Grown(w, busySources, busyTokens) && signal
      decreases OpenSources(w), OpenTokens(w), 0
    {
      var wasCanceled := signal;
      signal := true;
      if wasCanceled { return; }
      assert this in old(OpenTokens(w)) && this !in OpenTokens(w) && OpenSources(w) == old(OpenSources(w));
      CancelOnce(live, w, busySources, busyTokens);
    }

    // The part of cancel() behind the exchange.
    method CancelOnce(live: set<Token>, ghost w: World, ghost busySources: set<Source>, ghost busyTokens: set<Token>)
      requires live == w.live
      requires this in w.tokens && this !in busyTokens && Inv(w, busySources, busyTokens + {this})
      requires !w.tokenStart[this].signal && w.tokenStart[this] == TokenView(false, callbacks, fired)
      modifies w.sources, w.tokens
      ensures Inv(w, busySources, busyTokens) && Grown(w, busySources, busyTokens) && signal
      decreases OpenSources(w), OpenTokens(w), 4
    {
      InvokeAll(live, w, busySources, busyTokens + {this});
      ClearCallbacks(w, busySources, busyTokens);
    }

    method ClearCallbacks(ghost w: World, ghost busySources: set<Source>, ghost busyTokens: set<Token>)
      requires this in w.tokens && this !in busyTokens && Inv(w, busySources, busyTokens + {this})
      requires !w.tokenStart[this].signal && callbacks == w.tokenStart[this].callbacks
      requires fired == FiredAfter(w.tokenStart[this].fired, callbacks, |callbacks|)
      requires CallbacksCanceled(w, callbacks, |callbacks|)
      modifies this`callbacks
      ensures Inv(w, busySources, busyTokens)
    {
      callbacks := [];
      assert TokenOk(w, this);
    }

    // Invokes the callbacks under the token's write lock.
    method InvokeAll(live: set<Token>, ghost w: World, ghost busySources: set<Source>, ghost busyTokens: set<Token>)
      requires live == w.live
      requires Inv(w, busySources, busyTokens) && this in busyTokens && CallbacksInside(w, callbacks)
      modifies w.sources, w.tokens
      ensures Inv(w, busySources, busyTokens) && Grown(w, busySources, busyTokens - {this})
      ensures callbacks == old(callbacks) && fired == FiredAfter(old(fired), callbacks, |callbacks|)
      ensures CallbacksCanceled(w, callbacks, |callbacks|)
      ensures PlainRan(old(fired), callbacks, |callbacks|, fired)
      ensures |fired| == |old(fired)| + |set i: nat | i < |callbacks| && callbacks[i].Plain?|
      ensures forall k: nat | k < |callbacks| && callbacks[k].Plain? ::
                var at := |old(fired)| + |set i: nat | i < k && callbacks[i].Plain?|;
                at < |fired| && fired[at] == callbacks[k].id
      decreases OpenSources(w), OpenTokens(w), 3
    {
      InvokeEach(live, w, busySources, busyTokens);
      FiredInOrder(old(fired), callbacks, |callbacks|);
    }

    method InvokeEach(live: set<Token>, ghost w: World, ghost busySources: set<Source>, ghost busyTokens: set<Token>)
      requires live == w.live
      requires Inv(w, busySources, busyTokens) && this in busyTokens && CallbacksInside(w, callbacks)
      modifies w.sources, w.tokens
      ensures Inv(w, busySources, busyTokens) && Grown(w, busySources, busyTokens - {this})
      ensures callbacks == old(callbacks) && fired == FiredAfter(old(fired), callbacks, |callbacks|)
      ensures CallbacksCanceled(w, callbacks, |callbacks|)
      decreases OpenSources(w), OpenTokens(w), 2
    {
      for i := 0 to |callbacks|
        invariant Inv(w, busySources, busyTokens) && Grown(w, busySources, busyTokens - {this})
        invariant callbacks == old(callbacks) && fired == FiredAfter(old(fired), callbacks, i)
        invariant CallbacksCanceled(w, callbacks, i)
      {
        Invoke(live, w, busySources, busyTokens, i);
      }
    }

    // Invokes one callback, the ones before it having been invoked.
    method Invoke(live: set<Token>, ghost w: World, ghost busySources: set<Source>, ghost busyTokens: set<Token>, i: nat)
      requires live == w.live
      requires Inv(w, busySources, busyTokens) && this in busyTokens && CallbacksInside(w, callbacks)
      requires i < |callbacks| && CallbacksCanceled(w, callbacks, i)
      modifies w.sources, w.tokens
      ensures Inv(w, busySources, busyTokens) && Grown(w, busySources, busyTokens - {this})
      ensures callbacks == old(callbacks) && fired == if callbacks[i].Plain? then old(fired) + [callbacks[i].id] else old(fired)
      ensures CallbacksCanceled(w, callbacks, i + 1)
      decreases OpenSources(w), OpenTokens(w), 1
    {
      match callbacks[i] {
        case Plain(callbackId) =>
          fired := fired + [callbackId];
        case Chain(child) =>
          child.Cancel(live, w, busySources, busyTokens);
      }
    }
  }

  class Source {
    const id: nat
    var signal: bool
    var tokens: seq<Token>

    constructor (id: nat, canceled: bool)
      ensures this.id == id && signal == canceled && tokens == []
    {
      this.id, signal, tokens := id, canceled, [];
    }

    // A source chained to a token: the token's callback cancels it, at once if the token is canceled already.
    constructor Chained(id: nat, parent: Token)
      modifies parent
      ensures this.id == id && tokens == [] && signal == old(parent.signal) && parent.signal == old(parent.signal)
      ensures parent.callbacks == old(parent.callbacks) + if signal then [] else [Chain(this)]
      ensures parent.fired == old(parent.fired)
    {
      this.id, signal, tokens := id, parent.signal, [];
      new;
      if !parent.signal {
        parent.callbacks := parent.callbacks + [Chain(this)];
      }
    }

    // A token of a canceled source is canceled from the start.
    method CreateToken(id: nat) returns (token: Token)
      modifies this`tokens
      ensures fresh(token) && token.id == id && token.signal == signal && token.callbacks == []
      ensures tokens == old(tokens) + [token]
    {
      token := new Token(id, signal);
      tokens := tokens + [token];
    }

    method Cancel(live: set<Token>, ghost w: World, ghost busySources: set<Source>, ghost busyTokens: set<Token>)
      requires live == w.live
      requires Inv(w, busySources, busyTokens) && this in w.sources
      modifies w.sources, w.tokens
      ensures Inv(w, busySources, busyTokens) && Grown(w, busySources, busyTokens) && signal
      decreases OpenSources(w), OpenTokens(w), 0
    {
      var wasCanceled := signal;
      signal := true;
      if wasCanceled { return; }
      assert this in old(OpenSources(w)) && this !in OpenSources(w) && OpenTokens(w) == old(OpenTokens(w));
      CancelOnce(live, w, busySources, busyTokens);
    }

    // The part of cancel() behind the exchange: cancel the tokens, then drop the expired ones from the list.
    method CancelOnce(live: set<Token>, ghost w: World, ghost busySources: set<Source>, ghost busyTokens: set<Token>)
      requires live == w.live
      requires this in w.sources && this !in busySources && Inv(w, busySources + {this}, busyTokens)
      requires !w.sourceStart[this].signal && w.sourceStart[this] == SourceView(false, tokens)
      modifies w.sources, w.tokens
      ensures Inv(w, busySources, busyTokens) && Grown(w, busySources, busyTokens) && signal
      decreases OpenSources(w), OpenTokens(w), 3
    {
      CancelAll(live, w, busySources + {this}, busyTokens);
      tokens := LiveOnly(tokens, live);
      assert SourceOk(w, this);
    }

    // Cancels the registered tokens that still exist, under the source's read lock.
    method CancelAll(live: set<Token>, ghost w: World, ghost busySources: set<Source>, ghost busyTokens: set<Token>)
      requires live == w.live
      requires Inv(w, busySources, busyTokens) && this in busySources && ListInside(w, tokens)
      modifies w.sources, w.tokens
      ensures Inv(w, busySources, busyTokens) && Grown(w, busySources, busyTokens)
      ensures ListCanceled(w, tokens, |tokens|)
      decreases OpenSources(w), OpenTokens(w), 2
    {
      for i := 0 to |tokens|
        invariant Inv(w, busySources, busyTokens) && Grown(w, busySources, busyTokens)
        invariant ListCanceled(w, tokens, i)
      {
        if tokens[i] !in live { continue; }
        tokens[i].Cancel(live, w, busySources, busyTokens);
      }
    }
  }

  // The graph of a footprint: objects have distinct numbers, and edges lead to existing tokens and chained sources.
  ghost predicate Pictures(g: Graph, w: World)
    requires Closed(w)
  {
    && (forall a, b | a in w.sources && b in w.sources :: a.id == b.id ==> a == b)
    && (forall a, b | a in w.tokens && b in w.tokens :: a.id == b.id ==> a == b)
    && (forall s, m | s in w.sources && (Src(s.id), m) in g ::
          exists k | 0 <= k < |w.sourceStart[s].tokens| ::
            w.sourceStart[s].tokens[k] in w.live && m == Tok(w.sourceStart[s].tokens[k].id))
    && (forall t, m | t in w.tokens && (Tok(t.id), m) in g ::
          exists k | 0 <= k < |w.tokenStart[t].callbacks| ::
            w.tokenStart[t].callbacks[k].Chain? && m == Src(w.tokenStart[t].callbacks[k].child.id))
  }

  ghost function CanceledNodes(w: World): set<NodeId>
    reads w.sources, w.tokens
  {
    (set s | s in w.sources && s.signal :: Src(s.id)) + (set t | t in w.tokens && t.signal :: Tok(t.id))
  }

  lemma CanceledNodesAreClosed(g: Graph, w: World)
    requires Inv(w, {}, {}) && Pictures(g, w)
    ensures ClosedUnder(g, CanceledNodes(w))
  {
    forall e | e in g && e.0 in CanceledNodes(w) ensures e.1 in CanceledNodes(w) {
      var n, m := e.0, e.1;
      if n.Src? {
        var s :| s in w.sources && s.signal && Src(s.id) == n;
        var k :| 0 <= k < |w.sourceStart[s].tokens| && w.sourceStart[s].tokens[k] in w.live &&
                 m == Tok(w.sourceStart[s].tokens[k].id);
        assert w.sourceStart[s].tokens[k] in w.tokens && w.sourceStart[s].tokens[k].signal;
      } else {
        var t :| t in w.tokens && t.signal && Tok(t.id) == n;
        var k :| 0 <= k < |w.tokenStart[t].callbacks| && w.tokenStart[t].callbacks[k].Chain? &&
                 m == Src(w.tokenStart[t].callbacks[k].child.id);
        assert w.tokenStart[t].callbacks[k].child in w.sources && w.tokenStart[t].callbacks[k].child.signal;
      }
    }
  }

  // What is reachable from a canceled node is canceled once no cascade is under way.
  lemma ReachableIsCanceled(g: Graph, w: World, root: NodeId)
    requires Inv(w, {}, {}) && Pictures(g, w) && root in CanceledNodes(w)
    ensures forall s | s in w.sources && Reach(g, root, Src(s.id)) :: s.signal
    ensures forall t | t in w.tokens && Reach(g, root, Tok(t.id)) :: t.signal
  {
    CanceledNodesAreClosed(g, w);
    forall n | Reach(g, root, n) ensures n in CanceledNodes(w) {
      var path :| IsPath(g, path) && path[0] == root && path[|path| - 1] == n;
      PathStaysInside(g, CanceledNodes(w), path, |path| - 1);
    }
  }

  /** Canceling a source with no other cancellation under way. The footprint is what is reachable from the source through
      existing tokens and chained sources: all of it is canceled, each plain callback in it runs once, and nothing
      outside it is touched. */
  method CancelReachable(root: Source, live: set<Token>, ghost w: World, ghost g: Graph)
    requires live == w.live && Inv(w, {}, {}) && root in w.sources && Pictures(g, w)
    requires forall s | s in w.sources ::
               SourceView(s.signal, s.tokens) == w.sourceStart[s] && Reach(g, Src(root.id), Src(s.id))
    requires forall t | t in w.tokens ::
               TokenView(t.signal, t.callbacks, t.fired) == w.tokenStart[t] && Reach(g, Src(root.id), Tok(t.id))
    modifies w.sources, w.tokens
    ensures forall s | s in w.sources ::
              s.signal && s.tokens == if old(s.signal) then old(s.tokens) else LiveOnly(old(s.tokens), w.live)
    ensures forall t | t in w.tokens :: t.signal && t.callbacks == if old(t.signal) then old(t.callbacks) else []
    ensures forall t | t in w.tokens ::
              t.fired == if old(t.signal) then old(t.fired) else FiredAfter(old(t.fired), old(t.callbacks), |old(t.callbacks)|)
    ensures Inv(w, {}, {})
    ensures forall s | s in w.sources && !old(s.signal) :: IsFiltered(old(s.tokens), live, s.tokens)
    ensures forall t | t in w.tokens && !old(t.signal) :: PlainRan(old(t.fired), old(t.callbacks), |old(t.callbacks)|, t.fired)
  {
    CancelAllReachable(root, live, w, g);
    forall s | s in w.sources && !old(s.signal) ensures IsFiltered(old(s.tokens), live, s.tokens) {
      LiveOnlyFilters(old(s.tokens), live);
    }
    forall t | t in w.tokens && !old(t.signal)
      ensures PlainRan(old(t.fired), old(t.callbacks), |old(t.callbacks)|, t.fired)
    {
      FiredInOrder(old(t.fired), old(t.callbacks), |old(t.callbacks)|);
    }
  }

  method CancelAllReachable(root: Source, live: set<Token>, ghost w: World, ghost g: Graph)
    requires live == w.live && Inv(w, {}, {}) && root in w.sources && Pictures(g, w)
    requires forall s | s in w.sources ::
               SourceView(s.signal, s.tokens) == w.sourceStart[s] && Reach(g, Src(root.id), Src(s.id))
    requires forall t | t in w.tokens ::
               TokenView(t.signal, t.callbacks, t.fired) == w.tokenStart[t] && Reach(g, Src(root.id), Tok(t.id))
    modifies w.sources, w.tokens
    ensures forall s | s in w.sources ::
              s.signal && s.tokens == if old(s.signal) then old(s.tokens) else LiveOnly(old(s.tokens), w.live)
    ensures forall t | t in w.tokens :: t.signal && t.callbacks == if old(t.signal) then old(t.callbacks) else []
    ensures forall t | t in w.tokens ::
              t.fired == if old(t.signal) then old(t.fired) else FiredAfter(old(t.fired), old(t.callbacks), |old(t.callbacks)|)
    ensures Inv(w, {}, {})
  {
    root.Cancel(live, w, {}, {});
    ReachableIsCanceled(g, w, Src(root.id));
  }
}
