/**
  Families of sources and tokens as they come about: sources, tokens created from them, sources chained to tokens, plain
  callbacks, expiries and cancellations, in any order. Every operation keeps the family in order, and canceling a source
  cancels exactly what hangs below it.
 */
module CancellationFamilies {
  import opened CancellationGraph
  import opened CancellationCascade
  import opened Filters

  // Numbers tell the nodes apart, and a node is younger than the one it was created for.
  ghost predicate AllNumbered(sources: set<Source>, tokens: set<Token>, live: set<Token>, created: nat,
                              parents: map<NodeId, NodeId>)
  {
    && live <= tokens
    && (forall s | s in sources :: s.id < created) && (forall t | t in tokens :: t.id < created)
    && (forall a, b | a in sources && b in sources :: a.id == b.id ==> a == b)
    && (forall a, b | a in tokens && b in tokens :: a.id == b.id ==> a == b)
    && (forall m | m in parents :: parents[m].id < m.id < created)
  }

  lemma OneMoreToken(sources: set<Source>, tokens: set<Token>, live: set<Token>, created: nat,
                     parents: map<NodeId, NodeId>, token: Token, home: Source)
    requires AllNumbered(sources, tokens, live, created, parents) && token.id == created && home in sources
    ensures AllNumbered(sources, tokens + {token}, live + {token}, created + 1, parents[Tok(token.id) := Src(home.id)])
  {
  }

  lemma OneMoreSource(sources: set<Source>, tokens: set<Token>, live: set<Token>, created: nat,
                      parents: map<NodeId, NodeId>, source: Source, home: Token)
    requires AllNumbered(sources, tokens, live, created, parents) && source.id == created && home in tokens
    ensures AllNumbered(sources + {source}, tokens, live, created + 1, parents[Src(source.id) := Tok(home.id)])
  {
  }

  class Family {
    var sources: set<Source>
    var tokens: set<Token>
    var live: set<Token>                    // the tokens that somebody still owns
    var created: nat                        // how many nodes there have been
    ghost var parents: map<NodeId, NodeId>  // the node that each node was created for

    ghost predicate Numbered()
      reads this
    {
      AllNumbered(sources, tokens, live, created, parents)
    }

    // The tokens on a source's list were created for it, and the existing ones are canceled if the source is.
    ghost predicate ListOk(s: Source)
      reads this, s, tokens
    {
      forall t | t in s.tokens ::
        t in tokens && Tok(t.id) in parents && parents[Tok(t.id)] == Src(s.id) && (s.signal && t in live ==> t.signal)
    }

    // The sources in a token's table are chained to it, and they are canceled if the token is.
    ghost predicate TableOk(t: Token)
      reads this, t, sources
    {
      forall c | c in t.callbacks && c.Chain? ::
        && c.child in sources && Src(c.child.id) in parents && parents[Src(c.child.id)] == Tok(t.id)
        && (t.signal ==> c.child.signal)
    }

    ghost predicate Valid()
      reads this, sources, tokens
    {
      Numbered() && (forall s | s in sources :: ListOk(s)) && (forall t | t in tokens :: TableOk(t))
    }

    ghost function Edges(): Graph
      reads this, sources, tokens
    {
      (set s, t | s in sources && t in s.tokens && t in live :: (Src(s.id), Tok(t.id))) +
      (set t, c | t in tokens && c in t.callbacks && c.Chain? :: (Tok(t.id), Src(c.child.id)))
    }

    lemma EdgesAreOrdered()
      requires Valid()
      ensures CreationOrdered(Edges(), parents)
    {
    }

    constructor ()
      ensures Valid() && sources == {} && tokens == {}
    {
      sources, tokens, live, created, parents := {}, {}, {}, 0, map[];
    }

    method NewSource(canceled: bool) returns (source: Source)
      requires Valid()
      modifies this
      ensures Valid() && fresh(source) && source.signal == canceled && source.tokens == []
      ensures sources == old(sources) + {source} && tokens == old(tokens) && live == old(live) && parents == old(parents)
    {
      source := new Source(created, canceled);
      sources, created := sources + {source}, created + 1;
    }

    method CreateToken(source: Source) returns (token: Token)
      requires Valid() && source in sources
      modifies this, source
      ensures Valid() && fresh(token) && token.signal == source.signal == old(source.signal)
      ensures sources == old(sources) && tokens == old(tokens) + {token} && live == old(live) + {token}
      ensures source.tokens == old(source.tokens) + [token]
      ensures parents == old(parents)[Tok(token.id) := Src(source.id)]
    {
      token := source.CreateToken(created);
      OneMoreToken(sources, tokens, live, created, parents, token, source);
      parents := parents[Tok(token.id) := Src(source.id)];
      tokens, live, created := tokens + {token}, live + {token}, created + 1;
      assert Numbered();
      assert forall s | s in sources :: ListOk(s) by {
        forall s | s in sources ensures ListOk(s) { assert old(ListOk(s)); }
      }
      assert forall t | t in tokens :: TableOk(t) by {
        forall t | t in tokens ensures TableOk(t) { if t != token { assert old(TableOk(t)); } }
      }
    }

    // Whoever chains a source to a token owns the token.
    method ChainTo(token: Token) returns (source: Source)
      requires Valid() && token in live
      modifies this, token
      ensures Valid() && fresh(source) && source.signal == token.signal == old(token.signal) && source.tokens == []
      ensures sources == old(sources) + {source} && tokens == old(tokens) && live == old(live)
      ensures token.callbacks == old(token.callbacks) + if token.signal then [] else [Chain(source)]
      ensures parents == old(parents)[Src(source.id) := Tok(token.id)]
    {
      source := new Source.Chained(created, token);
      OneMoreSource(sources, tokens, live, created, parents, source, token);
      parents := parents[Src(source.id) := Tok(token.id)];
      sources, created := sources + {source}, created + 1;
      assert Numbered();
      assert forall s | s in sources :: ListOk(s) by {
        forall s | s in sources ensures ListOk(s) { if s != source { assert old(ListOk(s)); } }
      }
      assert forall t | t in tokens :: TableOk(t) by {
        forall t | t in tokens ensures TableOk(t) { assert old(TableOk(t)); }
      }
    }

    method AddCallback(token: Token, callback: nat)
      requires Valid() && token in live
      modifies token
      ensures Valid() && token.signal == old(token.signal)
      ensures token.callbacks == old(token.callbacks) + if token.signal then [] else [Plain(callback)]
      ensures token.fired == old(token.fired) + if token.signal then [callback] else []
    {
      if token.signal {
        token.fired := token.fired + [callback];
      } else {
        token.callbacks := token.callbacks + [Plain(callback)];
      }
    }

    // The last owner lets go of a token; the lists still hold it.
    method Expire(token: Token)
      requires Valid()
      modifies this`live
      ensures Valid() && live == old(live) - {token}
    {
      live := live - {token};
    }

    // What hangs below a source, directly or not.
    ghost predicate SourceBelow(root: Source, s: Source)
      reads this, sources, tokens
    {
      s in sources && Reach(Edges(), Src(root.id), Src(s.id))
    }

    ghost predicate TokenBelow(root: Source, t: Token)
      reads this, sources, tokens
    {
      t in tokens && Reach(Edges(), Src(root.id), Tok(t.id))
    }

    ghost function Footprint(root: Source): World
      reads this, sources, tokens
    {
      World((set s | s in sources && SourceBelow(root, s)),
            (set t | t in tokens && TokenBelow(root, t)),
            live,
            (map s | s in sources && SourceBelow(root, s) :: SourceView(s.signal, s.tokens)),
            (map t | t in tokens && TokenBelow(root, t) :: TokenView(t.signal, t.callbacks, t.fired)))
    }

    lemma BelowList(root: Source, s: Source, t: Token)
      requires Valid() && SourceBelow(root, s) && t in s.tokens && t in live
      ensures TokenBelow(root, t)
    {
      assert ListOk(s);
      assert (Src(s.id), Tok(t.id)) in Edges();
      ReachFurther(Edges(), Src(root.id), Src(s.id), Tok(t.id));
    }

    lemma BelowTable(root: Source, t: Token, c: Callback)
      requires Valid() && TokenBelow(root, t) && c in t.callbacks && c.Chain?
      ensures SourceBelow(root, c.child)
    {
      assert TableOk(t);
      assert (Tok(t.id), Src(c.child.id)) in Edges();
      ReachFurther(Edges(), Src(root.id), Tok(t.id), Src(c.child.id));
    }

    lemma FootprintIsClosed(root: Source)
      requires Valid() && root in sources
      ensures Closed(Footprint(root))
    {
      var w := Footprint(root);
      forall s, k | s in w.sources && 0 <= k < |s.tokens| && s.tokens[k] in w.live ensures s.tokens[k] in w.tokens {
        BelowList(root, s, s.tokens[k]);
      }
      forall t, k | t in w.tokens && 0 <= k < |t.callbacks| && t.callbacks[k].Chain?
        ensures t.callbacks[k].child in w.sources
      {
        BelowTable(root, t, t.callbacks[k]);
      }
    }

    lemma FootprintIsInOrder(root: Source)
      requires Valid() && root in sources
      ensures Inv(Footprint(root), {}, {})
    {
      FootprintIsClosed(root);
      var w := Footprint(root);
      forall s | s in w.sources ensures SourceOk(w, s) { assert ListOk(s); }
      forall t | t in w.tokens ensures TokenOk(w, t) { assert TableOk(t); }
    }

    lemma FootprintIsPictured(root: Source)
      requires Valid() && root in sources
      ensures Closed(Footprint(root)) && Pictures(Edges(), Footprint(root))
    {
      FootprintIsClosed(root);
      var w := Footprint(root);
      forall s, m | s in w.sources && (Src(s.id), m) in Edges()
        ensures exists k :: 0 <= k < |s.tokens| && s.tokens[k] in live && m == Tok(s.tokens[k].id)
      {
        var a, t :| a in sources && t in a.tokens && t in live && Src(a.id) == Src(s.id) && m == Tok(t.id);
        var k :| 0 <= k < |s.tokens| && s.tokens[k] == t;
      }
      forall t, m | t in w.tokens && (Tok(t.id), m) in Edges()
        ensures exists k :: 0 <= k < |t.callbacks| && t.callbacks[k].Chain? && m == Src(t.callbacks[k].child.id)
      {
        var a, c :| a in tokens && c in a.callbacks && c.Chain? && Tok(a.id) == Tok(t.id) && m == Src(c.child.id);
        var k :| 0 <= k < |t.callbacks| && t.callbacks[k] == c;
      }
    }

    // What hangs where the source hangs is not below it.
    lemma NotBelow(root: Source)
      requires Valid() && root in sources && Src(root.id) in parents
      ensures forall t | t in tokens && Tok(t.id) == parents[Src(root.id)] :: !TokenBelow(root, t)
      ensures forall s | s in sources && s != root && Src(s.id) in parents && parents[Src(s.id)] == parents[Src(root.id)] ::
                !SourceBelow(root, s)
    {
      EdgesAreOrdered();
      NeitherParentNorSibling(Edges(), parents, Src(root.id), Src(root.id));
      forall s | s in sources && s != root && Src(s.id) in parents && parents[Src(s.id)] == parents[Src(root.id)]
        ensures !SourceBelow(root, s)
      {
        NeitherParentNorSibling(Edges(), parents, Src(root.id), Src(s.id));
      }
    }

    lemma FootprintIsBelow(root: Source)
      ensures var w := Footprint(root);
              && (forall s :: s in w.sources <==> s in sources && SourceBelow(root, s))
              && (forall t :: t in w.tokens <==> t in tokens && TokenBelow(root, t))
              && (forall s | s in w.sources ::
                    SourceView(s.signal, s.tokens) == w.sourceStart[s] && Reach(Edges(), Src(root.id), Src(s.id)))
              && (forall t | t in w.tokens ::
                    TokenView(t.signal, t.callbacks, t.fired) == w.tokenStart[t] && Reach(Edges(), Src(root.id), Tok(t.id)))
              && w.live == live
    {
    }

    twostate predicate SourceAfter(below: bool, s: Source)
      reads this, s
    {
      if below
      then s.signal && s.tokens == if old(s.signal) then old(s.tokens) else LiveOnly(old(s.tokens), old(live))
      else unchanged(s)
    }

    twostate predicate TokenAfter(below: bool, t: Token)
      reads t
    {
      if below
      then && t.signal && t.callbacks == (if old(t.signal) then old(t.callbacks) else [])
           && t.fired == (if old(t.signal) then old(t.fired)
                          else FiredAfter(old(t.fired), old(t.callbacks), |old(t.callbacks)|))
      else unchanged(t)
    }

    method CancelBelow(root: Source, ghost w: World)
      requires Valid() && root in sources && w == Footprint(root)
      modifies w.sources, w.tokens
      ensures forall s | s in w.sources :: SourceAfter(true, s)
      ensures forall t | t in w.tokens :: TokenAfter(true, t)
    {
      ReachSelf(Edges(), Src(root.id));
      FootprintIsInOrder(root);
      FootprintIsPictured(root);
      FootprintIsBelow(root);
      CancelReachable(root, live, w, Edges());
    }

    // What is canceled below a source leaves the family in order.
    method CancelInOrder(root: Source, ghost w: World)
      requires Valid() && root in sources && w == Footprint(root) && Closed(w)
      modifies w.sources, w.tokens
      ensures Valid()
      ensures forall s | s in w.sources :: SourceAfter(true, s)
      ensures forall t | t in w.tokens :: TokenAfter(true, t)
    {
      CancelBelow(root, w);
      forall s | s in sources ensures ListOk(s) {
        assert old(ListOk(s));
        if s in w.sources {
          assert SourceAfter(true, s);
          forall t | t in s.tokens && t in live ensures t.signal {
            BelowListIn(w, s, t);
            assert TokenAfter(true, t);
          }
        }
        forall t | t in s.tokens ensures old(t.signal) ==> t.signal {
          if t in w.tokens { assert TokenAfter(true, t); }
        }
      }
      forall t | t in tokens ensures TableOk(t) {
        assert old(TableOk(t));
        if t in w.tokens { assert TokenAfter(true, t); }
        forall c | c in t.callbacks && c.Chain? ensures old(c.child.signal) ==> c.child.signal {
          if c.child in w.sources { assert SourceAfter(true, c.child); }
        }
        if t in w.tokens && t.callbacks != [] {
          assert old(t.signal);
        }
      }
    }

    /** Canceling a source of a family, whatever its history: everything below it is canceled, each plain callback there
        runs once, and nothing else changes. In particular the token it is chained to, and the other sources chained to that
        token, stay as they are. */
    method CancelSource(root: Source)
      requires Valid() && root in sources
      modifies sources, tokens
      ensures Valid()
      ensures forall s | s in sources :: SourceAfter(old(SourceBelow(root, s)), s)
      ensures forall t | t in tokens :: TokenAfter(old(TokenBelow(root, t)), t)
      ensures forall t | t in tokens && old(TokenBelow(root, t)) && !old(t.signal) ::
                PlainRan(old(t.fired), old(t.callbacks), |old(t.callbacks)|, t.fired)
      ensures forall s | s in sources && old(SourceBelow(root, s)) && !old(s.signal) ::
                IsFiltered(old(s.tokens), old(live), s.tokens)
      ensures Src(root.id) in parents ==>
                && (forall t | t in tokens && Tok(t.id) == parents[Src(root.id)] :: unchanged(t))
                && (forall s | s in sources && s != root && Src(s.id) in parents
                             && parents[Src(s.id)] == parents[Src(root.id)] :: unchanged(s))
    {
      if Src(root.id) in parents { NotBelow(root); }
      ghost var w := Footprint(root);
      FootprintIsClosed(root);
      CancelInOrder(root, w);
      forall t | t in tokens && old(TokenBelow(root, t)) && !old(t.signal)
        ensures PlainRan(old(t.fired), old(t.callbacks), |old(t.callbacks)|, t.fired)
      {
        assert TokenAfter(true, t);
        FiredInOrder(old(t.fired), old(t.callbacks), |old(t.callbacks)|);
      }
      forall s | s in sources && old(SourceBelow(root, s)) && !old(s.signal)
        ensures IsFiltered(old(s.tokens), old(live), s.tokens)
      {
        assert SourceAfter(true, s);
        LiveOnlyFilters(old(s.tokens), old(live));
      }
    }
  }

  // One step of a history; nodes are named by their numbers, and a step that names a missing node does nothing.
  datatype Step =
    | New(canceled: bool)
    | Create(source: nat)
    | ChainBelow(token: nat)
    | Register(token: nat, callback: nat)
    | LetGo(token: nat)
    | CancelOne(source: nat)

  method Perform(family: Family, step: Step)
    requires family.Valid()
    modifies family, family.sources, family.tokens
    ensures family.Valid()
    ensures forall s | s in family.sources :: s in old(family.sources) || fresh(s)
    ensures forall t | t in family.tokens :: t in old(family.tokens) || fresh(t)
    ensures match step
            case New(canceled) =>
              && family.tokens == old(family.tokens) && family.live == old(family.live)
              && exists s | s in family.sources ::
                   fresh(s) && s.signal == canceled && s.tokens == [] && family.sources == old(family.sources) + {s}
            case Create(n) =>
              && family.sources == old(family.sources)
              && forall s | s in family.sources && s.id == n ::
                   exists t | t in family.live ::
                     && fresh(t) && t.signal == s.signal == old(s.signal) && s.tokens == old(s.tokens) + [t]
                     && family.tokens == old(family.tokens) + {t} && family.live == old(family.live) + {t}
            case ChainBelow(n) =>
              && family.tokens == old(family.tokens) && family.live == old(family.live)
              && forall t | t in family.live && t.id == n ::
                   exists s | s in family.sources ::
                     && fresh(s) && s.signal == t.signal == old(t.signal) && family.sources == old(family.sources) + {s}
                     && t.callbacks == old(t.callbacks) + if t.signal then [] else [Chain(s)]
            case Register(n, callback) =>
              && unchanged(family)
              && forall t | t in family.live && t.id == n ::
                   && t.callbacks == old(t.callbacks) + (if t.signal then [] else [Plain(callback)])
                   && t.fired == old(t.fired) + if t.signal then [callback] else []
            case LetGo(n) =>
              && family.sources == old(family.sources) && family.tokens == old(family.tokens)
              && family.live == set t | t in old(family.live) && t.id != n
            case CancelOne(n) =>
              && unchanged(family)
              && forall root | root in family.sources && root.id == n ::
                   && (forall s | s in family.sources ::
                         if old(family.SourceBelow(root, s)) then s.signal else unchanged(s))
                   && (forall t | t in family.tokens ::
                         if old(family.TokenBelow(root, t)) then t.signal else unchanged(t))
  {
    match step
    case New(canceled) => var _ := family.NewSource(canceled);
    case Create(n) => if s :| s in family.sources && s.id == n { var _ := family.CreateToken(s); }
    case ChainBelow(n) => if t :| t in family.live && t.id == n { var _ := family.ChainTo(t); }
    case Register(n, callback) => if t :| t in family.live && t.id == n { family.AddCallback(t, callback); }
    case LetGo(n) => if t :| t in family.live && t.id == n { family.Expire(t); }
    case CancelOne(n) => if s :| s in family.sources && s.id == n { family.CancelSource(s); }
  }

  /** Any history of creations, chainings, registrations, expiries and cancellations leads to a family in order, whose nodes
      hang on older nodes, each on the one it was created for. */
  method Replay(steps: seq<Step>) returns (family: Family)
    ensures fresh(family) && family.Valid() && CreationOrdered(family.Edges(), family.parents)
  {
    family := new Family();
    for i := 0 to |steps|
      invariant fresh(family) && family.Valid()
      invariant (forall s | s in family.sources :: fresh(s)) && forall t | t in family.tokens :: fresh(t)
    {
      Perform(family, steps[i]);
    }
    family.EdgesAreOrdered();
  }

  lemma BelowListIn(w: World, s: Source, t: Token)
    requires Closed(w) && s in w.sources && t in w.sourceStart[s].tokens && t in w.live
    ensures t in w.tokens
  {
    var k :| 0 <= k < |w.sourceStart[s].tokens| && w.sourceStart[s].tokens[k] == t;
  }
}
