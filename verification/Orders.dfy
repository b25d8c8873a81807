/** The orders in which a hash container may be visited. */
module Orders {
  // The order lists every key exactly once: one possible iteration over a hash container.
  ghost predicate Enumerates<T(!new)>(order: seq<T>, keys: set<T>) {
    && (forall x :: x in order <==> x in keys)
    && (forall i, j | 0 <= i < j < |order| :: order[i] != order[j])
  }

  lemma {:induction false} OrderSize<T(!new)>(order: seq<T>, keys: set<T>)
    requires Enumerates(order, keys)
    ensures |order| == |keys|
    decreases |order|
  {
    if order == [] {
      assert keys == {};
    } else {
      var n := |order| - 1;
      var front := order[..n];
      assert order == front + [order[n]];
      forall x ensures x in front <==> x in keys - {order[n]} {
        if x in front { var i :| 0 <= i < n && front[i] == x; assert order[i] != order[n]; }
      }
      OrderSize(front, keys - {order[n]});
    }
  }

  lemma {:induction false} SomeOrder<T(!new)>(keys: set<T>) returns (order: seq<T>)
    ensures Enumerates(order, keys)
  {
    if keys == {} {
      order := [];
    } else {
      var k :| k in keys;
      var rest := SomeOrder(keys - {k});
      order := rest + [k];
    }
  }
}
