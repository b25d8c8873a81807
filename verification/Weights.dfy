/** The total weight of a sequence of things: what the measures of the step systems are made of. */
module Weights {
  function Weigh<T>(scale: T -> nat, things: seq<T>): nat {
    if things == [] then 0 else Weigh(scale, things[..|things| - 1]) + scale(things[|things| - 1])
  }

  lemma {:induction false} WeighUpdate<T>(scale: T -> nat, things: seq<T>, i: nat, thing: T)
    requires i < |things|
    ensures Weigh(scale, things[i := thing]) + scale(things[i]) == Weigh(scale, things) + scale(thing)
  {
    var n := |things| - 1;
    if i < n {
      assert things[i := thing][..n] == things[..n][i := thing];
      WeighUpdate(scale, things[..n], i, thing);
    } else {
      assert things[i := thing][..n] == things[..n];
    }
  }

  lemma {:induction false} WeighAlike<T>(scale: T -> nat, these: seq<T>, those: seq<T>)
    requires |these| == |those| && forall i | 0 <= i < |these| :: scale(these[i]) == scale(those[i])
    ensures Weigh(scale, these) == Weigh(scale, those)
  {
    if these != [] { WeighAlike(scale, these[..|these| - 1], those[..|those| - 1]); }
  }
}
