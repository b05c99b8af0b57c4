/** Two step relations that differ by erased nodes have the same paths, up to erasing. */
module Erasure {
  import opened Common

  ghost predicate Path(step: (Id, Id) -> bool, p: seq<Id>) {
    forall k | 0 <= k < |p| - 1 :: step(p[k], p[k + 1])
  }

  /** A path without the nodes that are not kept. */
  function Erase(kept: set<Id>, p: seq<Id>): (r: seq<Id>)
    ensures p != [] && p[0] in kept ==> r != [] && r[0] == p[0]
    ensures forall k | 0 <= k < |r| :: r[k] in kept
  {
    if p == [] then []
    else
      var before, last := Erase(kept, p[..|p| - 1]), p[|p| - 1];
      if last in kept then before + [last] else before
  }

  /** Going on from the erased node `m`, reached from `x`, is a flat step from `x`, or goes nowhere. */
  ghost predicate Pending(step: (Id, Id) -> bool, flat: (Id, Id) -> bool, kept: set<Id>, x: Id, m: Id) {
    forall z :: step(m, z) ==> if z in kept then flat(x, z) else z == m
  }

  /** Every step from a kept node is flat, or leads to an erased node that only passes on. */
  ghost predicate Simulates(step: (Id, Id) -> bool, flat: (Id, Id) -> bool, kept: set<Id>) {
    forall x, y :: x in kept && step(x, y) ==>
      if y in kept then flat(x, y) else Pending(step, flat, kept, x, y)
  }

  /** Every flat step is a step, or two steps through an erased node. */
  ghost predicate Covers(step: (Id, Id) -> bool, flat: (Id, Id) -> bool, kept: set<Id>) {
    forall x, y :: flat(x, y) ==> y in kept && (step(x, y) || exists m :: m !in kept && step(x, m) && step(m, y))
  }

  /** `q` is the flat path followed so far, by a token now at `c`. */
  ghost predicate Follows(step: (Id, Id) -> bool, flat: (Id, Id) -> bool, kept: set<Id>, q: seq<Id>, c: Id) {
    && q != [] && Path(flat, q) && q[|q| - 1] in kept
    && if c in kept then q[|q| - 1] == c else Pending(step, flat, kept, q[|q| - 1], c)
  }

  lemma {:induction false} PathIsFollowed(step: (Id, Id) -> bool, flat: (Id, Id) -> bool, kept: set<Id>, p: seq<Id>)
    requires Simulates(step, flat, kept) && Path(step, p) && p != [] && p[0] in kept
    ensures Follows(step, flat, kept, Erase(kept, p), p[|p| - 1])
    decreases |p|
  {
    var n := |p| - 1;
    if n == 0 {
      assert Erase(kept, p[..0]) == [];
    } else {
      assert p[..n][n - 1] == p[n - 1] && step(p[n - 1], p[n]);
      PathIsFollowed(step, flat, kept, p[..n]);
    }
  }

  /** A path of steps, with the erased nodes left out, is a flat path. */
  lemma ErasedPathIsFlat(step: (Id, Id) -> bool, flat: (Id, Id) -> bool, kept: set<Id>, p: seq<Id>)
    requires Simulates(step, flat, kept) && Path(step, p) && p != [] && p[0] in kept
    ensures Path(flat, Erase(kept, p))
  {
    PathIsFollowed(step, flat, kept, p);
  }

  /** A flat path is some path of steps, with the erased nodes left out. */
  lemma {:induction false} FlatPathIsErased(step: (Id, Id) -> bool, flat: (Id, Id) -> bool, kept: set<Id>, q: seq<Id>)
    returns (p: seq<Id>)
    requires Covers(step, flat, kept) && Path(flat, q) && q != [] && q[0] in kept
    ensures Path(step, p) && p != [] && p[0] == q[0] && p[|p| - 1] == q[|q| - 1]
    ensures Erase(kept, p) == q
    decreases |q|
  {
    var n := |q| - 1;
    if n == 0 {
      p := q;
      assert Erase(kept, q[..0]) == [];
    } else {
      var x, y := q[n - 1], q[n];
      assert q[..n][n - 1] == x && flat(x, y);
      p := FlatPathIsErased(step, flat, kept, q[..n]);
      if !step(x, y) {
        var m :| m !in kept && step(x, m) && step(m, y);
        assert (p + [m])[..|p|] == p;
        p := p + [m];
      }
      assert (p + [y])[..|p|] == p;
      p := p + [y];
    }
  }
}
