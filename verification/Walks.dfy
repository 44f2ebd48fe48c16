/** Walks and shortest distances in a finite directed graph, given by its successor sets. */
module Walks {
  type Graph<N(==)> = map<N, set<N>>

  function Successors<N(==)>(g: Graph<N>, n: N): set<N> {
    if n in g then g[n] else {}
  }

  /** Each node of the walk is a successor of the one before it. */
  predicate IsWalk<N(==)>(g: Graph<N>, walk: seq<N>) {
    walk != [] && forall i :: 0 < i < |walk| ==> walk[i] in Successors(g, walk[i - 1])
  }

  /** A walk of `steps` edges from `a` to `b`. */
  ghost predicate Reaches<N(!new)>(g: Graph<N>, a: N, b: N, steps: nat) {
    exists walk: seq<N> :: IsWalk(g, walk) && |walk| == steps + 1 && walk[0] == a && walk[steps] == b
  }

  ghost predicate Reachable<N(!new)>(g: Graph<N>, a: N, b: N) {
    exists steps: nat :: Reaches(g, a, b, steps)
  }

  /** `d` is the length of a shortest walk from `a` to `b`. */
  ghost predicate IsDistance<N(!new)>(g: Graph<N>, a: N, b: N, d: nat) {
    Reaches(g, a, b, d) && forall steps: nat :: Reaches(g, a, b, steps) ==> d <= steps
  }

  lemma {:induction false} NoSteps<N(!new)>(g: Graph<N>, a: N, b: N)
    ensures Reaches(g, a, b, 0) <==> a == b
  {
    if a == b {
      assert IsWalk(g, [a]);
    }
  }

  lemma {:induction false} OneMoreStep<N(!new)>(g: Graph<N>, a: N, b: N, c: N, steps: nat)
    requires Reaches(g, a, b, steps) && c in Successors(g, b)
    ensures Reaches(g, a, c, steps + 1)
  {
    var walk: seq<N> :| IsWalk(g, walk) && |walk| == steps + 1 && walk[0] == a && walk[steps] == b;
    var longer := walk + [c];
    assert IsWalk(g, longer) && longer[0] == a && longer[steps + 1] == c;
  }

  lemma {:induction false} LastStep<N(!new)>(g: Graph<N>, a: N, c: N, steps: nat) returns (b: N)
    requires steps > 0 && Reaches(g, a, c, steps)
    ensures Reaches(g, a, b, steps - 1) && c in Successors(g, b)
  {
    var walk: seq<N> :| IsWalk(g, walk) && |walk| == steps + 1 && walk[0] == a && walk[steps] == c;
    b := walk[steps - 1];
    var shorter := walk[..steps];
    assert IsWalk(g, shorter) && shorter[0] == a && shorter[steps - 1] == b;
  }

  /** A set that holds `a` and all successors of its members holds everything reachable from `a`. */
  lemma {:induction false} ClosedHoldsReachable<N(!new)>(g: Graph<N>, s: set<N>, a: N, b: N, steps: nat)
    requires a in s && (forall n :: n in s ==> Successors(g, n) <= s)
    requires Reaches(g, a, b, steps)
    ensures b in s
  {
    if steps == 0 {
      NoSteps(g, a, b);
    } else {
      var c := LastStep(g, a, b, steps);
      ClosedHoldsReachable(g, s, a, c, steps - 1);
    }
  }
}
