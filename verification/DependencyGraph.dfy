/** Dependency graphs as adjacency lists: walks, cycles, and what reversing the edges keeps. */
module DependencyGraph {
  import opened Common

  type Graph = map<Name, seq<Name>>

  predicate IsWalk(g: Graph, p: seq<Name>) {
    p != [] && forall i :: 0 <= i < |p| - 1 ==> p[i] in g && p[i + 1] in g[p[i]]
  }

  /** Some non-empty walk returns to its start. */
  ghost predicate Cyclic(g: Graph) {
    exists p :: IsCycle(g, p)
  }

  predicate IsCycle(g: Graph, p: seq<Name>) {
    |p| > 1 && IsWalk(g, p) && p[0] == p[|p| - 1]
  }

  ghost predicate Reaches(g: Graph, u: Name, v: Name) {
    exists p :: IsWalk(g, p) && p[0] == u && p[|p| - 1] == v
  }

  lemma WalkExtends(g: Graph, p: seq<Name>, v: Name)
    requires IsWalk(g, p) && p[|p| - 1] in g && v in g[p[|p| - 1]]
    ensures IsWalk(g, p + [v])
  {
  }

  /** A walk through a graph's own keys that is longer than the key set contains a cycle. */
  lemma LongWalkHasCycle(g: Graph, p: seq<Name>) returns (i: nat, q: seq<Name>)
    requires IsWalk(g, p) && (forall k :: 0 <= k < |p| ==> p[k] in g) && |p| > |g.Keys|
    ensures i < |p| && IsCycle(g, q) && q[0] == p[i]
  {
    var j;
    i, j := Pigeonhole(p, g.Keys);
    q := p[i..j + 1];
    assert forall k :: 0 <= k < |q| ==> q[k] == p[i + k];
  }

  /** A cycle can also be entered at its second node. */
  lemma CycleTurns(g: Graph, p: seq<Name>) returns (q: seq<Name>)
    requires IsCycle(g, p)
    ensures IsCycle(g, q) && q[0] == p[1]
  {
    assert p[0] in g && p[1] in g[p[0]];
    q := p[1..] + [p[1]];
    forall i | 0 <= i < |q| - 1
      ensures q[i] in g && q[i + 1] in g[q[i]]
    {
      assert q[i] == p[i + 1] && q[i + 1] == (if i == |q| - 2 then p[1] else p[i + 2]);
    }
  }

  /** A prefix of a walk is a walk to where it stops. */
  lemma WalkPrefix(g: Graph, p: seq<Name>, i: nat)
    requires IsWalk(g, p) && i < |p|
    ensures Reaches(g, p[0], p[i])
  {
    var q := p[..i + 1];
    assert forall k :: 0 <= k < |q| ==> q[k] == p[k];
    assert IsWalk(g, q) && q[0] == p[0] && q[|q| - 1] == p[i];
  }

  ghost predicate Reversed(g: Graph, r: Graph) {
    forall u, v :: (u in g && v in g[u]) <==> (v in r && u in r[v])
  }

  function Backwards(p: seq<Name>): seq<Name> {
    seq(|p|, i requires 0 <= i < |p| => p[|p| - 1 - i])
  }

  lemma BackwardsWalk(g: Graph, r: Graph, p: seq<Name>)
    requires Reversed(g, r) && IsWalk(g, p)
    ensures IsWalk(r, Backwards(p))
  {
    var q := Backwards(p);
    forall i | 0 <= i < |q| - 1
      ensures q[i] in r && q[i + 1] in r[q[i]]
    {
      var k := |p| - 2 - i;
      assert p[k] in g && p[k + 1] in g[p[k]];
    }
  }

  /** The relation that the depth-first search checks is cyclic iff the one workers wait on is. */
  lemma CyclicReversed(g: Graph, r: Graph)
    requires Reversed(g, r)
    ensures Cyclic(g) <==> Cyclic(r)
  {
    if Cyclic(g) {
      var p :| IsCycle(g, p);
      BackwardsWalk(g, r, p);
      assert IsCycle(r, Backwards(p));
    }
    if Cyclic(r) {
      var p :| IsCycle(r, p);
      BackwardsWalk(r, g, p);
      assert IsCycle(g, Backwards(p));
    }
  }
}
