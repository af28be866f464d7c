/** The dependency graph under construction, its cycle check, and the set-up of a pipeline run. */
module Orchestration {
  import opened Common
  import opened PrefixSpec
  import opened Pipeline
  import opened DependencyGraph
  import opened Protocol
  import opened ProtocolInvariant

  // ------------------------------------------------------------------
  // Depth-first search
  // ------------------------------------------------------------------

  const WHITE := 0
  const GRAY := 1
  const BLACK := 2

  /** The colour map of validate_acyclic, with the finishing times that explain its verdict. */
  class Coloring {
    var state: map<Name, int>
    ghost var rank: map<Name, nat>
    ghost var clock: nat

    constructor ()
      ensures state == map[] && rank == map[] && clock == 0
    {
      state, rank, clock := map[], map[], 0;
    }

    /** An absent key reads as 0, as operator[] makes it. */
    function Color(v: Name): int
      reads this
    {
      if v in state then state[v] else WHITE
    }

    ghost function Unvisited(g: Graph): set<Name>
      reads this
    {
      set v | v in g && Color(v) == WHITE
    }

    /** `stack` is the recursion stack: a walk of the gray nodes; black nodes outrank all their successors. */
    ghost predicate Valid(g: Graph, stack: seq<Name>)
      reads this
    {
      && (forall v :: Color(v) in {WHITE, GRAY, BLACK})
      && (forall v :: Color(v) == GRAY <==> v in stack)
      && (forall v :: Color(v) == BLACK <==> v in rank)
      && (stack != [] ==> IsWalk(g, stack))
      && (forall v :: v in rank ==> v in g && rank[v] < clock)
      && (forall v, i :: v in rank && 0 <= i < |g[v]| ==> g[v][i] in rank && rank[g[v][i]] < rank[v])
    }
  }

  /** Every edge leads to a key: iterating over an adjacency list never needs a key that is absent. */
  predicate Closed(g: Graph) {
    forall u, v :: u in g && v in g[u] ==> v in g
  }

  predicate Ranked(g: Graph, rank: map<Name, nat>) {
    forall v, i :: v in g && 0 <= i < |g[v]| ==> v in rank && g[v][i] in rank && rank[g[v][i]] < rank[v]
  }

  /** Ranks that fall along every edge leave no room for a cycle. */
  lemma {:induction false} RankFalls(g: Graph, rank: map<Name, nat>, p: seq<Name>, i: nat)
    requires Ranked(g, rank)
    requires IsWalk(g, p) && 0 < i < |p|
    ensures p[0] in rank && p[i] in rank && rank[p[i]] < rank[p[0]]
  {
    assert p[i - 1] in g && p[i] in g[p[i - 1]];
    if i > 1 {
      RankFalls(g, rank, p, i - 1);
    }
  }

  lemma RankedIsAcyclic(g: Graph, rank: map<Name, nat>)
    requires Ranked(g, rank)
    ensures !Cyclic(g)
  {
    if p :| IsCycle(g, p) {
      RankFalls(g, rank, p, |p| - 1);
    }
  }

  /** A gray successor closes a cycle through the recursion stack. */
  lemma BackEdgeClosesCycle(g: Graph, stack: seq<Name>, v: Name)
    requires stack != [] && IsWalk(g, stack) && stack[|stack| - 1] in g && v in g[stack[|stack| - 1]] && v in stack
    ensures Cyclic(g) && Reaches(g, v, stack[|stack| - 1])
  {
    var j :| 0 <= j < |stack| && stack[j] == v;
    var p := stack[j..];
    assert forall k :: 0 <= k < |p| ==> p[k] == stack[j + k];
    assert IsWalk(g, p);
    var q := p + [v];
    assert forall k :: 0 <= k < |p| ==> q[k] == p[k];
    assert IsCycle(g, q);
  }

  /** The exception names an edge of the graph that closes a cycle. */
  ghost predicate NamesCycle(g: Graph, fault: Fault) {
    fault.DependencyCycle? && fault.from in g && fault.to in g[fault.from] && Reaches(g, fault.to, fault.from)
  }

  // ------------------------------------------------------------------
  // Registration counts
  // ------------------------------------------------------------------

  /** The positive requirements among the nodes in `done`. */
  function PositiveReqs(nodes: map<Name, Node>, done: set<Name>): set<int> {
    set n | n in done && n in nodes && ReqOf(nodes[n]) > 0 :: ReqOf(nodes[n])
  }

  function ConsumersIn(nodes: map<Name, Node>, done: set<Name>, w: int): set<Name> {
    set n | n in done && n in nodes && ReqOf(nodes[n]) == w
  }

  /** The monitor once the nodes in `done` are registered. */
  function RegisteredFor(nodes: map<Name, Node>, done: set<Name>): Monitor {
    FRESH.(milestones := PositiveReqs(nodes, done),
           remaining := map w | w in PositiveReqs(nodes, done) :: |ConsumersIn(nodes, done, w)|)
  }

  /** What is registered in the end, by the requirements of the branches themselves. */
  lemma RegisteredExactly(nodes: map<Name, Node>)
    ensures var m := RegisteredFor(nodes, nodes.Keys);
      && (forall w ::
            w in m.milestones <==> w > 0 && exists n :: n in nodes && nodes[n].Branch? && nodes[n].req == w)
      && m.remaining.Keys == m.milestones
      && forall w :: w in m.milestones ==>
           m.remaining[w] == |set n | n in nodes && nodes[n].Branch? && nodes[n].req == w|
  {
    var m := RegisteredFor(nodes, nodes.Keys);
    forall w
      ensures w in m.milestones <==> w > 0 && exists n :: n in nodes && nodes[n].Branch? && nodes[n].req == w
    {
      if w in m.milestones {
        var n :| n in nodes && ReqOf(nodes[n]) > 0 && w == ReqOf(nodes[n]);
        assert nodes[n].Branch? && nodes[n].req == w;
      }
      if n :| n in nodes && nodes[n].Branch? && nodes[n].req == w && w > 0 {
        assert ReqOf(nodes[n]) == w;
      }
    }
    forall w | w in m.milestones
      ensures m.remaining[w] == |set n | n in nodes && nodes[n].Branch? && nodes[n].req == w|
    {
      assert ConsumersIn(nodes, nodes.Keys, w) == set n | n in nodes && nodes[n].Branch? && nodes[n].req == w;
    }
  }

  lemma PositiveReqsGrow(nodes: map<Name, Node>, done: set<Name>, n: Name)
    requires n in nodes
    ensures var w := ReqOf(nodes[n]);
      PositiveReqs(nodes, done + {n}) == PositiveReqs(nodes, done) + (if w > 0 then {w} else {})
  {
    var before, after := PositiveReqs(nodes, done), PositiveReqs(nodes, done + {n});
    forall v
      ensures v in after <==> v in before || (v == ReqOf(nodes[n]) && v > 0)
    {
      if v in before {
        var k :| k in done && k in nodes && ReqOf(nodes[k]) > 0 && v == ReqOf(nodes[k]);
        assert k in done + {n};
      }
      if v == ReqOf(nodes[n]) && v > 0 {
        assert n in done + {n};
      }
    }
  }

  lemma ConsumersGrow(nodes: map<Name, Node>, done: set<Name>, n: Name, v: int)
    requires n in nodes && n !in done
    ensures |ConsumersIn(nodes, done + {n}, v)|
         == |ConsumersIn(nodes, done, v)| + (if v == ReqOf(nodes[n]) then 1 else 0)
  {
    var before, after := ConsumersIn(nodes, done, v), ConsumersIn(nodes, done + {n}, v);
    assert after == before + (if v == ReqOf(nodes[n]) then {n} else {});
  }

  lemma ConsumersArePositive(nodes: map<Name, Node>, done: set<Name>, w: int)
    requires w > 0
    ensures |ConsumersIn(nodes, done, w)| > 0 ==> w in PositiveReqs(nodes, done)
  {
    if |ConsumersIn(nodes, done, w)| > 0 {
      var k :| k in ConsumersIn(nodes, done, w);
      assert ReqOf(nodes[k]) == w;
    }
  }

  /** Registering one more node is one turn of the loop: its milestone, then its consumer count. */
  lemma RegisterOne(nodes: map<Name, Node>, done: set<Name>, n: Name)
    requires n in nodes && n !in done
    ensures var w := ReqOf(nodes[n]); var m := RegisteredFor(nodes, done);
      RegisteredFor(nodes, done + {n}) == (if w > 0 then m.RegisterMilestone(w).RegisterConsumer(w) else m)
  {
    var w := ReqOf(nodes[n]);
    var m, m' := RegisteredFor(nodes, done), RegisteredFor(nodes, done + {n});
    var expected := if w > 0 then m.RegisterMilestone(w).RegisterConsumer(w) else m;
    PositiveReqsGrow(nodes, done, n);
    if w > 0 {
      ConsumersArePositive(nodes, done, w);
    }
    assert m'.remaining.Keys == expected.remaining.Keys;
    forall v | v in m'.remaining
      ensures m'.remaining[v] == expected.remaining[v]
    {
      ConsumersGrow(nodes, done, n, v);
    }
    assert m'.remaining == expected.remaining;
  }

  /** Registering every node yields the monitor that the protocol starts from. */
  lemma RegisteredForAll(c: Config)
    requires c.Valid()
    ensures RegisteredFor(c.nodes, c.nodes.Keys) == RegisteredMonitor(c)
  {
    var m, m' := RegisteredFor(c.nodes, c.nodes.Keys), RegisteredMonitor(c);
    forall n | n in c.nodes
      ensures ReqOf(c.nodes[n]) == c.Req(n) && (ReqOf(c.nodes[n]) > 0 ==> n in c.Branches())
    {
    }
    SameMilestones(c);
    forall w | w in m.milestones
      ensures m.remaining[w] == m'.remaining[w]
    {
      assert ConsumersIn(c.nodes, c.nodes.Keys, w) == c.Consumers(w);
    }
    assert m.remaining == m'.remaining;
  }

  lemma SameMilestones(c: Config)
    requires c.Valid()
    ensures PositiveReqs(c.nodes, c.nodes.Keys) == c.Milestones()
  {
    forall w
      ensures w in PositiveReqs(c.nodes, c.nodes.Keys) <==> w in c.Milestones()
    {
      if w in PositiveReqs(c.nodes, c.nodes.Keys) {
        var n :| n in c.nodes && ReqOf(c.nodes[n]) > 0 && w == ReqOf(c.nodes[n]);
        assert n in c.Branches() && c.Req(n) == w;
      }
      if w in c.Milestones() {
        var n :| n in c.Branches() && c.Req(n) > 0 && c.Req(n) == w;
        assert n in c.nodes && ReqOf(c.nodes[n]) == w;
      }
    }
  }

  // ------------------------------------------------------------------
  // Edges
  // ------------------------------------------------------------------

  function Listed(g: Graph, u: Name): seq<Name> { if u in g then g[u] else [] }

  /** v appended to u's list; v gets a list of its own if it had none. */
  function WithEdge(g: Graph, u: Name, v: Name): Graph {
    var g' := g[u := Listed(g, u) + [v]];
    if v in g' then g' else g'[v := []]
  }

  /** g' differs from g by v at the end of u's list, and by keys for u and v. */
  ghost predicate OneEdgeMore(g: Graph, g': Graph, u: Name, v: Name) {
    && g'.Keys == g.Keys + {u, v}
    && g'[u] == (if u in g then g[u] else []) + [v]
    && forall w :: w in g' && w != u ==> g'[w] == if w in g then g[w] else []
  }

  lemma EdgeAdded(g: Graph, g': Graph, u: Name, v: Name)
    requires g' == WithEdge(g, u, v)
    ensures OneEdgeMore(g, g', u, v)
  {
  }

  /** Same keys, every edge leads to a key, and every edge is recorded equally often in both directions. */
  ghost predicate Mirror(g: Graph, r: Graph) {
    && g.Keys == r.Keys && Closed(g) && Closed(r)
    && (forall u, v :: multiset(Listed(g, u))[v] == multiset(Listed(r, v))[u])
  }

  lemma WithEdgeLists(g: Graph, u: Name, v: Name, a: Name)
    ensures Listed(WithEdge(g, u, v), a) == Listed(g, a) + (if a == u then [v] else [])
    ensures WithEdge(g, u, v).Keys == g.Keys + {u, v}
  {
  }

  lemma WithEdgeCounts(g: Graph, u: Name, v: Name, a: Name, b: Name)
    ensures multiset(Listed(WithEdge(g, u, v), a))[b]
         == multiset(Listed(g, a))[b] + (if a == u && b == v then 1 else 0)
  {
    WithEdgeLists(g, u, v, a);
  }

  lemma WithEdgeClosed(g: Graph, u: Name, v: Name)
    requires Closed(g)
    ensures Closed(WithEdge(g, u, v))
  {
  }

  /** Recording an edge in both maps keeps them each other's mirror. */
  lemma MirrorKept(g: Graph, r: Graph, u: Name, v: Name)
    requires Mirror(g, r)
    ensures Mirror(WithEdge(g, u, v), WithEdge(r, v, u))
  {
    WithEdgeClosed(g, u, v);
    WithEdgeClosed(r, v, u);
    WithEdgeLists(g, u, v, u);
    WithEdgeLists(r, v, u, v);
    forall a, b
      ensures multiset(Listed(WithEdge(g, u, v), a))[b] == multiset(Listed(WithEdge(r, v, u), b))[a]
    {
      WithEdgeCounts(g, u, v, a, b);
      WithEdgeCounts(r, v, u, b, a);
    }
  }

  // ------------------------------------------------------------------
  // The orchestrator
  // ------------------------------------------------------------------

  /** How far a worker comes through its dependency list before it has to wait. */
  datatype WaitEnd =
    | Through
    | BlockedAt(i: nat)   // the i-th wait does not return yet
    | MissingAt(i: nat)   // the i-th name was never registered: the look-up throws

  class Orchestrator {
    var nodes: map<Name, Node>
    var adj: Graph
    var revAdj: Graph

    ghost predicate Valid()
      reads this
    {
      Mirror(adj, revAdj)
    }

    constructor ()
      ensures Valid() && nodes == map[] && adj == map[] && revAdj == map[]
    {
      nodes, adj, revAdj := map[], map[], map[];
    }

    method AddNode(name: Name, node: Node) returns (r: Outcome)
      modifies this`nodes
      ensures r == (if name in old(nodes) then Fail(DuplicateNode) else Pass)
      ensures nodes == if name in old(nodes) then old(nodes) else old(nodes)[name := node]
    {
      if name in nodes {
        return Fail(DuplicateNode);
      }
      nodes := nodes[name := node];
      r := Pass;
    }

    method AddDependency(fromNode: Name, toNode: Name)
      requires Valid()
      modifies this`adj, this`revAdj
      ensures Valid()
      ensures adj == WithEdge(old(adj), fromNode, toNode) && revAdj == WithEdge(old(revAdj), toNode, fromNode)
      ensures OneEdgeMore(old(adj), adj, fromNode, toNode) && OneEdgeMore(old(revAdj), revAdj, toNode, fromNode)
    {
      hide Mirror, Closed, OneEdgeMore;
      MirrorKept(adj, revAdj, fromNode, toNode);
      adj := adj[fromNode := (if fromNode in adj then adj[fromNode] else []) + [toNode]];
      revAdj := revAdj[toNode := (if toNode in revAdj then revAdj[toNode] else []) + [fromNode]];
      if toNode !in adj {
        adj := adj[toNode := []];
      }
      if fromNode !in revAdj {
        revAdj := revAdj[fromNode := []];
      }
      EdgeAdded(old(adj), adj, fromNode, toNode);
      EdgeAdded(old(revAdj), revAdj, toNode, fromNode);
    }

    method GetDependenciesForNode(name: Name) returns (deps: seq<Name>)
      ensures deps == if name in revAdj then revAdj[name] else []
    {
      deps := if name in revAdj then revAdj[name] else [];
    }

    /** The wait on a registered upstream node would return at once. */
    predicate Available(state: PipelineState, fulfilled: set<Name>, req: int, dep: Name)
      requires dep in nodes
      reads this`nodes, state`watermark
    {
      if nodes[dep].Prefill? && req >= 0 then state.watermark >= req else dep in fulfilled
    }

    /**
     * The worker's loop over its dependencies, from the one it stands at to the first that is
     * not available, given whose promises are fulfilled.
     */
    method AwaitDependencies(name: Name, state: PipelineState, fulfilled: set<Name>, start: nat) returns (r: WaitEnd)
      requires name in nodes && start <= |Listed(revAdj, name)|
      ensures var deps := Listed(revAdj, name);
        var end := if r.Through? then |deps| else r.i;
        && start <= end <= |deps|
        && (forall j :: start <= j < end ==>
              deps[j] in nodes && Available(state, fulfilled, ReqOf(nodes[name]), deps[j]))
        && (r.MissingAt? ==> end < |deps| && deps[end] !in nodes)
        && (r.BlockedAt? ==>
              end < |deps| && deps[end] in nodes && !Available(state, fulfilled, ReqOf(nodes[name]), deps[end]))
    {
      var req := ReqOf(nodes[name]);
      var deps := GetDependenciesForNode(name);
      var i := start;
      while i < |deps|
        invariant start <= i <= |deps|
        invariant forall j :: start <= j < i ==> deps[j] in nodes && Available(state, fulfilled, req, deps[j])
      {
        if deps[i] !in nodes {
          return MissingAt(i);
        }
        if nodes[deps[i]].Prefill? && req >= 0 {
          var ready := state.PollWatermark(req);
          if !ready.value {
            return BlockedAt(i);
          }
        } else if deps[i] !in fulfilled {
          return BlockedAt(i);
        }
        i := i + 1;
      }
      r := Through;
    }

    /** The recursive search from u; a thrown cycle names an edge that closes one. */
    method Visit(u: Name, coloring: Coloring, ghost stack: seq<Name>) returns (r: Outcome)
      requires Closed(adj) && u in adj && coloring.Color(u) == WHITE && coloring.Valid(adj, stack)
      requires IsWalk(adj, stack + [u])
      modifies coloring
      ensures r == Pass ==> coloring.Valid(adj, stack) && coloring.Color(u) == BLACK
      ensures r == Pass ==> forall v :: v in old(coloring.rank) ==> v in coloring.rank
      ensures r == Pass ==> coloring.Unvisited(adj) <= old(coloring.Unvisited(adj)) - {u}
      ensures r != Pass ==> Cyclic(adj) && NamesCycle(adj, r.fault)
      decreases coloring.Unvisited(adj)
    {
      ghost var path, start := stack + [u], coloring.Unvisited(adj);
      Begin(u, coloring, stack);
      var i := 0;
      while i < |adj[u]|
        invariant 0 <= i <= |adj[u]| && coloring.Valid(adj, path)
        invariant coloring.Unvisited(adj) <= start - {u}
        invariant forall v :: v in old(coloring.rank) ==> v in coloring.rank
        invariant forall k :: 0 <= k < i ==> adj[u][k] in coloring.rank
      {
        var v := adj[u][i];
        if coloring.Color(v) == GRAY {
          BackEdgeClosesCycle(adj, path, v);
          return Fail(DependencyCycle(u, v));
        }
        if coloring.Color(v) == WHITE {
          WalkExtends(adj, path, v);
          var visited := Visit(v, coloring, path);
          if visited != Pass {
            return visited;
          }
        }
        i := i + 1;
      }
      Finish(u, coloring, stack);
      r := Pass;
    }

    /** Colouring u gray pushes it on the recursion stack. */
    method Begin(u: Name, coloring: Coloring, ghost stack: seq<Name>)
      requires u in adj && coloring.Valid(adj, stack) && coloring.Color(u) == WHITE && IsWalk(adj, stack + [u])
      modifies coloring`state
      ensures coloring.Valid(adj, stack + [u])
      ensures coloring.Unvisited(adj) == old(coloring.Unvisited(adj)) - {u} && u in old(coloring.Unvisited(adj))
    {
      coloring.state := coloring.state[u := GRAY];
      forall v
        ensures coloring.Color(v) == (if v == u then GRAY else old(coloring.Color(v)))
        ensures v in stack + [u] <==> v in stack || v == u
      {
      }
    }

    /** Colouring u black: its successors are all black already, so it outranks them. */
    method Finish(u: Name, coloring: Coloring, ghost stack: seq<Name>)
      requires u in adj && coloring.Valid(adj, stack + [u]) && u !in stack && IsWalk(adj, stack + [u])
      requires forall k :: 0 <= k < |adj[u]| ==> adj[u][k] in coloring.rank
      modifies coloring
      ensures coloring.Valid(adj, stack) && coloring.Color(u) == BLACK
      ensures coloring.rank.Keys == old(coloring.rank).Keys + {u}
      ensures coloring.Unvisited(adj) == old(coloring.Unvisited(adj))
    {
      assert forall k :: 0 <= k < |stack| ==> (stack + [u])[k] == stack[k];
      coloring.state := coloring.state[u := BLACK];
      coloring.rank, coloring.clock := coloring.rank[u := coloring.clock], coloring.clock + 1;
      forall v
        ensures coloring.Color(v) == (if v == u then BLACK else old(coloring.Color(v)))
        ensures v in stack + [u] <==> v in stack || v == u
      {
      }
    }

    /**
     * Rejects the graph if and only if it has a cycle, in whatever order the nodes are taken
     * up; self-loops, repeated edges and disconnected parts included. A pipeline run on a graph
     * that passes has no cycle of waits; one run on a graph that does not has one, if every
     * name in the graph is registered.
     */
    method ValidateAcyclic() returns (r: Outcome)
      requires Valid()
      ensures r == Pass <==> !Cyclic(adj)
      ensures r != Pass ==> NamesCycle(adj, r.fault)
      ensures r == Pass ==> forall c: Config :: c.Valid() && c.revAdj == revAdj ==> !Cyclic(WaitGraph(c))
      ensures r != Pass ==>
        forall c: Config :: c.Valid() && c.revAdj == revAdj && revAdj.Keys <= c.nodes.Keys ==> Cyclic(WaitGraph(c))
    {
      forall c: Config | c.Valid() && c.revAdj == revAdj
        ensures !Cyclic(adj) ==> !Cyclic(WaitGraph(c))
        ensures revAdj.Keys <= c.nodes.Keys ==> (Cyclic(adj) <==> Cyclic(WaitGraph(c)))
      {
        MirrorIsReversed(adj, revAdj);
        CheckDecidesWaits(adj, c);
      }
      var coloring := new Coloring();
      var todo := adj.Keys;
      while todo != {}
        invariant todo <= adj.Keys && coloring.Valid(adj, []) && fresh(coloring)
        invariant forall v :: v in adj && v !in todo ==> v in coloring.rank
      {
        var node :| node in todo;
        if coloring.Color(node) == WHITE {
          var visited := Visit(node, coloring, []);
          if visited != Pass {
            return visited;
          }
        }
        todo := todo - {node};
      }
      RankedIsAcyclic(adj, coloring.rank);
      r := Pass;
    }

    /** The registration loop of execute_pipeline, in whatever order the nodes come. */
    method RegisterMilestones(state: PipelineState)
      requires state.View() == FRESH
      modifies state`milestones, state`remaining
      ensures state.View() == RegisteredFor(nodes, nodes.Keys)
      ensures forall w ::
        w in state.milestones <==> w > 0 && exists n :: n in nodes && nodes[n].Branch? && nodes[n].req == w
      ensures state.remaining.Keys == state.milestones
      ensures forall w :: w in state.milestones ==>
        state.remaining[w] == |set n | n in nodes && nodes[n].Branch? && nodes[n].req == w|
    {
      var todo := nodes.Keys;
      while todo != {}
        invariant todo <= nodes.Keys && state.View() == RegisteredFor(nodes, nodes.Keys - todo)
      {
        var name :| name in todo;
        var w := ReqOf(nodes[name]);
        RegisterOne(nodes, nodes.Keys - todo, name);
        assert nodes.Keys - (todo - {name}) == nodes.Keys - todo + {name};
        if w > 0 {
          var registered := state.RegisterSnapshotMilestone(w);
          state.RegisterMilestoneConsumer(w);
        }
        todo := todo - {name};
      }
      assert nodes.Keys - todo == nodes.Keys;
      RegisteredExactly(nodes);
    }
  }

  /** Equal multiplicities make the two adjacency maps each other's converse. */
  lemma MirrorIsReversed(g: Graph, r: Graph)
    requires Mirror(g, r)
    ensures Reversed(g, r)
  {
    forall u, v
      ensures (u in g && v in g[u]) <==> (v in r && u in r[v])
    {
      assert v in Listed(g, u) <==> v in multiset(Listed(g, u));
      assert u in Listed(r, v) <==> u in multiset(Listed(r, v));
    }
  }

  /**
   * The cycle check decides what the workers need: a graph that passes it has no cycle of
   * waits, and if every name in the graph is registered the converse holds too.
   */
  lemma CheckDecidesWaits(adj: Graph, c: Config)
    requires c.Valid() && Reversed(adj, c.revAdj)
    ensures !Cyclic(adj) ==> !Cyclic(WaitGraph(c))
    ensures c.revAdj.Keys <= c.nodes.Keys ==> (Cyclic(adj) <==> Cyclic(WaitGraph(c)))
  {
    CyclicReversed(adj, c.revAdj);
    if Cyclic(WaitGraph(c)) {
      var p :| IsCycle(WaitGraph(c), p);
      WaitWalk(c, p);
      assert IsCycle(c.revAdj, p);
    }
    if c.revAdj.Keys <= c.nodes.Keys && Cyclic(c.revAdj) {
      var p :| IsCycle(c.revAdj, p);
      RegisteredWalk(c, p);
      assert IsCycle(WaitGraph(c), p);
    }
  }

  lemma WaitWalk(c: Config, p: seq<Name>)
    requires IsWalk(WaitGraph(c), p)
    ensures IsWalk(c.revAdj, p)
  {
    forall i | 0 <= i < |p| - 1
      ensures p[i] in c.revAdj && p[i + 1] in c.revAdj[p[i]]
    {
      assert p[i] in WaitGraph(c) && p[i + 1] in c.Deps(p[i]);
    }
  }

  lemma RegisteredWalk(c: Config, p: seq<Name>)
    requires c.Valid() && c.revAdj.Keys <= c.nodes.Keys && IsWalk(c.revAdj, p)
    ensures IsWalk(WaitGraph(c), p)
  {
    forall i | 0 <= i < |p| - 1
      ensures p[i] in WaitGraph(c) && p[i + 1] in WaitGraph(c)[p[i]]
    {
      assert p[i] in c.revAdj && p[i + 1] in c.Deps(p[i]);
    }
  }
}
