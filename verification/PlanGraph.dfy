/** The dependency checks of tools/controller_planning.py: edge validation, a
    depth-first cycle check over shared `visiting` and `visited` sets, and the
    resource edges between items that exclude each other. */
module PlanGraph {
  import opened Text

  datatype Dependency = Dependency(blocked: string, blocker: string, reason: string)

  /** Each key's blockers, in the order the edges name them. */
  type Graph = map<string, seq<string>>

  function BlockersOf(key: string, edges: seq<Dependency>): (r: seq<string>)
    ensures forall b :: b in r <==> exists e :: e in edges && e.blocked == key && e.blocker == b
  {
    if edges == [] then []
    else
      var n := |edges| - 1;
      assert edges == edges[..n] + [edges[n]];
      BlockersOf(key, edges[..n]) + (if edges[n].blocked == key then [edges[n].blocker] else [])
  }

  function GraphOf(keys: set<string>, edges: seq<Dependency>): Graph {
    map key | key in keys :: BlockersOf(key, edges)
  }

  predicate ClosedGraph(g: Graph) {
    forall key, b :: key in g && b in g[key] ==> b in g
  }

  // ------------------------------------------------------------ cycles

  predicate IsPath(g: Graph, p: seq<string>) {
    forall i :: 0 <= i < |p| - 1 ==> p[i] in g && p[i + 1] in g[p[i]]
  }

  predicate IsCycle(g: Graph, p: seq<string>) {
    |p| >= 2 && IsPath(g, p) && p[0] == p[|p| - 1]
  }

  ghost predicate HasCycle(g: Graph) {
    exists p :: IsCycle(g, p)
  }

  function Elements(s: seq<string>): set<string> {
    set x | x in s
  }

  predicate NoRepeats(s: seq<string>) {
    forall i, j :: 0 <= i < j < |s| ==> s[i] != s[j]
  }

  /** Every key comes after all of its blockers. */
  predicate Topological(g: Graph, order: seq<string>) {
    && NoRepeats(order)
    && forall i :: 0 <= i < |order| ==> order[i] in g && forall b :: b in g[order[i]] ==> b in order[..i]
  }

  function Position(order: seq<string>, x: string): (i: nat)
    requires x in order
    ensures i < |order| && order[i] == x
  {
    if order[0] == x then 0 else 1 + Position(order[1..], x)
  }

  /** Along a path the position in a topological order strictly falls. */
  lemma {:induction false} PathDescends(g: Graph, order: seq<string>, p: seq<string>, k: nat)
    requires Topological(g, order) && IsPath(g, p) && p != [] && p[0] in order && k < |p|
    ensures p[k] in order && Position(order, p[k]) + k <= Position(order, p[0])
  {
    if k > 0 {
      PathDescends(g, order, p, k - 1);
      var i := Position(order, p[k - 1]);
      assert p[k] in order[..i];
      var j :| 0 <= j < i && order[j] == p[k];
      assert Position(order, p[k]) == j;
    }
  }

  /** A graph that can be laid out in order has no cycle. */
  lemma TopologicalHasNoCycle(g: Graph, order: seq<string>)
    requires Topological(g, order) && Elements(order) == g.Keys
    ensures !HasCycle(g)
  {
    forall p | |p| >= 2 && IsPath(g, p) ensures p[0] != p[|p| - 1] {
      assert p[0] in g;
      PathDescends(g, order, p, |p| - 1);
    }
  }

  // ------------------------------------------------------------ the depth-first walk

  /** The two sets `visit` shares, and the finishing order they stand for. */
  class Walk {
    const graph: Graph
    var visiting: set<string>
    var visited: set<string>
    ghost var order: seq<string>

    constructor (graph: Graph)
      ensures this.graph == graph && visiting == {} && visited == {} && order == []
    {
      this.graph := graph;
      visiting := {};
      visited := {};
      order := [];
    }

    ghost predicate Valid()
      reads this
    {
      && ClosedGraph(graph)
      && visiting <= graph.Keys && visited !! visiting
      && visited == Elements(order) && Topological(graph, order)
    }

    /** `visit`: false where the source raises `dependency_cycle`. */
    method Visit(key: string, ghost stack: seq<string>) returns (ok: bool)
      requires Valid() && key in graph
      requires visiting == Elements(stack) && IsPath(graph, stack + [key])
      modifies this
      decreases graph.Keys - visiting
      ensures ok ==> Valid() && visiting == old(visiting) && old(visited) + {key} <= visited
      ensures !ok ==> HasCycle(graph)
    {
      if key in visiting {
        StackCycle(graph, stack, key);
        return false;
      }
      if key in visited {
        return true;
      }
      visiting := visiting + {key};
      ghost var path := stack + [key];
      var blockers := graph[key];
      for i := 0 to |blockers|
        invariant Valid() && visiting == old(visiting) + {key} == Elements(path)
        invariant old(visited) <= visited
        invariant forall b :: b in blockers[..i] ==> b in visited
      {
        assert path + [blockers[i]] == (stack + [key]) + [blockers[i]];
        ok := Visit(blockers[i], path);
        if !ok {
          return;
        }
      }
      assert blockers[..|blockers|] == blockers;
      FinishKey(graph, order, key);
      visiting := visiting - {key};
      visited := visited + {key};
      order := order + [key];
      return true;
    }
  }

  /** Meeting a key that is still being visited closes a cycle. */
  lemma StackCycle(g: Graph, stack: seq<string>, key: string)
    requires key in stack && IsPath(g, stack + [key])
    ensures HasCycle(g)
  {
    var i := Position(stack, key);
    var path := stack + [key];
    var cycle := path[i..];
    forall j | 0 <= j < |cycle| - 1 ensures cycle[j] in g && cycle[j + 1] in g[cycle[j]] {
      assert cycle[j] == path[i + j] && cycle[j + 1] == path[i + j + 1];
    }
    assert IsCycle(g, cycle);
  }

  lemma FinishKey(g: Graph, order: seq<string>, key: string)
    requires Topological(g, order) && key in g && key !in order
    requires forall b :: b in g[key] ==> b in order
    ensures Topological(g, order + [key])
    ensures Elements(order + [key]) == Elements(order) + {key}
  {
    var next := order + [key];
    forall i | 0 <= i < |next| ensures next[i] in g && forall b :: b in g[next[i]] ==> b in next[..i] {
      if i < |order| {
        assert next[..i] == order[..i];
      } else {
        assert next[..i] == order;
      }
    }
  }

  /** The cycle check: succeeds exactly on acyclic graphs, whatever order the keys are visited in. */
  method CheckAcyclic(graph: Graph) returns (ok: bool)
    requires ClosedGraph(graph)
    ensures ok <==> !HasCycle(graph)
  {
    var walk := new Walk(graph);
    var pending := graph.Keys;
    while pending != {}
      invariant walk.Valid() && walk.graph == graph && walk.visiting == {}
      invariant pending <= graph.Keys && graph.Keys - pending <= walk.visited
      decreases pending
    {
      var key :| key in pending;
      ok := walk.Visit(key, []);
      if !ok {
        return;
      }
      pending := pending - {key};
    }
    TopologicalHasNoCycle(graph, walk.order);
    ok := true;
  }

  // ------------------------------------------------------------ edges

  const REASONS := {"data", "resource"}

  /** The refusal one edge earns, given the edges before it. */
  function EdgeFault(before: seq<Dependency>, e: Dependency, keys: set<string>): Option<string> {
    if e.blocked !in keys || e.blocker !in keys then Some("dangling_dependency")
    else if e.blocked == e.blocker then Some("dependency_cycle")
    else if e.reason !in REASONS then Some("invalid_dependency_reason")
    else if exists x :: x in before && x.blocked == e.blocked && x.blocker == e.blocker then
      Some("duplicate_dependency")
    else None
  }

  /** The first refusal, in edge order. */
  function FirstFault(edges: seq<Dependency>, keys: set<string>): Option<string> {
    if edges == [] then None
    else
      var n := |edges| - 1;
      var earlier := FirstFault(edges[..n], keys);
      if earlier.Some? then earlier else EdgeFault(edges[..n], edges[n], keys)
  }

  lemma {:induction false} FaultPrefix(edges: seq<Dependency>, keys: set<string>, i: nat)
    requires i <= |edges| && FirstFault(edges[..i], keys).Some?
    ensures FirstFault(edges, keys) == FirstFault(edges[..i], keys)
  {
    if i < |edges| {
      var n := |edges| - 1;
      assert edges[..n][..i] == edges[..i];
      FaultPrefix(edges[..n], keys, i);
    } else {
      assert edges[..i] == edges;
    }
  }

  lemma {:induction false} FaultlessEdges(edges: seq<Dependency>, keys: set<string>)
    ensures FirstFault(edges, keys).None? <==>
            && (forall e :: e in edges ==>
                  e.blocked in keys && e.blocker in keys && e.blocked != e.blocker && e.reason in REASONS)
            && (forall i, j :: 0 <= i < j < |edges| ==>
                  edges[i].blocked != edges[j].blocked || edges[i].blocker != edges[j].blocker)
  {
    if edges != [] {
      var n := |edges| - 1;
      FaultlessEdges(edges[..n], keys);
      assert edges == edges[..n] + [edges[n]];
      assert edges[n] in edges;
    }
  }

  lemma GraphOfStep(keys: set<string>, edges: seq<Dependency>, e: Dependency)
    requires e.blocked in keys
    ensures var g := GraphOf(keys, edges);
            GraphOf(keys, edges + [e]) == g[e.blocked := g[e.blocked] + [e.blocker]]
  {
    assert (edges + [e])[..|edges|] == edges;
    forall key | key in keys
      ensures BlockersOf(key, edges + [e]) ==
              if key == e.blocked then BlockersOf(key, edges) + [e.blocker] else BlockersOf(key, edges)
    {
      assert BlockersOf(key, edges) + [] == BlockersOf(key, edges);
    }
    var g := GraphOf(keys, edges);
    assert GraphOf(keys, edges + [e]).Keys == g[e.blocked := g[e.blocked] + [e.blocker]].Keys;
  }

  /** `_validate_dependencies`, after parsing: the first faulty edge refuses, and
      otherwise the package is accepted exactly when its graph has no cycle. */
  method ValidateDependencies(edges: seq<Dependency>, keys: set<string>) returns (r: Result<seq<Dependency>>)
    ensures FirstFault(edges, keys).Some? ==> r == Err(FirstFault(edges, keys).value)
    ensures FirstFault(edges, keys).None? ==>
              r == if HasCycle(GraphOf(keys, edges)) then Err("dependency_cycle") else Ok(edges)
  {
    var seen: set<(string, string)> := {};
    var graph: Graph := map key | key in keys :: [];
    for i := 0 to |edges|
      invariant FirstFault(edges[..i], keys).None?
      invariant seen == set e | e in edges[..i] :: (e.blocked, e.blocker)
      invariant graph == GraphOf(keys, edges[..i])
    {
      var e := edges[i];
      var fault: Option<string> := None;
      if e.blocked !in keys || e.blocker !in keys {
        fault := Some("dangling_dependency");
      } else if e.blocked == e.blocker {
        fault := Some("dependency_cycle");
      } else if e.reason !in REASONS {
        fault := Some("invalid_dependency_reason");
      } else if (e.blocked, e.blocker) in seen {
        fault := Some("duplicate_dependency");
      }
      assert edges[..i + 1][..i] == edges[..i];
      assert fault == EdgeFault(edges[..i], e, keys) by {
        if (e.blocked, e.blocker) in seen {
          var x :| x in edges[..i] && (x.blocked, x.blocker) == (e.blocked, e.blocker);
        }
        if exists x :: x in edges[..i] && x.blocked == e.blocked && x.blocker == e.blocker {
          var x :| x in edges[..i] && x.blocked == e.blocked && x.blocker == e.blocker;
          assert (x.blocked, x.blocker) in seen;
        }
      }
      if fault.Some? {
        FaultPrefix(edges, keys, i + 1);
        return Err(fault.value);
      }
      assert edges[..i + 1] == edges[..i] + [e];
      GraphOfStep(keys, edges[..i], e);
      seen := seen + {(e.blocked, e.blocker)};
      graph := graph[e.blocked := graph[e.blocked] + [e.blocker]];
    }
    assert edges[..|edges|] == edges;
    FaultlessEdges(edges, keys);
    var acyclic := CheckAcyclic(graph);
    return if acyclic then Ok(edges) else Err("dependency_cycle");
  }

  // ------------------------------------------------------------ resource edges

  datatype Claim = Claim(key: string, resources: seq<string>)

  predicate Collide(a: Claim, b: Claim) {
    exists r :: r in a.resources && r in b.resources
  }

  /** `edge_map.get((blocked, blocker))`: the last such edge's reason. */
  function EdgeReason(edges: seq<Dependency>, blocked: string, blocker: string): (r: Option<string>)
    ensures r.Some? ==> exists e :: e in edges && e.blocked == blocked && e.blocker == blocker && e.reason == r.value
  {
    if edges == [] then None
    else
      var n := |edges| - 1;
      assert edges == edges[..n] + [edges[n]];
      if edges[n].blocked == blocked && edges[n].blocker == blocker then Some(edges[n].reason)
      else EdgeReason(edges[..n], blocked, blocker)
  }

  predicate ResourceLinked(edges: seq<Dependency>, a: string, b: string) {
    EdgeReason(edges, a, b) == Some("resource") || EdgeReason(edges, b, a) == Some("resource")
  }

  predicate Separated(claims: seq<Claim>, edges: seq<Dependency>, i: nat, j: nat)
    requires i < j < |claims|
  {
    Collide(claims[i], claims[j]) ==> ResourceLinked(edges, claims[i].key, claims[j].key)
  }

  /** `_validate_resource_edges`: every pair of items that share an exclusive
      resource is ordered by an explicit resource dependency. */
  method ValidateResourceEdges(claims: seq<Claim>, edges: seq<Dependency>) returns (r: Result<()>)
    ensures r.Ok? <==> forall i, j :: 0 <= i < j < |claims| ==> Separated(claims, edges, i, j)
    ensures r.Err? ==> r.error == "missing_resource_dependency"
  {
    for i := 0 to |claims|
      invariant forall a, b :: 0 <= a < i && a < b < |claims| ==> Separated(claims, edges, a, b)
    {
      for j := i + 1 to |claims|
        invariant forall a, b :: 0 <= a < i && a < b < |claims| ==> Separated(claims, edges, a, b)
        invariant forall b :: i < b < j ==> Separated(claims, edges, i, b)
      {
        if (exists x :: x in claims[i].resources && x in claims[j].resources)
           && !ResourceLinked(edges, claims[i].key, claims[j].key) {
          assert !Separated(claims, edges, i, j);
          return Err("missing_resource_dependency");
        }
      }
    }
    return Ok(());
  }
}
