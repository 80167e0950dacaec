/**
 Acceptance of the dependency graph declared by a design manifest
 (`AssuranceKernel._validate_manifest`): the edge checks, the construction of the
 successor sets, and the depth-first search over `visiting` and `visited`.
 */
module ManifestDag {

  datatype Edge = Edge(from: string, relation: string, to: string)

  datatype Error = InvalidRelation | UndeclaredArtifact | SelfCycle | DependencyCycle

  datatype Verdict = Accepted | Rejected(error: Error)

  type Graph = map<string, set<string>>

  const RELATIONS := {"governs", "refines", "evaluated_by", "baselined_by", "constrains"}

  predicate WellFormed(nodes: set<string>, e: Edge) {
    e.relation in RELATIONS && e.from in nodes && e.to in nodes && e.from != e.to
  }

  // The first check an ill-formed edge fails.
  function EdgeError(nodes: set<string>, e: Edge): Error {
    if e.relation !in RELATIONS then InvalidRelation
    else if e.from !in nodes || e.to !in nodes then UndeclaredArtifact
    else SelfCycle
  }

  // The graph the edges stand for, defined without reference to the order of insertion.
  ghost function GraphOf(nodes: set<string>, edges: seq<Edge>): Graph {
    map n | n in nodes :: set e | e in edges && e.from == n :: e.to
  }

  ghost predicate Closed(g: Graph) {
    forall n, d :: n in g && d in g[n] ==> d in g
  }

  // A walk follows successor links; a graph is cyclic when some walk of at least
  // one link ends where it began.
  ghost predicate Walk(g: Graph, p: seq<string>) {
    && p != []
    && (forall i :: 0 <= i < |p| ==> p[i] in g)
    && (forall i :: 0 <= i < |p| - 1 ==> p[i + 1] in g[p[i]])
  }

  ghost predicate Cyclic(g: Graph) {
    exists p :: Walk(g, p) && |p| >= 2 && p[0] == p[|p| - 1]
  }

  // Every successor of a listed node is listed before it.
  ghost predicate Topological(g: Graph, order: seq<string>) {
    forall i :: 0 <= i < |order| ==> order[i] in g && forall d :: d in g[order[i]] ==> d in order[..i]
  }

  lemma {:induction false} WalkDescends(g: Graph, order: seq<string>, p: seq<string>, k: nat)
    requires Topological(g, order)
    requires Walk(g, p) && |p| >= 2
    requires k < |order| && order[k] == p[0]
    ensures p[|p| - 1] in order[..k]
    decreases |p|
  {
    assert p[1] in g[p[0]] && p[1] in order[..k];
    if |p| <= 2 {
    } else {
      var j :| 0 <= j < k && order[j] == p[1];
      var tail := p[1..];
      assert forall i :: 0 <= i < |tail| ==> tail[i] == p[i + 1];
      WalkDescends(g, order, tail, j);
    }
  }

  lemma {:induction false} FirstIndex(order: seq<string>, x: string) returns (k: nat)
    requires x in order
    ensures k < |order| && order[k] == x && x !in order[..k]
  {
    if order[|order| - 1] == x && x !in order[..|order| - 1] {
      k := |order| - 1;
    } else {
      k := FirstIndex(order[..|order| - 1], x);
      assert order[..|order| - 1][..k] == order[..k];
    }
  }

  // A complete topological order excludes every cycle.
  lemma OrderedIsAcyclic(g: Graph, order: seq<string>)
    requires Topological(g, order)
    requires forall n :: n in g ==> n in order
    ensures !Cyclic(g)
  {
    forall p | Walk(g, p) && |p| >= 2 && p[0] == p[|p| - 1] ensures false {
      var k := FirstIndex(order, p[0]);
      WalkDescends(g, order, p, k);
    }
  }

  lemma TopologicalExtends(g: Graph, order: seq<string>, n: string)
    requires Topological(g, order) && n in g
    requires forall d :: d in g[n] ==> d in order
    ensures Topological(g, order + [n])
  {
    var longer := order + [n];
    forall i | 0 <= i < |longer|
      ensures longer[i] in g && forall d :: d in g[longer[i]] ==> d in longer[..i]
    {
      assert longer[..i] == order[..i];
      assert order[..|order|] == order;
    }
  }

  /** The two sets that the nested `visit` mutates, with the recursion stack as a ghost. */
  class Walker {
    const graph: Graph
    var visiting: set<string>
    var visited: set<string>
    ghost var stack: seq<string>
    ghost var order: seq<string>

    ghost predicate Valid() reads this {
      && Closed(graph)
      && visiting == (set n | n in stack)
      && visited == (set n | n in order)
      && visiting <= graph.Keys
      && visiting !! visited
      && Topological(graph, order)
      && (stack == [] || Walk(graph, stack))
    }

    constructor (g: Graph)
      requires Closed(g)
      ensures Valid() && graph == g && visited == {} && visiting == {} && stack == []
    {
      graph := g;
      visiting, visited, stack, order := {}, {}, [], [];
    }

    method Visit(node: string) returns (ok: bool)
      requires Valid() && node in graph
      requires stack != [] ==> node in graph[stack[|stack| - 1]]
      modifies this
      ensures ok ==> Valid() && stack == old(stack) && visiting == old(visiting)
      ensures ok ==> node in visited && old(visited) <= visited
      ensures !ok ==> Cyclic(graph)
      decreases graph.Keys - visiting
    {
      if node in visiting {
        ghost var k :| 0 <= k < |stack| && stack[k] == node;
        ghost var cycle := stack[k..] + [node];
        assert Walk(graph, cycle);
        return false;
      }
      if node in visited {
        return true;
      }
      ghost var outer := stack;
      visiting := visiting + {node};
      stack := stack + [node];
      assert Walk(graph, stack);
      var rest := graph[node];
      while rest != {}
        invariant Valid() && stack == outer + [node] && visiting == old(visiting) + {node}
        invariant rest <= graph[node]
        invariant graph[node] - rest <= visited && old(visited) <= visited
        decreases rest
      {
        var dependent :| dependent in rest;
        ok := Visit(dependent);
        if !ok {
          return false;
        }
        rest := rest - {dependent};
      }
      visiting := visiting - {node};
      stack := outer;
      assert forall d :: d in graph[node] ==> d in visited;
      TopologicalExtends(graph, order, node);
      visited := visited + {node};
      order := order + [node];
      return true;
    }

    // The driver loop: every declared artifact is visited.
    method Search() returns (ok: bool)
      requires Valid() && stack == []
      modifies this
      ensures ok <==> !Cyclic(graph)
    {
      var rest := graph.Keys;
      while rest != {}
        invariant Valid() && stack == []
        invariant rest <= graph.Keys && graph.Keys - rest <= visited
        decreases rest
      {
        var node :| node in rest;
        ok := Visit(node);
        if !ok {
          return false;
        }
        rest := rest - {node};
      }
      assert forall n :: n in graph ==> n in visited;
      OrderedIsAcyclic(graph, order);
      return true;
    }
  }

  /** The edge loop and the search: acceptance is exactly well-formedness plus acyclicity. */
  method ValidateEdges(nodes: set<string>, edges: seq<Edge>) returns (v: Verdict)
    ensures v == Accepted <==>
            (forall e :: e in edges ==> WellFormed(nodes, e)) && !Cyclic(GraphOf(nodes, edges))
    ensures v == Rejected(DependencyCycle) <==>
            (forall e :: e in edges ==> WellFormed(nodes, e)) && Cyclic(GraphOf(nodes, edges))
    ensures v.Rejected? && v.error != DependencyCycle ==>
            exists k :: 0 <= k < |edges| && !WellFormed(nodes, edges[k]) && v.error == EdgeError(nodes, edges[k])
                        && forall j :: 0 <= j < k ==> WellFormed(nodes, edges[j])
    ensures v == Accepted || v == Rejected(DependencyCycle) ==>
              forall e <- edges :: e.from in nodes && e.to in nodes && e.from != e.to
                                   && e.relation in ["governs", "refines", "evaluated_by", "baselined_by", "constrains"]
    ensures v == Rejected(InvalidRelation) ==>
              exists e <- edges ::
                e.relation !in ["governs", "refines", "evaluated_by", "baselined_by", "constrains"]
    ensures v == Rejected(UndeclaredArtifact) ==> exists e <- edges :: e.from !in nodes || e.to !in nodes
    ensures v == Rejected(SelfCycle) ==> exists e <- edges :: e.from == e.to
  {
    var graph: Graph := map n | n in nodes :: {};
    assert graph == GraphOf(nodes, edges[..0]) by {
      assert edges[..0] == [];
      forall n | n in nodes ensures GraphOf(nodes, edges[..0])[n] == {} {}
    }
    for i := 0 to |edges|
      invariant forall j :: 0 <= j < i ==> WellFormed(nodes, edges[j])
      invariant graph == GraphOf(nodes, edges[..i])
    {
      var e := edges[i];
      assert e in edges;
      if e.relation !in RELATIONS {
        return Rejected(InvalidRelation);
      }
      if e.from !in nodes || e.to !in nodes {
        return Rejected(UndeclaredArtifact);
      }
      if e.from == e.to {
        return Rejected(SelfCycle);
      }
      graph := graph[e.from := graph[e.from] + {e.to}];
      GraphExtends(nodes, edges, i);
    }
    assert edges[..|edges|] == edges;
    var walker := new Walker(graph);
    var ok := walker.Search();
    v := if ok then Accepted else Rejected(DependencyCycle);
  }

  ghost predicate Follows(edges: seq<Edge>, a: string, b: string) {
    exists e <- edges :: e.from == a && e.to == b
  }

  // A cycle of the graph is a cycle of edges.
  lemma CycleMeans(nodes: set<string>, edges: seq<Edge>)
    requires forall e <- edges :: WellFormed(nodes, e)
    ensures Cyclic(GraphOf(nodes, edges))
            <==> exists p: seq<string> :: |p| >= 2 && p[0] == p[|p| - 1]
                                          && forall i :: 0 <= i < |p| - 1 ==> Follows(edges, p[i], p[i + 1])
  {
    var g := GraphOf(nodes, edges);
    forall a, b ensures Follows(edges, a, b) <==> a in g && b in g[a] {
      if Follows(edges, a, b) {
        var e :| e in edges && e.from == a && e.to == b;
        assert WellFormed(nodes, e);
      }
    }
    forall p: seq<string> | |p| >= 2 && p[0] == p[|p| - 1]
      ensures Walk(g, p) <==> forall i :: 0 <= i < |p| - 1 ==> Follows(edges, p[i], p[i + 1])
    {
      EdgesWalk(nodes, edges, p);
    }
    hide Walk, Follows, GraphOf;
  }

  lemma EdgesWalk(nodes: set<string>, edges: seq<Edge>, p: seq<string>)
    requires forall e <- edges :: WellFormed(nodes, e)
    requires |p| >= 2 && p[0] == p[|p| - 1]
    ensures Walk(GraphOf(nodes, edges), p) <==> forall i :: 0 <= i < |p| - 1 ==> Follows(edges, p[i], p[i + 1])
  {
    var g := GraphOf(nodes, edges);
    if forall i :: 0 <= i < |p| - 1 ==> Follows(edges, p[i], p[i + 1]) {
      forall i | 0 <= i < |p| - 1 ensures p[i] in g && p[i + 1] in g[p[i]] {
        assert Follows(edges, p[i], p[i + 1]);
        var e :| e in edges && e.from == p[i] && e.to == p[i + 1];
        assert WellFormed(nodes, e);
      }
      assert p[|p| - 1] in g;
    }
    if Walk(g, p) {
      forall i | 0 <= i < |p| - 1 ensures Follows(edges, p[i], p[i + 1]) {
        assert p[i + 1] in g[p[i]];
        var e :| e in edges && e.from == p[i] && e.to == p[i + 1];
      }
    }
  }

  lemma GraphExtends(nodes: set<string>, edges: seq<Edge>, i: nat)
    requires i < |edges| && edges[i].from in nodes
    ensures GraphOf(nodes, edges[..i + 1]) ==
            GraphOf(nodes, edges[..i])[edges[i].from := GraphOf(nodes, edges[..i])[edges[i].from] + {edges[i].to}]
  {
    var g, h := GraphOf(nodes, edges[..i]), GraphOf(nodes, edges[..i + 1]);
    assert edges[..i + 1] == edges[..i] + [edges[i]];
    forall n | n in nodes
      ensures h[n] == if n == edges[i].from then g[n] + {edges[i].to} else g[n]
    {
      forall t | t in h[n] ensures t in g[n] || (n == edges[i].from && t == edges[i].to) {
        var e :| e in edges[..i + 1] && e.from == n && e.to == t;
      }
    }
  }
}
