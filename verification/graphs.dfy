/** A directed dependency graph as the scripts ask the graph libraries to
    build it: nodes kept in insertion order without duplicates, and every edge
    kept in the order it was added (repeated edges are kept). */
module Graphs {
  import opened Wrappers
  import opened Seqs

  datatype Edge = Edge(src: string, dst: string, caption: Option<string>)

  datatype Graph = Graph(nodes: seq<string>, edges: seq<Edge>)

  const Empty: Graph := Graph([], [])

  /** Adding a node has set semantics: an already-present node changes
      nothing, a new one goes last, and the edges are untouched. */
  function AddNode(g: Graph, n: string): (r: Graph)
    ensures r.edges == g.edges
    ensures n in g.nodes ==> r == g
    ensures forall m :: m in r.nodes <==> m in g.nodes || m == n
    ensures g.nodes <= r.nodes && |r.nodes| <= |g.nodes| + 1
    ensures NoDup(g.nodes) ==> NoDup(r.nodes)
  {
    if n in g.nodes then g else Graph(g.nodes + [n], g.edges)
  }

  /** `add_nodes_from(ns)`: the nodes of `ns` added one after another. */
  function AddNodesFrom(g: Graph, ns: seq<string>): (r: Graph)
    ensures r.edges == g.edges
    ensures |g.nodes| <= |r.nodes| <= |g.nodes| + |ns|
    decreases ns
  {
    if ns == [] then g else AddNodesFrom(AddNode(g, ns[0]), ns[1..])
  }

  /** `add_nodes_from(ns)` keeps the old nodes first and in place, adds exactly
      the names of `ns` not yet present, and never duplicates a node. */
  lemma {:induction false} AddNodesFromMembers(g: Graph, ns: seq<string>)
    ensures forall m :: m in AddNodesFrom(g, ns).nodes <==> m in g.nodes || m in ns
    ensures AddNodesFrom(g, ns).nodes[..|g.nodes|] == g.nodes
    ensures NoDup(g.nodes) ==> NoDup(AddNodesFrom(g, ns).nodes)
    decreases ns
  {
    if ns != [] {
      var g1 := AddNode(g, ns[0]);
      AddNodesFromMembers(g1, ns[1..]);
      assert forall m :: m in ns <==> m == ns[0] || m in ns[1..];
      assert AddNodesFrom(g, ns).nodes[..|g1.nodes|] == g1.nodes;
      assert g1.nodes[..|g.nodes|] == g.nodes;
    }
  }

  /** Adding a pair of nodes is adding the first, then the second. */
  lemma AddNodesFromPair(g: Graph, a: string, b: string)
    ensures AddNodesFrom(g, [a, b]) == AddNode(AddNode(g, a), b)
  {
    var g1 := AddNode(g, a);
    assert [a, b][1..] == [b];
    assert AddNodesFrom(g, [a, b]) == AddNodesFrom(g1, [b]);
    assert [b][1..] == [];
    assert AddNodesFrom(g1, [b]) == AddNodesFrom(AddNode(g1, b), []);
  }

  /** Adding the two endpoints of `e` to a graph whose nodes are the
      first-seen order of `source` gives the first-seen order of `source`
      extended by those endpoints, with at most two new nodes. */
  lemma AddEndpoints(g: Graph, source: seq<string>, e: Edge)
    requires FirstSeenOrder(g.nodes, source)
    ensures AddNodesFrom(g, [e.src, e.dst]).edges == g.edges
    ensures FirstSeenOrder(AddNodesFrom(g, [e.src, e.dst]).nodes, source + [e.src, e.dst])
    ensures |AddNodesFrom(g, [e.src, e.dst]).nodes| <= |g.nodes| + 2
  {
    AddNodesFromPair(g, e.src, e.dst);
    var g1 := AddNode(g, e.src);
    var g2 := AddNode(g1, e.dst);
    assert g1.nodes == if e.src in g.nodes then g.nodes else g.nodes + [e.src];
    assert g2.nodes == if e.dst in g1.nodes then g1.nodes else g1.nodes + [e.dst];
    FirstSeenExtend(g.nodes, source, e.src);
    FirstSeenExtend(g1.nodes, source + [e.src], e.dst);
    assert source + [e.src] + [e.dst] == source + [e.src, e.dst];
  }

  /** `add_edge`: one more edge at the end; both endpoints are already nodes
      wherever the scripts call it. */
  function AddEdge(g: Graph, e: Edge): (r: Graph)
    ensures r.nodes == g.nodes
    ensures |r.edges| == |g.edges| + 1 && r.edges[..|g.edges|] == g.edges && r.edges[|g.edges|] == e
    ensures Joined(g) && e.src in g.nodes && e.dst in g.nodes ==> Joined(r)
  {
    Graph(g.nodes, g.edges + [e])
  }

  /** Every edge runs between two nodes of the graph. */
  predicate Joined(g: Graph) {
    forall i :: 0 <= i < |g.edges| ==> g.edges[i].src in g.nodes && g.edges[i].dst in g.nodes
  }

  /** The endpoints of `es` in the order the building loop visits them:
      source then target, edge by edge. */
  function Endpoints(es: seq<Edge>): (r: seq<string>)
    ensures |r| == 2 * |es|
  {
    if es == [] then [] else Endpoints(es[..|es| - 1]) + [es[|es| - 1].src, es[|es| - 1].dst]
  }

  /** The loop shared by every graph-building function: for each edge, add
      both endpoints as nodes, then add the edge.  The result keeps every edge,
      in order, and lists each endpoint once in first-seen order. */
  function Build(es: seq<Edge>): (g: Graph)
    ensures g.edges == es
    ensures FirstSeenOrder(g.nodes, Endpoints(es))
    ensures forall n :: n in g.nodes <==> n in Endpoints(es)
    ensures |g.nodes| <= 2 * |es|
  {
    if es == [] then Empty
    else
      var prefix := es[..|es| - 1];
      var e := es[|es| - 1];
      var prev := Build(prefix);
      BuildStep(prev, prefix, e);
      assert prefix + [e] == es;
      AddEdge(AddNodesFrom(prev, [e.src, e.dst]), e)
  }

  /** One turn of the building loop keeps what `Build` promises. */
  lemma BuildStep(prev: Graph, prefix: seq<Edge>, e: Edge)
    requires prev.edges == prefix && FirstSeenOrder(prev.nodes, Endpoints(prefix))
    requires |prev.nodes| <= 2 * |prefix|
    ensures AddEdge(AddNodesFrom(prev, [e.src, e.dst]), e).edges == prefix + [e]
    ensures FirstSeenOrder(AddEdge(AddNodesFrom(prev, [e.src, e.dst]), e).nodes, Endpoints(prefix + [e]))
    ensures forall n :: n in AddEdge(AddNodesFrom(prev, [e.src, e.dst]), e).nodes <==> n in Endpoints(prefix + [e])
    ensures |AddEdge(AddNodesFrom(prev, [e.src, e.dst]), e).nodes| <= 2 * |prefix + [e]|
  {
    AddEndpoints(prev, Endpoints(prefix), e);
    var g := AddEdge(AddNodesFrom(prev, [e.src, e.dst]), e);
    assert (prefix + [e])[..|prefix|] == prefix;
    FirstSeenSameElements(g.nodes, Endpoints(prefix + [e]));
  }

  /** A name is an endpoint iff some edge starts or ends at it. */
  lemma {:induction false} EndpointsMembership(es: seq<Edge>)
    ensures forall n :: n in Endpoints(es) <==> exists i :: 0 <= i < |es| && (es[i].src == n || es[i].dst == n)
  {
    if es != [] {
      var prefix := es[..|es| - 1];
      EndpointsMembership(prefix);
      assert forall i :: 0 <= i < |prefix| ==> prefix[i] == es[i];
    }
  }

  /** Whatever the edges, the built graph has every edge's endpoints among
      its nodes, which is why `add_edge` never creates a node implicitly. */
  lemma BuildJoined(es: seq<Edge>)
    ensures Joined(Build(es))
  {
    var g := Build(es);
    EndpointsMembership(es);
    forall i | 0 <= i < |g.edges|
      ensures g.edges[i].src in g.nodes && g.edges[i].dst in g.nodes
    {
      assert g.edges[i] == es[i];
    }
  }

  /** Adding one more edge adds its endpoints then the edge itself. */
  lemma BuildSnoc(es: seq<Edge>, e: Edge)
    ensures Build(es + [e]) == AddEdge(AddNodesFrom(Build(es), [e.src, e.dst]), e)
  {
    assert (es + [e])[..|es|] == es;
  }

  /** The endpoints of `e` added to a graph holding none or exactly them. */
  lemma EndpointsOnce(g: Graph, e: Edge)
    requires g.nodes == [] || g.nodes == (if e.src == e.dst then [e.src] else [e.src, e.dst])
    ensures AddNodesFrom(g, [e.src, e.dst]).nodes == (if e.src == e.dst then [e.src] else [e.src, e.dst])
  {
    AddNodesFromPair(g, e.src, e.dst);
  }

  /** Adding the same edge `k` times gives `k` edges, not one, over the one or
      two endpoint nodes. */
  lemma {:induction false} RepeatedEdge(e: Edge, k: nat)
    ensures Build(Repeat(e, k)).edges == Repeat(e, k)
    ensures Build(Repeat(e, k)).nodes ==
      (if k == 0 then [] else if e.src == e.dst then [e.src] else [e.src, e.dst])
  {
    if k > 0 {
      RepeatedEdge(e, k - 1);
      BuildSnoc(Repeat(e, k - 1), e);
      EndpointsOnce(Build(Repeat(e, k - 1)), e);
    }
  }

}
