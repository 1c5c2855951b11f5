/** The mesh graph of online nodes (control-plane/routing/graph.go). */
module MeshGraph {
  import opened Common
  import opened HopCost

  datatype NodeType = Client | Relay | Exit

  datatype NodeInfo = NodeInfo(id: string, nodeType: NodeType, endpoint: string)

  datatype Edge = Edge(from: string, to: string, cost: real)

  type NodeTable = map<string, NodeInfo>

  datatype Graph = Graph(nodes: NodeTable, edges: map<string, seq<Edge>>, weights: Weights) {
    function Neighbors(id: string): seq<Edge> {
      if id in edges then edges[id] else []
    }

    /** What Dijkstra needs: edges leave the node they are filed under, reach nodes of the graph
        and cost nothing negative; node IDs are primary keys, so none is the empty string. */
    ghost predicate WellFormed() {
      && "" !in nodes
      && forall u, e :: e in Neighbors(u) ==> u in nodes && e.from == u && e.to in nodes && e.cost >= 0.0
    }
  }

  /** The cost of a hop through each node. */
  type NodeCosts = string -> real

  function CostsOf(metrics: map<string, Metrics>, w: Weights): NodeCosts {
    id => Cost(if id in metrics then Some(metrics[id]) else None, w)
  }

  /** Two clients never link, and neither do two nodes without a public endpoint. */
  predicate Linkable(a: NodeInfo, b: NodeInfo) {
    !(a.nodeType.Client? && b.nodeType.Client?) && !(a.endpoint == "" && b.endpoint == "")
  }

  function LinkCost(c: NodeCosts, a: string, b: string): real {
    (c(a) + c(b)) / 2.0
  }

  /** The edges of `nodes[p]` towards `nodes[..k]`, in list order. */
  ghost function LinksTo(nodes: seq<NodeInfo>, c: NodeCosts, p: nat, k: nat): seq<Edge>
    requires p < |nodes| && k <= |nodes|
  {
    if k == 0 then []
    else
      var a, b := nodes[p], nodes[k - 1];
      LinksTo(nodes, c, p, k - 1) +
      if k - 1 != p && Linkable(a, b) then [Edge(a.id, b.id, LinkCost(c, a.id, b.id))] else []
  }

  /** Node IDs are the primary key of the nodes table. */
  ghost predicate UniqueIds(nodes: seq<NodeInfo>) {
    forall i, j :: 0 <= i < j < |nodes| ==> nodes[i].id != nodes[j].id
  }

  function At(edges: map<string, seq<Edge>>, id: string): seq<Edge> {
    if id in edges then edges[id] else []
  }

  /** How far along the node list the edges of node `p` have got when the pair (i, j) is next. */
  ghost function Progress(n: nat, p: nat, i: nat, j: nat): nat {
    if p < i then n
    else if p == i then (if i < j then j else i)
    else if p < j then i + 1
    else i
  }

  ghost predicate RowUpTo(nodes: seq<NodeInfo>, c: NodeCosts, edges: map<string, seq<Edge>>, p: nat, i: nat, j: nat)
    requires p < |nodes| && i <= |nodes| && j <= |nodes| && (i == |nodes| ==> j == 0)
  {
    At(edges, nodes[p].id) == LinksTo(nodes, c, p, Progress(|nodes|, p, i, j))
  }

  ghost predicate EdgesUpTo(nodes: seq<NodeInfo>, c: NodeCosts, edges: map<string, seq<Edge>>, i: nat, j: nat)
    requires i <= |nodes| && j <= |nodes| && (i == |nodes| ==> j == 0)
  {
    && (forall id :: id in edges ==> exists p :: 0 <= p < |nodes| && nodes[p].id == id)
    && forall p :: 0 <= p < |nodes| ==> RowUpTo(nodes, c, edges, p, i, j)
  }

  /** A pair that gets no edge advances the scan without touching any edge list. */
  lemma SkipPair(nodes: seq<NodeInfo>, c: NodeCosts, edges: map<string, seq<Edge>>, p: nat, i: nat, j: nat)
    requires i < |nodes| && j < |nodes| && p < |nodes| && RowUpTo(nodes, c, edges, p, i, j)
    requires i >= j || !Linkable(nodes[i], nodes[j])
    ensures RowUpTo(nodes, c, edges, p, i, j + 1)
  {
  }

  /** A linkable pair extends the edge lists of its two nodes and no other. */
  lemma LinkPair(nodes: seq<NodeInfo>, c: NodeCosts, edges: map<string, seq<Edge>>,
                 p: nat, i: nat, j: nat, edges': map<string, seq<Edge>>)
    requires UniqueIds(nodes) && i < j < |nodes| && p < |nodes| && RowUpTo(nodes, c, edges, p, i, j)
    requires Linkable(nodes[i], nodes[j])
    requires At(edges', nodes[p].id) == At(edges, nodes[p].id)
             + if p == i then [Edge(nodes[i].id, nodes[j].id, LinkCost(c, nodes[i].id, nodes[j].id))]
               else if p == j then [Edge(nodes[j].id, nodes[i].id, LinkCost(c, nodes[i].id, nodes[j].id))]
               else []
    ensures RowUpTo(nodes, c, edges', p, i, j + 1)
  {
  }

  /** The edge lists after both directed edges of the pair (i, j) have been appended. */
  function WithPair(edges: map<string, seq<Edge>>, a: string, b: string, cost: real): map<string, seq<Edge>> {
    var first := edges[a := At(edges, a) + [Edge(a, b, cost)]];
    first[b := At(first, b) + [Edge(b, a, cost)]]
  }

  /** One turn of the inner loop. */
  lemma ScanPair(nodes: seq<NodeInfo>, c: NodeCosts, edges: map<string, seq<Edge>>, i: nat, j: nat,
                 edges': map<string, seq<Edge>>)
    requires UniqueIds(nodes) && i < |nodes| && j < |nodes| && EdgesUpTo(nodes, c, edges, i, j)
    requires edges' == if i < j && Linkable(nodes[i], nodes[j])
                       then WithPair(edges, nodes[i].id, nodes[j].id, LinkCost(c, nodes[i].id, nodes[j].id))
                       else edges
    ensures EdgesUpTo(nodes, c, edges', i, j + 1)
  {
    var next := j + 1;
    forall p | 0 <= p < |nodes| ensures RowUpTo(nodes, c, edges', p, i, next) {
      if i < j && Linkable(nodes[i], nodes[j]) {
        assert p != i ==> nodes[p].id != nodes[i].id;
        assert p != j ==> nodes[p].id != nodes[j].id;
        assert nodes[i].id != nodes[j].id;
        LinkPair(nodes, c, edges, p, i, j, edges');
      } else {
        SkipPair(nodes, c, edges, p, i, j);
      }
    }
  }

  lemma RowDone(nodes: seq<NodeInfo>, c: NodeCosts, edges: map<string, seq<Edge>>, i: nat)
    requires i < |nodes| && EdgesUpTo(nodes, c, edges, i, |nodes|)
    ensures EdgesUpTo(nodes, c, edges, i + 1, 0)
  {
    var next := i + 1;
    forall p | 0 <= p < |nodes| ensures RowUpTo(nodes, c, edges, p, next, 0) {
      assert RowUpTo(nodes, c, edges, p, i, |nodes|);
    }
  }

  method BuildEdges(nodes: seq<NodeInfo>, c: NodeCosts) returns (edges: map<string, seq<Edge>>)
    requires UniqueIds(nodes)
    ensures EdgesUpTo(nodes, c, edges, |nodes|, 0)
  {
    edges := map[];
    for i := 0 to |nodes|
      invariant EdgesUpTo(nodes, c, edges, i, 0)
    {
      for j := 0 to |nodes|
        invariant EdgesUpTo(nodes, c, edges, i, j)
      {
        var a, b := nodes[i], nodes[j];
        ghost var before := edges;
        if i < j && Linkable(a, b) {
          var avgCost := (c(a.id) + c(b.id)) / 2.0;
          edges := edges[a.id := At(edges, a.id) + [Edge(a.id, b.id, avgCost)]];
          edges := edges[b.id := At(edges, b.id) + [Edge(b.id, a.id, avgCost)]];
        }
        ScanPair(nodes, c, before, i, j, edges);
      }
      RowDone(nodes, c, edges, i);
    }
  }

  /** The nodes filed by ID. */
  ghost function ById(nodes: seq<NodeInfo>): NodeTable {
    if nodes == [] then map[] else ById(nodes[..|nodes| - 1])[nodes[|nodes| - 1].id := nodes[|nodes| - 1]]
  }

  lemma {:induction false} ByIdHolds(nodes: seq<NodeInfo>)
    requires UniqueIds(nodes)
    ensures forall p :: 0 <= p < |nodes| ==> nodes[p].id in ById(nodes) && ById(nodes)[nodes[p].id] == nodes[p]
    ensures forall id :: id in ById(nodes) ==> exists p :: 0 <= p < |nodes| && nodes[p].id == id
  {
    if nodes != [] {
      var n := |nodes| - 1;
      ByIdHolds(nodes[..n]);
      forall id | id in ById(nodes) ensures exists p :: 0 <= p < |nodes| && nodes[p].id == id {
        if id == nodes[n].id {
          assert nodes[n].id == id;
        } else {
          var p :| 0 <= p < n && nodes[..n][p].id == id;
          assert nodes[p].id == id;
        }
      }
      forall p | 0 <= p < |nodes| ensures nodes[p].id in ById(nodes) && ById(nodes)[nodes[p].id] == nodes[p] {
        if p < n {
          assert nodes[..n][p] == nodes[p] && nodes[p].id != nodes[n].id;
        }
      }
    }
  }

  /** Nodes by ID, and every node's edges to exactly the nodes it can link with, in list order. */
  ghost predicate Built(g: Graph, nodes: seq<NodeInfo>, c: NodeCosts) {
    g.nodes == ById(nodes) && EdgesUpTo(nodes, c, g.edges, |nodes|, 0)
  }

  method BuildGraph(nodes: seq<NodeInfo>, metrics: map<string, Metrics>, weights: Weights) returns (g: Graph)
    requires UniqueIds(nodes)
    ensures g.weights == weights
    ensures Built(g, nodes, CostsOf(metrics, weights))
  {
    var byId: NodeTable := map[];
    for i := 0 to |nodes|
      invariant byId == ById(nodes[..i])
    {
      byId := byId[nodes[i].id := nodes[i]];
      assert nodes[..i + 1][..i] == nodes[..i];
    }
    assert nodes[..|nodes|] == nodes;
    var edges := BuildEdges(nodes, CostsOf(metrics, weights));
    g := Graph(byId, edges, weights);
  }

  /** Among the nodes `ns`, `u` and `v` are joined by an edge. */
  predicate Adjacent(ns: NodeTable, u: string, v: string) {
    u in ns && v in ns && u != v && Linkable(ns[u], ns[v])
  }

  /** The edges are exactly the adjacent pairs, each at the mean of its two node costs. */
  ghost predicate IsMesh(g: Graph, c: NodeCosts) {
    forall u, e :: e in g.Neighbors(u) <==>
      Adjacent(g.nodes, u, e.to) && e == Edge(u, e.to, LinkCost(c, u, e.to))
  }

  ghost predicate IsLink(nodes: seq<NodeInfo>, c: NodeCosts, p: nat, q: nat, e: Edge)
    requires p < |nodes| && q < |nodes|
  {
    q != p && Linkable(nodes[p], nodes[q]) && e == Edge(nodes[p].id, nodes[q].id, LinkCost(c, nodes[p].id, nodes[q].id))
  }

  lemma {:induction false} LinksToMembers(nodes: seq<NodeInfo>, c: NodeCosts, p: nat, k: nat, e: Edge)
    requires p < |nodes| && k <= |nodes|
    ensures e in LinksTo(nodes, c, p, k) <==> exists q :: 0 <= q < k && IsLink(nodes, c, p, q, e)
  {
    if k > 0 {
      LinksToMembers(nodes, c, p, k - 1, e);
      var a, b := nodes[p], nodes[k - 1];
      var last := if k - 1 != p && Linkable(a, b) then [Edge(a.id, b.id, LinkCost(c, a.id, b.id))] else [];
      assert LinksTo(nodes, c, p, k) == LinksTo(nodes, c, p, k - 1) + last;
      assert e in last <==> IsLink(nodes, c, p, k - 1, e);
    }
  }

  lemma BuiltIsMesh(g: Graph, nodes: seq<NodeInfo>, c: NodeCosts)
    requires UniqueIds(nodes) && Built(g, nodes, c)
    ensures IsMesh(g, c)
  {
    forall u, e
      ensures e in g.Neighbors(u) <==> Adjacent(g.nodes, u, e.to) && e == Edge(u, e.to, LinkCost(c, u, e.to))
    {
      if u in g.nodes {
        BuiltNeighbors(g, nodes, c, u, e);
      } else {
        ByIdHolds(nodes);
      }
    }
  }

  /** What BuildGraph builds, in terms of the rows: an edge from one node to another exactly if not both are
      clients and not both are without endpoint, at the mean of their two costs, and no other edge. */
  lemma BuiltLinksRows(g: Graph, nodes: seq<NodeInfo>, c: NodeCosts, u: string, e: Edge)
    requires UniqueIds(nodes) && Built(g, nodes, c)
    ensures e in g.Neighbors(u) <==> exists p, q ::
              && 0 <= p < |nodes| && 0 <= q < |nodes| && p != q && nodes[p].id == u && nodes[q].id == e.to
              && (nodes[p].nodeType != Client || nodes[q].nodeType != Client)
              && (nodes[p].endpoint != "" || nodes[q].endpoint != "")
              && e.from == u && e.cost == (c(nodes[p].id) + c(nodes[q].id)) / 2.0
  {
    BuiltIsMesh(g, nodes, c);
    ByIdHolds(nodes);
    if Adjacent(g.nodes, u, e.to) {
      var p :| 0 <= p < |nodes| && nodes[p].id == u;
      var q :| 0 <= q < |nodes| && nodes[q].id == e.to;
      assert p != q;
    }
  }

  lemma BuiltNeighbors(g: Graph, nodes: seq<NodeInfo>, c: NodeCosts, u: string, e: Edge)
    requires UniqueIds(nodes) && Built(g, nodes, c) && u in g.nodes
    ensures e in g.Neighbors(u) <==> Adjacent(g.nodes, u, e.to) && e == Edge(u, e.to, LinkCost(c, u, e.to))
  {
    ByIdHolds(nodes);
    var p :| 0 <= p < |nodes| && nodes[p].id == u;
    assert RowUpTo(nodes, c, g.edges, p, |nodes|, 0);
    LinksToMembers(nodes, c, p, |nodes|, e);
    if e in g.Neighbors(u) {
      var q :| 0 <= q < |nodes| && IsLink(nodes, c, p, q, e);
      assert nodes[q].id != nodes[p].id;
    }
    if Adjacent(g.nodes, u, e.to) && e == Edge(u, e.to, LinkCost(c, u, e.to)) {
      var q :| 0 <= q < |nodes| && nodes[q].id == e.to;
      assert IsLink(nodes, c, p, q, e);
    }
  }

  /** With non-negative node costs and non-empty IDs the built graph is one Dijkstra may run on. */
  lemma MeshIsWellFormed(g: Graph, c: NodeCosts)
    requires IsMesh(g, c) && (forall id :: c(id) >= 0.0) && "" !in g.nodes
    ensures g.WellFormed()
  {
    forall u, e | e in g.Neighbors(u) ensures u in g.nodes && e.from == u && e.to in g.nodes && e.cost >= 0.0 {
      assert Adjacent(g.nodes, u, e.to) && e == Edge(u, e.to, LinkCost(c, u, e.to));
    }
  }

  lemma CostsAreNonNegative(metrics: map<string, Metrics>, w: Weights)
    requires w.NonNegative()
    ensures forall id :: CostsOf(metrics, w)(id) >= 0.0
  {
    forall id ensures CostsOf(metrics, w)(id) >= 0.0 {
      CostBounds(if id in metrics then Some(metrics[id]) else None, w);
    }
  }
}
