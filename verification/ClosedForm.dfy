/** What ShortestPath returns on the graphs BuildGraph builds. Edge weights are means of node costs, so
    path costs telescope; and the two linking rules leave any two connected nodes at most two hops
    apart. Hence a route is the pair itself, or goes through one cheapest common neighbour. */
module ClosedForm {
  import opened Common
  import opened HopCost
  import opened MeshGraph
  import opened Walks
  import opened Dijkstra

  ghost predicate NonNegative(c: NodeCosts) {
    forall id :: c(id) >= 0.0
  }

  /** The summed cost of the stops strictly between the ends. */
  ghost function Middle(c: NodeCosts, w: Walk): real {
    match w
    case Stay => 0.0
    case Hop(before, e) => if before.Stay? then 0.0 else Middle(c, before) + c(e.from)
  }

  /** A walk costs half of each end and all of what lies between. */
  lemma {:induction false} WalkCostTelescopes(g: Graph, c: NodeCosts, src: string, w: Walk, v: string)
    requires IsMesh(g, c) && NonNegative(c) && IsWalk(g, src, w, v)
    ensures w.Hop? ==> WalkCost(w) == (c(src) + c(v)) / 2.0 + Middle(c, w)
    ensures Middle(c, w) >= 0.0
  {
    if w.Hop? {
      assert w.edge == Edge(w.edge.from, v, LinkCost(c, w.edge.from, v));
      WalkCostTelescopes(g, c, src, w.before, w.edge.from);
    }
  }

  // ---- The shape of the graph ----

  ghost predicate Between(ns: NodeTable, src: string, m: string, dst: string) {
    Adjacent(ns, src, m) && Adjacent(ns, m, dst)
  }

  /** Two distinct nodes without an edge: the neighbours of one are all neighbours of the other. If both
      are clients, no neighbour of theirs is one, and an end with an endpoint links with all that are
      not; an end without has only neighbours with one, which link with the other end. If not both are
      clients, neither has an endpoint, so all their neighbours do, and link with an end that is no client. */
  lemma NeighboursNest(ns: NodeTable, u: string, v: string)
    requires u in ns && v in ns && u != v && !Adjacent(ns, u, v)
    ensures || (forall m :: Adjacent(ns, u, m) ==> Adjacent(ns, m, v))
            || (forall m :: Adjacent(ns, m, v) ==> Adjacent(ns, u, m))
  {
  }

  // ---- Short walks ----

  ghost function LinkOf(c: NodeCosts, u: string, v: string): Edge {
    Edge(u, v, LinkCost(c, u, v))
  }

  ghost function TwoHops(c: NodeCosts, src: string, m: string, dst: string): Walk {
    Hop(Hop(Stay, LinkOf(c, src, m)), LinkOf(c, m, dst))
  }

  lemma TwoHopsIsWalk(g: Graph, c: NodeCosts, src: string, m: string, dst: string)
    requires IsMesh(g, c) && Between(g.nodes, src, m, dst)
    ensures IsWalk(g, src, TwoHops(c, src, m, dst), dst)
    ensures WalkCost(TwoHops(c, src, m, dst)) == (c(src) + c(dst)) / 2.0 + c(m)
  {
    var first, last := LinkOf(c, src, m), LinkOf(c, m, dst);
    assert first in g.Neighbors(src) && last in g.Neighbors(m);
    assert IsWalk(g, src, Stay, src) && WalkCost(Stay) == 0.0;
    assert IsWalk(g, src, Hop(Stay, first), m);
    assert WalkCost(Hop(Stay, first)) == LinkCost(c, src, m);
  }

  lemma OneHopIsWalk(g: Graph, c: NodeCosts, src: string, dst: string)
    requires IsMesh(g, c) && Adjacent(g.nodes, src, dst)
    ensures IsWalk(g, src, Hop(Stay, LinkOf(c, src, dst)), dst)
    ensures WalkCost(Hop(Stay, LinkOf(c, src, dst))) == LinkCost(c, src, dst)
  {
  }

  /** The first edge of a walk that has one. */
  ghost function FirstEdge(w: Walk): Edge
    requires w.Hop?
  {
    if w.before.Stay? then w.edge else FirstEdge(w.before)
  }

  lemma {:induction false} FirstStep(g: Graph, c: NodeCosts, src: string, w: Walk, v: string)
    requires IsMesh(g, c) && NonNegative(c) && IsWalk(g, src, w, v) && w.Hop?
    ensures FirstEdge(w) == LinkOf(c, src, FirstEdge(w).to) && Adjacent(g.nodes, src, FirstEdge(w).to)
    ensures w.before.Hop? ==> Middle(c, w) >= c(FirstEdge(w).to)
  {
    if w.before.Stay? {
      assert w.edge in g.Neighbors(src);
    } else {
      FirstStep(g, c, src, w.before, w.edge.from);
      WalkCostTelescopes(g, c, src, w.before.before, w.before.edge.from);
    }
  }

  // ---- No route is longer than two hops ----

  lemma {:induction false} UndercutsSource(g: Graph, src: string, w: Walk, v: string, cost: real)
    requires Undercuts(g, src, w, v, cost)
    ensures ArrivesAbove(g, src, 0.0, v, cost)
  {
    if w.Hop? {
      UndercutsSource(g, src, w.before, v, cost);
    }
  }

  lemma {:induction false} UndercutsFirst(g: Graph, src: string, w: Walk, v: string, cost: real)
    requires Undercuts(g, src, w, v, cost) && w.Hop?
    ensures ArrivesAbove(g, FirstEdge(w).to, FirstEdge(w).cost, v, cost)
  {
    if w.before.Stay? {
      assert WalkCost(w) == WalkCost(Stay) + w.edge.cost;
    } else {
      UndercutsFirst(g, src, w.before, v, cost);
    }
  }

  /** A shortcut-free walk of two hops or more never ends at a neighbour of its source. */
  lemma LongWalkMissesNeighbours(g: Graph, c: NodeCosts, src: string, w: Walk, v: string)
    requires IsMesh(g, c) && NonNegative(c) && IsWalk(g, src, w, v) && ShortcutFree(g, src, w)
    requires w.Hop? && w.before.Hop?
    ensures !Adjacent(g.nodes, src, v)
  {
    if Adjacent(g.nodes, src, v) {
      UndercutsSource(g, src, w.before.before, v, WalkCost(w));
      assert LinkOf(c, src, v) in g.Neighbors(src);
      WalkCostTelescopes(g, c, src, w, v);
      assert false;
    }
  }

  /** Nor, when it has three hops or more, is its first stop a neighbour of its end. */
  lemma FirstStopMissesEnd(g: Graph, c: NodeCosts, src: string, w: Walk, v: string)
    requires IsMesh(g, c) && NonNegative(c) && IsWalk(g, src, w, v) && ShortcutFree(g, src, w)
    requires w.Hop? && w.before.Hop? && w.before.before.Hop?
    ensures !Adjacent(g.nodes, FirstEdge(w).to, v)
  {
    var m := FirstEdge(w).to;
    if Adjacent(g.nodes, m, v) {
      UndercutsFirst(g, src, w.before.before, v, WalkCost(w));
      FirstStep(g, c, src, w, v);
      assert LinkOf(c, m, v) in g.Neighbors(m);
      WalkCostTelescopes(g, c, src, w, v);
      assert false;
    }
  }

  lemma AtMostTwoHops(g: Graph, c: NodeCosts, src: string, w: Walk, dst: string)
    requires IsMesh(g, c) && NonNegative(c) && src in g.nodes && dst in g.nodes && src != dst
    requires IsWalk(g, src, w, dst) && ShortcutFree(g, src, w)
    ensures w.Hop?
    ensures w.before.Hop? ==> w.before.before.Stay? && !Adjacent(g.nodes, src, dst)
  {
    if w.before.Hop? {
      LongWalkMissesNeighbours(g, c, src, w, dst);
      if w.before.before.Hop? {
        FirstStep(g, c, src, w, dst);
        FirstStopMissesEnd(g, c, src, w, dst);
        LongWalkMissesNeighbours(g, c, src, w.before, w.edge.from);
        assert w.edge in g.Neighbors(w.edge.from);
        NeighboursNest(g.nodes, src, dst);
        assert false;
      }
    }
  }

  // ---- The closed form ----

  ghost predicate LeastCommon(ns: NodeTable, c: NodeCosts, src: string, m: string, dst: string) {
    Between(ns, src, m, dst) && forall k :: Between(ns, src, k, dst) ==> c(m) <= c(k)
  }

  /** A route for a pair of nodes, written down without any search. */
  ghost predicate IsClosedForm(ns: NodeTable, c: NodeCosts, src: string, dst: string, r: Route) {
    if src == dst then r.path == [src] && r.cost == 0.0
    else if Adjacent(ns, src, dst) then r.path == [src, dst] && r.cost == LinkCost(c, src, dst)
    else
      && |r.path| == 3 && r.path[0] == src && r.path[2] == dst
      && LeastCommon(ns, c, src, r.path[1], dst)
      && r.cost == (c(src) + c(dst)) / 2.0 + c(r.path[1])
  }

  ghost predicate Connected(ns: NodeTable, src: string, dst: string) {
    src == dst || Adjacent(ns, src, dst) || exists m :: Between(ns, src, m, dst)
  }

  /** Whatever the metrics, the node order and the way the heap breaks ties, a best route is the pair
      itself or passes through exactly one node: a common neighbour of least cost, the relay. */
  lemma BestRouteIsClosedForm(g: Graph, c: NodeCosts, src: string, dst: string, w: Walk, r: Route, now: int)
    requires IsMesh(g, c) && NonNegative(c) && src in g.nodes && dst in g.nodes
    requires IsBestRoute(g, src, dst, w, r, now)
    ensures IsClosedForm(g.nodes, c, src, dst, r)
  {
    if src == dst {
      if w.Hop? {
        StopsEnds(g, src, w, dst);
      }
    } else {
      AtMostTwoHops(g, c, src, w, dst);
      var m := w.edge.from;
      assert w.edge in g.Neighbors(m) && IsWalk(g, src, w.before, m);
      if w.before.Stay? {
        assert w == Hop(Stay, LinkOf(c, src, dst)) && Stops(src, w) == Stops(src, Stay) + [dst];
        OneHopIsWalk(g, c, src, dst);
      } else {
        assert IsWalk(g, src, Stay, w.before.edge.from);
        assert w.before.edge in g.Neighbors(src);
        assert Stops(src, w.before) == Stops(src, Stay) + [m];
        assert w == TwoHops(c, src, m, dst);
        TwoHopsIsWalk(g, c, src, m, dst);
        forall k | Between(g.nodes, src, k, dst) ensures c(m) <= c(k) {
          TwoHopsIsWalk(g, c, src, k, dst);
        }
      }
    }
  }

  lemma {:induction false} StopsEnds(g: Graph, src: string, w: Walk, dst: string)
    requires IsWalk(g, src, w, dst)
    ensures |Stops(src, w)| >= 1 && Stops(src, w)[0] == src && Stops(src, w)[|Stops(src, w)| - 1] == dst
    ensures w.Hop? ==> |Stops(src, w)| >= 2
  {
    if w.Hop? {
      StopsEnds(g, src, w.before, w.edge.from);
    }
  }

  /** Any walk at all, of whatever length, means the two ends are within two hops. */
  lemma WalkMeansConnected(g: Graph, c: NodeCosts, src: string, w: Walk, dst: string)
    requires IsMesh(g, c) && NonNegative(c) && src in g.nodes && dst in g.nodes && IsWalk(g, src, w, dst)
    ensures Connected(g.nodes, src, dst)
  {
    if src != dst && !Adjacent(g.nodes, src, dst) {
      assert w.edge in g.Neighbors(w.edge.from);
      FirstStep(g, c, src, w, dst);
      NeighboursNest(g.nodes, src, dst);
      assert Between(g.nodes, src, w.edge.from, dst) || Between(g.nodes, src, FirstEdge(w).to, dst);
    }
  }

  /** No node costs more than one without metrics. */
  ghost predicate Priced(c: NodeCosts) {
    forall id :: 0.0 <= c(id) <= UNMEASURED
  }

  lemma WeightsPrice(metrics: map<string, Metrics>, w: Weights)
    requires w.NonNegative() && w.Total() <= UNMEASURED
    ensures Priced(CostsOf(metrics, w))
  {
    forall id ensures 0.0 <= CostsOf(metrics, w)(id) <= UNMEASURED {
      CostBounds(if id in metrics then Some(metrics[id]) else None, w);
    }
  }

  /** The search fails on a built graph exactly when the ends are neither equal, linked, nor share a
      neighbour: no route is ever lost to the sentinel. */
  lemma ReachableIffConnected(g: Graph, c: NodeCosts, src: string, dst: string)
    requires IsMesh(g, c) && Priced(c) && src in g.nodes && dst in g.nodes
    ensures Reachable(g, src, dst) <==> Connected(g.nodes, src, dst)
  {
    if Reachable(g, src, dst) {
      var w :| IsWalk(g, src, w, dst) && WalkCost(w) < UNREACHED;
      WalkMeansConnected(g, c, src, w, dst);
    }
    if src == dst {
      assert IsWalk(g, src, Stay, dst) && WalkCost(Stay) < UNREACHED;
    } else if Adjacent(g.nodes, src, dst) {
      OneHopIsWalk(g, c, src, dst);
    } else if m :| Between(g.nodes, src, m, dst) {
      TwoHopsIsWalk(g, c, src, m, dst);
    }
  }

  // ---- The closed form in terms of the rows ----

  /** Not both are clients, and one at least can be dialled. */
  ghost predicate CanDial(a: NodeInfo, b: NodeInfo) {
    (a.nodeType != Client || b.nodeType != Client) && (a.endpoint != "" || b.endpoint != "")
  }

  ghost predicate IsMiddle(rows: set<NodeInfo>, a: NodeInfo, m: NodeInfo, b: NodeInfo) {
    m in rows && m.id != a.id && m.id != b.id && CanDial(a, m) && CanDial(m, b)
  }

  /** The route from `a` to `b`: nothing at all, the two, or the two and a cheapest node that both can link with. */
  ghost predicate RoutesRows(rows: set<NodeInfo>, price: NodeCosts, a: NodeInfo, b: NodeInfo, r: Route) {
    if a.id == b.id then r.path == [a.id] && r.cost == 0.0
    else if CanDial(a, b) then r.path == [a.id, b.id] && r.cost == (price(a.id) + price(b.id)) / 2.0
    else exists m :: IsMiddle(rows, a, m, b) && RoutesVia(rows, price, a, m, b, r)
  }

  ghost predicate RoutesVia(rows: set<NodeInfo>, price: NodeCosts, a: NodeInfo, m: NodeInfo, b: NodeInfo, r: Route) {
    && r.path == [a.id, m.id, b.id] && r.cost == (price(a.id) + price(b.id)) / 2.0 + price(m.id)
    && forall k :: IsMiddle(rows, a, k, b) ==> price(m.id) <= price(k.id)
  }

  ghost predicate IsRouteByRows(rows: set<NodeInfo>, price: NodeCosts, src: string, dst: string, r: Route) {
    exists a, b :: a in rows && b in rows && a.id == src && b.id == dst && RoutesRows(rows, price, a, b, r)
  }

  ghost predicate HasRouteByRows(rows: set<NodeInfo>, src: string, dst: string) {
    exists a, b :: a in rows && b in rows && a.id == src && b.id == dst
      && (a.id == b.id || CanDial(a, b) || exists m :: IsMiddle(rows, a, m, b))
  }

  /** `ns` files exactly these rows, each under its ID. */
  ghost predicate Files(ns: NodeTable, rows: set<NodeInfo>) {
    && (forall n :: n in rows ==> n.id in ns && ns[n.id] == n)
    && (forall id :: id in ns ==> ns[id] in rows && ns[id].id == id)
  }

  lemma MiddlesByRows(ns: NodeTable, rows: set<NodeInfo>, a: NodeInfo, b: NodeInfo, k: string)
    requires Files(ns, rows) && a in rows && b in rows
    ensures Between(ns, a.id, k, b.id) <==> k in ns && IsMiddle(rows, a, ns[k], b)
    ensures Adjacent(ns, a.id, b.id) <==> a.id != b.id && CanDial(a, b)
  {
  }

  /** The closed form, and when there is one, said of the rows' own fields. */
  lemma ClosedFormByRows(ns: NodeTable, rows: set<NodeInfo>, c: NodeCosts, src: string, dst: string, r: Route)
    requires Files(ns, rows)
    ensures HasRouteByRows(rows, src, dst) <==> src in ns && dst in ns && Connected(ns, src, dst)
    ensures src in ns && dst in ns && IsClosedForm(ns, c, src, dst, r) ==> IsRouteByRows(rows, c, src, dst, r)
  {
    hide IsMiddle, Between, Adjacent, CanDial;
    if src in ns && dst in ns {
      var a, b := ns[src], ns[dst];
      forall k ensures Between(ns, src, k, dst) <==> k in ns && IsMiddle(rows, a, ns[k], b) {
        MiddlesByRows(ns, rows, a, b, k);
      }
      forall m | IsMiddle(rows, a, m, b) ensures m.id in ns && ns[m.id] == m {
        MiddleIsRow(rows, a, m, b);
      }
      MiddlesByRows(ns, rows, a, b, src);
      if IsClosedForm(ns, c, src, dst, r) {
        RowsOfClosedForm(ns, rows, c, a, b, r);
      }
    }
  }

  lemma MiddleIsRow(rows: set<NodeInfo>, a: NodeInfo, m: NodeInfo, b: NodeInfo)
    requires IsMiddle(rows, a, m, b)
    ensures m in rows
  {
  }

  lemma RowsOfClosedForm(ns: NodeTable, rows: set<NodeInfo>, c: NodeCosts, a: NodeInfo, b: NodeInfo, r: Route)
    requires Files(ns, rows) && a in rows && b in rows && IsClosedForm(ns, c, a.id, b.id, r)
    ensures RoutesRows(rows, c, a, b, r)
  {
    MiddlesByRows(ns, rows, a, b, a.id);
    if a.id != b.id && !CanDial(a, b) {
      var m := r.path[1];
      MiddlesByRows(ns, rows, a, b, m);
      assert r.path == [a.id, m, b.id];
      forall k | IsMiddle(rows, a, k, b) ensures c(m) <= c(k.id) {
        MiddlesByRows(ns, rows, a, b, k.id);
      }
      assert IsMiddle(rows, a, ns[m], b) && RoutesVia(rows, c, a, ns[m], b, r);
    }
  }

  /** Two rows are a route by themselves exactly if they may dial each other. */
  lemma PairByRows(ns: NodeTable, rows: set<NodeInfo>, c: NodeCosts, src: string, dst: string, r: Route)
    requires Files(ns, rows)
    ensures forall a, b :: a in rows && b in rows && a.id == src && b.id == dst && src != dst ==>
              && (Connected(ns, src, dst) && IsClosedForm(ns, c, src, dst, r) ==>
                    (r.path == [src, dst] <==> CanDial(a, b)))
              && (!Connected(ns, src, dst) ==> !CanDial(a, b))
  {
    forall a, b | a in rows && b in rows && a.id == src && b.id == dst && src != dst
      ensures Adjacent(ns, src, dst) <==> CanDial(a, b)
    {
      MiddlesByRows(ns, rows, a, b, src);
    }
    hide CanDial, Adjacent, Between;
  }

  lemma ByIdFiles(nodes: seq<NodeInfo>)
    requires UniqueIds(nodes)
    ensures Files(ById(nodes), set n | n in nodes)
  {
    ByIdHolds(nodes);
    forall id | id in ById(nodes) ensures ById(nodes)[id] in nodes && ById(nodes)[id].id == id {
      var p :| 0 <= p < |nodes| && nodes[p].id == id;
    }
  }

  /** With the route service's weights, a node that reports no metrics relays only for pairs all of
      whose common neighbours report none. */
  lemma UnmeasuredRelayIsLastResort(ns: NodeTable, metrics: map<string, Metrics>, src: string, dst: string, r: Route)
    requires IsClosedForm(ns, CostsOf(metrics, DEFAULT_WEIGHTS), src, dst, r)
    requires |r.path| == 3 && r.path[1] !in metrics
    ensures forall k :: Between(ns, src, k, dst) ==> k !in metrics
  {
  }

  /** ShortestPath on a graph BuildGraph has built: the route is the closed form, and there is one
      exactly when the ends are connected. */
  method FindRoute(g: Graph, ghost nodes: seq<NodeInfo>, ghost c: NodeCosts, src: string, dst: string, now: int)
    returns (r: Result<Route, RouteError>)
    requires UniqueIds(nodes) && (forall n :: n in nodes ==> n.id != "")
    requires Built(g, nodes, c) && Priced(c)
    ensures r.Ok? <==> src in ById(nodes) && dst in ById(nodes) && Connected(ById(nodes), src, dst)
    ensures r.Ok? ==> IsClosedForm(ById(nodes), c, src, dst, r.value)
    ensures r.Ok? <==> HasRouteByRows((set n | n in nodes), src, dst)
    ensures r.Ok? ==> IsRouteByRows((set n | n in nodes), c, src, dst, r.value)
    ensures forall a, b :: a in nodes && b in nodes && a.id == src && b.id == dst && src != dst ==>
              ((r.Ok? && r.value.path == [src, dst]) <==>
                 (a.nodeType != Client || b.nodeType != Client) && (a.endpoint != "" || b.endpoint != ""))
    ensures r.Ok? ==> Labelled(r.value, src, dst, now)
  {
    hide IsRouteByRows, HasRouteByRows;
    ByIdFiles(nodes);
    ByIdHolds(nodes);
    BuiltIsMesh(g, nodes, c);
    MeshIsWellFormed(g, c);
    ghost var w;
    r, w := ShortestPath(g, src, dst, now);
    if src in g.nodes && dst in g.nodes {
      ReachableIffConnected(g, c, src, dst);
      if r.Ok? {
        BestRouteIsClosedForm(g, c, src, dst, w, r.value, now);
      }
    }
    ghost var route := if r.Ok? then r.value else Route(src, dst, [], 0.0, ConnectionDirect, "", 0, 0);
    ClosedFormByRows(ById(nodes), (set n | n in nodes), c, src, dst, route);
    PairByRows(ById(nodes), (set n | n in nodes), c, src, dst, route);
  }
}
