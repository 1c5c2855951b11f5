/** Walks in the mesh graph, their costs, and what makes a route the best one: the vocabulary in which
    the results about ShortestPath are stated. */
module Walks {
  import opened MeshGraph

  /** A walk from an implicit start, as the edges taken; the last edge is outermost. */
  datatype Walk = Stay | Hop(before: Walk, edge: Edge)

  ghost predicate IsWalk(g: Graph, src: string, w: Walk, dst: string) {
    match w
    case Stay => src == dst
    case Hop(before, e) => e.to == dst && e in g.Neighbors(e.from) && IsWalk(g, src, before, e.from)
  }

  ghost function WalkCost(w: Walk): real {
    match w
    case Stay => 0.0
    case Hop(before, e) => WalkCost(before) + e.cost
  }

  ghost function Stops(src: string, w: Walk): seq<string> {
    match w
    case Stay => [src]
    case Hop(before, e) => Stops(src, before) + [e.to]
  }

  ghost predicate NoRepeats(s: seq<string>) {
    forall i, j :: 0 <= i < j < |s| ==> s[i] != s[j]
  }

  /** Every edge from the stop `u`, reached at cost `sofar`, to `v` arrives strictly above `cost`. */
  ghost predicate ArrivesAbove(g: Graph, u: string, sofar: real, v: string, cost: real) {
    forall e :: e in g.Neighbors(u) && e.to == v ==> cost < sofar + e.cost
  }

  /** `cost` undercuts reaching `v` by one edge from any stop of `w`. */
  ghost predicate Undercuts(g: Graph, src: string, w: Walk, v: string, cost: real) {
    match w
    case Stay => ArrivesAbove(g, src, 0.0, v, cost)
    case Hop(before, e) => ArrivesAbove(g, e.to, WalkCost(w), v, cost) && Undercuts(g, src, before, v, cost)
  }

  /** No edge that skips stops of the walk is even as cheap as the part of the walk it replaces. */
  ghost predicate ShortcutFree(g: Graph, src: string, w: Walk) {
    match w
    case Stay => true
    case Hop(before, e) =>
      ShortcutFree(g, src, before) && (before.Hop? ==> Undercuts(g, src, before.before, e.to, WalkCost(w)))
  }

  /** The cost ShortestPath starts from for nodes not reached yet. */
  const UNREACHED := 1000000000000000000.0

  ghost predicate Reachable(g: Graph, src: string, dst: string) {
    exists w :: IsWalk(g, src, w, dst) && WalkCost(w) < UNREACHED
  }

  ghost predicate IsCheapest(g: Graph, src: string, dst: string, cost: real) {
    forall w :: IsWalk(g, src, w, dst) ==> cost <= WalkCost(w)
  }

  datatype ConnectionType = ConnectionDirect | ConnectionSTUN | ConnectionRelay

  datatype Route = Route(srcNodeId: string, dstNodeId: string, path: seq<string>, cost: real,
                         connectionType: ConnectionType, relayNodeId: string, createdAt: int, expiresAt: int)

  datatype RouteError = SourceNotInGraph | DestinationNotInGraph | NoPath

  /** A cached route is good for a minute. */
  const ROUTE_TTL := 60

  /** The endpoints, the kind of connection and the life span follow from the path. */
  ghost predicate Labelled(r: Route, src: string, dst: string, now: int) {
    && r.srcNodeId == src && r.dstNodeId == dst
    && r.connectionType == (if |r.path| > 2 then ConnectionRelay else ConnectionDirect)
    && r.relayNodeId == (if |r.path| > 2 then r.path[1] else "")
    && r.createdAt == now && r.expiresAt == now + ROUTE_TTL
  }

  /** `w` is a cheapest walk, repeats no stop, admits no shortcut, and `r` is its record. */
  ghost predicate IsBestRoute(g: Graph, src: string, dst: string, w: Walk, r: Route, now: int) {
    && IsWalk(g, src, w, dst) && r.path == Stops(src, w) && r.cost == WalkCost(w)
    && IsCheapest(g, src, dst, r.cost)
    && NoRepeats(r.path) && ShortcutFree(g, src, w)
    && Labelled(r, src, dst, now)
  }
}
