/** How much work the search of control-plane/routing/optimizer.go does, read off the trace its priority
    queue leaves: every push and every pop, in order. */
module SearchTrace {
  import opened MeshGraph
  import opened PriorityQueue
  import opened Walks

  type Trace = seq<Event>

  /** No push so far gave the item's node a lower cost: the entry is not stale. */
  ghost predicate IsFresh(trace: Trace, it: Item) {
    forall y :: Pushed(y) in trace && y.nodeId == it.nodeId ==> it.cost <= y.cost
  }

  /** The nodes expanded, in order: those of the entries popped fresh. */
  ghost function Expansions(trace: Trace): seq<string> {
    if trace == [] then []
    else
      var front, last := trace[..|trace| - 1], trace[|trace| - 1];
      Expansions(front) + if last.Popped? && IsFresh(front, last.item) then [last.item.nodeId] else []
  }

  ghost function Pushes(trace: Trace): nat {
    if trace == [] then 0 else Pushes(trace[..|trace| - 1]) + if trace[|trace| - 1].Pushed? then 1 else 0
  }

  ghost function Degrees(g: Graph, ids: seq<string>): nat {
    if ids == [] then 0 else Degrees(g, ids[..|ids| - 1]) + |g.Neighbors(ids[|ids| - 1])|
  }

  ghost predicate PushesSame(d: Event, e: Event) {
    d.Pushed? && e.Pushed? && d.item.nodeId == e.item.nodeId
  }

  /** Each push for a node is at a strictly lower cost than the ones before. */
  ghost predicate Falling(trace: Trace) {
    forall i, j :: 0 <= i < j < |trace| && PushesSame(trace[i], trace[j]) ==> trace[j].item.cost < trace[i].item.cost
  }

  /** No node is expanded twice, the costs pushed for a node fall, and each push but the first is paid
      for by an edge of an expanded node. */
  ghost predicate Economical(g: Graph, trace: Trace) {
    && NoRepeats(Expansions(trace)) && (forall v :: v in Expansions(trace) ==> v in g.nodes)
    && Falling(trace) && Pushes(trace) <= 1 + Degrees(g, Expansions(trace))
  }

  /** Economical but perhaps for a last pop, of `dst`, which ends the search; `dst` is never expanded. */
  ghost predicate EndsAt(g: Graph, trace: Trace, dst: string) {
    exists before: Trace :: Economical(g, before) && dst !in Expansions(before)
      && (trace == before || exists it: Item :: it.nodeId == dst && trace == before + [Popped(it)])
  }

  /** The directed edges that leave the given nodes, by position. */
  ghost function EdgesFrom(g: Graph, ids: set<string>): set<(string, nat)> {
    set u, i: nat | u in ids && i < |g.Neighbors(u)| :: (u, i)
  }

  lemma {:induction false} DegreesCountEdges(g: Graph, ids: seq<string>)
    requires NoRepeats(ids)
    ensures Degrees(g, ids) == |EdgesFrom(g, set u | u in ids)|
  {
    if ids != [] {
      var front, last := ids[..|ids| - 1], ids[|ids| - 1];
      DegreesCountEdges(g, front);
      assert (set u | u in ids) == (set u | u in front) + {last};
      hide Degrees;
      OneMoreSource(g, (set u | u in front), last);
    }
  }

  lemma OneMoreSource(g: Graph, ids: set<string>, u: string)
    requires u !in ids
    ensures |EdgesFrom(g, ids + {u})| == |EdgesFrom(g, ids)| + |g.Neighbors(u)|
  {
    var some, more := EdgesFrom(g, ids), set i: nat | i < |g.Neighbors(u)| :: (u, i);
    EdgesOfOne(u, |g.Neighbors(u)|);
    assert EdgesFrom(g, ids + {u}) == some + more;
    assert some !! more;
  }

  lemma {:induction false} EdgesOfOne(u: string, n: nat)
    ensures |set i: nat | i < n :: (u, i)| == n
  {
    if n > 0 {
      EdgesOfOne(u, n - 1);
      assert (set i: nat | i < n :: (u, i)) == (set i: nat | i < n - 1 :: (u, i)) + {(u, n - 1)};
    }
  }

  /** So there is at most one push more than the graph has directed edges. */
  lemma PushesAtMostEdges(g: Graph, trace: Trace, dst: string)
    requires EndsAt(g, trace, dst)
    ensures Pushes(trace) <= 1 + |EdgesFrom(g, g.nodes.Keys)|
  {
    hide Economical, Expansions, Pushes;
    var before :| Economical(g, before)
      && (trace == before || exists it: Item :: it.nodeId == dst && trace == before + [Popped(it)]);
    EconomyCountsEdges(g, before);
    if trace != before {
      var it: Item :| trace == before + [Popped(it)];
      AfterEvent(before, Popped(it));
    }
  }

  lemma EconomyCountsEdges(g: Graph, trace: Trace)
    requires Economical(g, trace)
    ensures Pushes(trace) <= 1 + |EdgesFrom(g, g.nodes.Keys)|
  {
    hide Expansions, Pushes, Degrees, EdgesFrom, Falling;
    DegreesCountEdges(g, Expansions(trace));
    FewerEdges(g, (set u | u in Expansions(trace)), g.nodes.Keys);
  }

  lemma FewerEdges(g: Graph, some: set<string>, all: set<string>)
    requires some <= all
    ensures |EdgesFrom(g, some)| <= |EdgesFrom(g, all)|
  {
    var more := EdgesFrom(g, all) - EdgesFrom(g, some);
    assert EdgesFrom(g, all) == EdgesFrom(g, some) + more;
  }

  // ---- What the search keeps of its trace ----

  /** The tentative costs are the lowest costs pushed, and the nodes expanded are the ones popped fresh. */
  ghost predicate Traced(trace: Trace, dist: map<string, real>, expanded: set<string>) {
    && Falling(trace) && NoRepeats(Expansions(trace))
    && (forall y :: Pushed(y) in trace ==> y.nodeId in dist && dist[y.nodeId] <= y.cost)
    && (forall v :: v in dist && dist[v] < UNREACHED ==> Pushed(Item(v, dist[v])) in trace)
    && (forall v :: v in Expansions(trace) <==> v in expanded)
  }

  lemma AfterEvent(trace: Trace, e: Event)
    ensures e.Popped? && IsFresh(trace, e.item) ==> Expansions(trace + [e]) == Expansions(trace) + [e.item.nodeId]
    ensures e.Pushed? || !IsFresh(trace, e.item) ==> Expansions(trace + [e]) == Expansions(trace)
    ensures Pushes(trace + [e]) == Pushes(trace) + if e.Pushed? then 1 else 0
  {
    assert (trace + [e])[..|trace|] == trace;
    hide IsFresh;
  }

  lemma PushTraced(trace: Trace, dist: map<string, real>, expanded: set<string>, v: string, cost: real)
    requires Traced(trace, dist, expanded) && v in dist && cost < dist[v]
    ensures Traced(trace + [Pushed(Item(v, cost))], dist[v := cost], expanded)
    ensures Pushes(trace + [Pushed(Item(v, cost))]) == Pushes(trace) + 1
    ensures Expansions(trace + [Pushed(Item(v, cost))]) == Expansions(trace)
  {
    AfterEvent(trace, Pushed(Item(v, cost)));
    hide Expansions, Pushes;
    var trace', dist' := trace + [Pushed(Item(v, cost))], dist[v := cost];
    forall u | u in dist' && dist'[u] < UNREACHED ensures Pushed(Item(u, dist'[u])) in trace' {
      if u == v {
        assert trace'[|trace|] == Pushed(Item(v, cost));
      } else {
        assert Pushed(Item(u, dist[u])) in trace;
      }
    }
    forall i | 0 <= i < |trace| && trace[i].Pushed? && trace[i].item.nodeId == v ensures cost < trace[i].item.cost {
      assert Pushed(trace[i].item) in trace;
    }
  }

  /** A popped entry is stale by the trace exactly if it is above its node's tentative cost. */
  lemma FreshIff(trace: Trace, dist: map<string, real>, expanded: set<string>, it: Item)
    requires Traced(trace, dist, expanded) && it.nodeId in dist && dist[it.nodeId] < UNREACHED
    ensures IsFresh(trace, it) <==> it.cost <= dist[it.nodeId]
  {
    assert Pushed(Item(it.nodeId, dist[it.nodeId])) in trace;
  }

  lemma StalePopTraced(trace: Trace, dist: map<string, real>, expanded: set<string>, it: Item)
    requires Traced(trace, dist, expanded) && it.nodeId in dist && dist[it.nodeId] < UNREACHED
    requires it.cost > dist[it.nodeId]
    ensures Traced(trace + [Popped(it)], dist, expanded)
    ensures Expansions(trace + [Popped(it)]) == Expansions(trace)
    ensures Pushes(trace + [Popped(it)]) == Pushes(trace)
  {
    AfterEvent(trace, Popped(it));
    SamePushes(trace, it);
    FreshIff(trace, dist, expanded, it);
    hide Expansions, Pushes, IsFresh, NoRepeats, Falling;
  }

  lemma FreshPopTraced(trace: Trace, dist: map<string, real>, expanded: set<string>, it: Item)
    requires Traced(trace, dist, expanded) && it.nodeId in dist && dist[it.nodeId] < UNREACHED
    requires it.cost <= dist[it.nodeId] && it.nodeId !in expanded
    ensures Traced(trace + [Popped(it)], dist, expanded + {it.nodeId})
    ensures Expansions(trace + [Popped(it)]) == Expansions(trace) + [it.nodeId]
    ensures Pushes(trace + [Popped(it)]) == Pushes(trace)
  {
    AfterEvent(trace, Popped(it));
    FreshIff(trace, dist, expanded, it);
    hide Expansions, Pushes, IsFresh;
    SamePushes(trace, it);
  }

  lemma SamePushes(trace: Trace, it: Item)
    ensures forall y: Item :: Pushed(y) in trace + [Popped(it)] <==> Pushed(y) in trace
    ensures Falling(trace) ==> Falling(trace + [Popped(it)])
  {
  }
}
