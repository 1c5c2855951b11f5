/** ShortestPath: Dijkstra's algorithm with lazy deletion (control-plane/routing/optimizer.go). */
module Dijkstra {
  import opened Common
  import opened MeshGraph
  import opened PriorityQueue
  import opened SearchTrace
  import opened Walks

  /** The search so far: tentative costs, the edge each came by, and when each node was expanded. */
  datatype Search = Search(dist: map<string, real>, via: map<string, Edge>, rank: map<string, nat>, clock: nat)

  ghost predicate InRange(d: real) {
    0.0 <= d <= UNREACHED
  }

  ghost predicate Domain(g: Graph, src: string, st: Search) {
    && src in g.nodes && st.dist.Keys == g.nodes.Keys && st.dist[src] == 0.0
    && (forall v :: v in g.nodes ==> InRange(st.dist[v]))
    && (forall u :: u in st.rank ==> u in g.nodes && st.rank[u] < st.clock && st.dist[u] < UNREACHED)
  }

  /** Nodes expanded before the one `v` was reached from would have reached `v` at a higher cost. */
  ghost predicate FirstOfTies(g: Graph, st: Search, v: string)
    requires v in st.via && v in st.dist && st.via[v].from in st.rank && st.rank.Keys <= st.dist.Keys
  {
    forall u :: u in st.rank && st.rank[u] < st.rank[st.via[v].from] ==>
      ArrivesAbove(g, u, st.dist[u], v, st.dist[v])
  }

  ghost predicate TreeEdge(g: Graph, src: string, st: Search, v: string)
    requires Domain(g, src, st) && v in g.nodes
  {
    if v == src then v !in st.via
    else if v !in st.via then st.dist[v] == UNREACHED
    else
      var e := st.via[v];
      && e.to == v && e in g.Neighbors(e.from) && e.from in st.rank
      && st.dist[v] < UNREACHED && st.dist[v] == st.dist[e.from] + e.cost
      && (v in st.rank ==> st.rank[e.from] < st.rank[v])
      && FirstOfTies(g, st, v)
  }

  ghost predicate Tree(g: Graph, src: string, st: Search) {
    Domain(g, src, st) && forall v :: v in g.nodes ==> TreeEdge(g, src, st, v)
  }

  /** A queue entry is not below its node's cost, nor below the cost of any expanded node. */
  ghost predicate Pending(g: Graph, st: Search, it: Item)
    requires st.dist.Keys == g.nodes.Keys && st.rank.Keys <= g.nodes.Keys
  {
    && it.nodeId in g.nodes && st.dist[it.nodeId] <= it.cost < UNREACHED
    && forall u :: u in st.rank ==> st.dist[u] <= it.cost
  }

  /** Entries at a node's current cost: one while it waits to be expanded, none after. */
  ghost predicate Counted(st: Search, q: multiset<Item>, v: string)
    requires v in st.dist
  {
    q[Item(v, st.dist[v])] == if v in st.rank || st.dist[v] == UNREACHED then 0 else 1
  }

  ghost predicate Queue(g: Graph, src: string, st: Search, q: multiset<Item>)
    requires Domain(g, src, st)
  {
    && (forall it :: it in q ==> Pending(g, st, it))
    && (forall v :: v in g.nodes ==> Counted(st, q, v))
  }

  ghost predicate Inv(g: Graph, src: string, st: Search, q: multiset<Item>) {
    g.WellFormed() && Tree(g, src, st) && Queue(g, src, st, q)
  }

  ghost predicate Relaxed(st: Search, u: string, es: seq<Edge>)
    requires u in st.dist
  {
    forall e :: e in es && e.to in st.dist ==> st.dist[e.to] <= st.dist[u] + e.cost
  }

  /** Every expanded node, other than `x`, has had all of its edges relaxed. */
  ghost predicate RelaxedBut(g: Graph, st: Search, x: string)
    requires st.rank.Keys <= st.dist.Keys
  {
    forall u :: u in st.rank && u != x ==> Relaxed(st, u, g.Neighbors(u))
  }

  ghost predicate AllRelaxed(g: Graph, st: Search)
    requires st.rank.Keys <= st.dist.Keys
  {
    forall u :: u in st.rank ==> Relaxed(st, u, g.Neighbors(u))
  }

  /** `x` was expanded last, at the highest cost, and its first `k` edges are relaxed. */
  ghost predicate Expanding(g: Graph, st: Search, x: string, k: nat)
    requires st.rank.Keys <= st.dist.Keys
  {
    && x in st.rank && st.rank[x] + 1 == st.clock && (forall u :: u in st.rank ==> st.dist[u] <= st.dist[x])
    && (forall u :: u in st.rank && u != x ==> st.rank[u] < st.rank[x])
    && RelaxedBut(g, st, x)
    && k <= |g.Neighbors(x)| && Relaxed(st, x, g.Neighbors(x)[..k])
  }

  // ---- Steps of the search ----

  function Initial(g: Graph, src: string): Search
    requires src in g.nodes
  {
    Search((map id | id in g.nodes :: UNREACHED)[src := 0.0], map[], map[], 0)
  }

  lemma InitialInv(g: Graph, src: string)
    requires g.WellFormed() && src in g.nodes
    ensures Ready(g, src, Initial(g, src), multiset{Item(src, 0.0)})
  {
  }

  ghost function Expand(st: Search, x: string): Search {
    st.(rank := st.rank[x := st.clock], clock := st.clock + 1)
  }

  lemma FreshItem(g: Graph, src: string, st: Search, q: multiset<Item>, it: Item)
    requires Inv(g, src, st, q) && it in q && it.cost <= st.dist[it.nodeId]
    ensures it == Item(it.nodeId, st.dist[it.nodeId]) && it.nodeId !in st.rank
    ensures q[it] == 1 && it.nodeId in g.nodes && it.cost < UNREACHED
  {
  }

  lemma ExpandTree(g: Graph, src: string, st: Search, x: string)
    requires Tree(g, src, st) && x in g.nodes && x !in st.rank && st.dist[x] < UNREACHED
    ensures Tree(g, src, Expand(st, x))
  {
    var st' := Expand(st, x);
    assert Domain(g, src, st');
    forall v | v in g.nodes ensures TreeEdge(g, src, st', v) {
      assert TreeEdge(g, src, st, v);
      if v in st'.via {
        assert FirstOfTies(g, st, v);
        assert FirstOfTies(g, st', v);
      }
    }
  }

  lemma ExpandQueue(g: Graph, src: string, st: Search, q: multiset<Item>, it: Item)
    requires Inv(g, src, st, q) && Domain(g, src, Expand(st, it.nodeId))
    requires Minimal(q, it) && it.cost <= st.dist[it.nodeId]
    ensures Queue(g, src, Expand(st, it.nodeId), q - multiset{it})
  {
    FreshItem(g, src, st, q, it);
    var st', q' := Expand(st, it.nodeId), q - multiset{it};
    forall y | y in q' ensures Pending(g, st', y) {
      assert y in q;
      assert Pending(g, st, y);
    }
    forall v | v in g.nodes ensures Counted(st', q', v) {
      assert Counted(st, q, v);
    }
  }

  lemma ExpandExpanding(g: Graph, st: Search, x: string)
    requires st.rank.Keys <= st.dist.Keys && x in st.dist && x !in st.rank && AllRelaxed(g, st)
    requires forall u :: u in st.rank ==> st.rank[u] < st.clock && st.dist[u] <= st.dist[x]
    ensures Expanding(g, Expand(st, x), x, 0)
  {
  }

  /** A fresh entry belongs to a node not expanded before; expanding it keeps the invariant. */
  lemma FreshPop(g: Graph, src: string, st: Search, q: multiset<Item>, it: Item)
    requires Inv(g, src, st, q) && AllRelaxed(g, st)
    requires Minimal(q, it) && it.cost <= st.dist[it.nodeId]
    ensures it.nodeId !in st.rank
    ensures Inv(g, src, Expand(st, it.nodeId), q - multiset{it})
    ensures Expanding(g, Expand(st, it.nodeId), it.nodeId, 0)
  {
    FreshItem(g, src, st, q, it);
    ExpandTree(g, src, st, it.nodeId);
    ExpandQueue(g, src, st, q, it);
    assert Pending(g, st, it);
    ExpandExpanding(g, st, it.nodeId);
  }

  /** An entry above its node's cost is left over from an earlier, higher cost. */
  lemma StalePop(g: Graph, src: string, st: Search, q: multiset<Item>, it: Item)
    requires Inv(g, src, st, q) && it in q && it.nodeId in st.dist && it.cost > st.dist[it.nodeId]
    ensures Inv(g, src, st, q - multiset{it})
  {
  }

  ghost function Improve(st: Search, e: Edge, cost: real): Search {
    st.(dist := st.dist[e.to := cost], via := st.via[e.to := e])
  }

  lemma OneMoreRelaxed(st: Search, u: string, es: seq<Edge>, k: nat)
    requires u in st.dist && k < |es| && Relaxed(st, u, es[..k])
    requires es[k].to in st.dist ==> st.dist[es[k].to] <= st.dist[u] + es[k].cost
    ensures Relaxed(st, u, es[..k + 1])
  {
    assert es[..k + 1] == es[..k] + [es[k]];
  }

  /** An edge that does not improve its target is relaxed already. */
  lemma KeepEdge(g: Graph, st: Search, x: string, k: nat)
    requires st.rank.Keys <= st.dist.Keys && Expanding(g, st, x, k) && k < |g.Neighbors(x)|
    requires g.Neighbors(x)[k].to in st.dist
    requires st.dist[x] + g.Neighbors(x)[k].cost >= st.dist[g.Neighbors(x)[k].to]
    ensures Expanding(g, st, x, k + 1)
  {
    OneMoreRelaxed(st, x, g.Neighbors(x), k);
    hide Relaxed, RelaxedBut;
  }

  lemma DearerEntries(g: Graph, src: string, st: Search, q: multiset<Item>, v: string, cost: real)
    requires Inv(g, src, st, q) && v in st.dist && cost < st.dist[v]
    ensures q[Item(v, cost)] == 0
  {
  }

  lemma ImprovedTarget(g: Graph, src: string, st: Search, q: multiset<Item>, x: string, k: nat, e: Edge, cost: real)
    requires Inv(g, src, st, q) && Expanding(g, st, x, k) && e in g.Neighbors(x)
    requires cost == st.dist[x] + e.cost < st.dist[e.to]
    ensures e.to != src && e.to !in st.rank && 0.0 <= cost < UNREACHED
    ensures Domain(g, src, Improve(st, e, cost))
    ensures q[Item(e.to, cost)] == 0
  {
    assert e.from == x && e.to in g.nodes && e.cost >= 0.0;
    assert InRange(st.dist[x]) && InRange(st.dist[e.to]);
    DearerEntries(g, src, st, q, e.to, cost);
  }

  lemma ImproveTree(g: Graph, src: string, st: Search, q: multiset<Item>, x: string, k: nat, e: Edge, cost: real)
    requires Inv(g, src, st, q) && Expanding(g, st, x, k) && e in g.Neighbors(x)
    requires cost == st.dist[x] + e.cost < st.dist[e.to]
    ensures Tree(g, src, Improve(st, e, cost))
  {
    ImprovedTarget(g, src, st, q, x, k, e, cost);
    var st' := Improve(st, e, cost);
    forall v | v in g.nodes ensures TreeEdge(g, src, st', v) {
      assert TreeEdge(g, src, st, v);
      if v == e.to {
        forall u | u in st.rank && st.rank[u] < st.rank[x] ensures ArrivesAbove(g, u, st.dist[u], v, cost) {
          assert Relaxed(st, u, g.Neighbors(u));
        }
        assert FirstOfTies(g, st', v);
      } else if v in st.via {
        assert FirstOfTies(g, st, v);
        assert FirstOfTies(g, st', v);
      }
    }
  }

  lemma ImprovePending(g: Graph, st: Search, e: Edge, cost: real, y: Item)
    requires st.dist.Keys == g.nodes.Keys && st.rank.Keys <= g.nodes.Keys && Pending(g, st, y)
    requires e.to in g.nodes && e.to !in st.rank && cost < st.dist[e.to]
    ensures Pending(g, Improve(st, e, cost), y)
  {
  }

  lemma ImproveCounted(st: Search, q: multiset<Item>, e: Edge, cost: real, v: string)
    requires v in st.dist && Counted(st, q, v) && e.to in st.dist && e.to !in st.rank
    requires cost < st.dist[e.to] <= UNREACHED && q[Item(e.to, cost)] == 0
    ensures Counted(Improve(st, e, cost), q + multiset{Item(e.to, cost)}, v)
  {
  }

  lemma ImproveQueue(g: Graph, src: string, st: Search, q: multiset<Item>, x: string, k: nat, e: Edge, cost: real)
    requires Inv(g, src, st, q) && Expanding(g, st, x, k) && e in g.Neighbors(x)
    requires cost == st.dist[x] + e.cost < st.dist[e.to]
    ensures Domain(g, src, Improve(st, e, cost))
    ensures Queue(g, src, Improve(st, e, cost), q + multiset{Item(e.to, cost)})
  {
    ImprovedTarget(g, src, st, q, x, k, e, cost);
    var st', q' := Improve(st, e, cost), q + multiset{Item(e.to, cost)};
    forall y | y in q' ensures Pending(g, st', y) {
      if y in q {
        ImprovePending(g, st, e, cost, y);
      }
    }
    forall v | v in g.nodes ensures Counted(st', q', v) {
      ImproveCounted(st, q, e, cost, v);
    }
  }

  lemma ImproveExpanding(g: Graph, st: Search, x: string, k: nat, cost: real)
    requires st.rank.Keys <= st.dist.Keys && Expanding(g, st, x, k) && k < |g.Neighbors(x)|
    requires g.Neighbors(x)[k].to in st.dist && g.Neighbors(x)[k].to !in st.rank
    requires cost == st.dist[x] + g.Neighbors(x)[k].cost < st.dist[g.Neighbors(x)[k].to]
    ensures Expanding(g, Improve(st, g.Neighbors(x)[k], cost), x, k + 1)
  {
  }

  /** An improving edge lowers its target's cost and queues it; the invariant is kept. */
  lemma ImproveEdge(g: Graph, src: string, st: Search, q: multiset<Item>, x: string, k: nat, cost: real)
    requires Inv(g, src, st, q) && Expanding(g, st, x, k) && k < |g.Neighbors(x)|
    requires cost == st.dist[x] + g.Neighbors(x)[k].cost < st.dist[g.Neighbors(x)[k].to]
    ensures var e := g.Neighbors(x)[k];
            && e.to !in st.rank
            && Inv(g, src, Improve(st, e, cost), q + multiset{Item(e.to, cost)})
            && Expanding(g, Improve(st, e, cost), x, k + 1)
  {
    var e := g.Neighbors(x)[k];
    ImprovedTarget(g, src, st, q, x, k, e, cost);
    ImproveTree(g, src, st, q, x, k, e, cost);
    ImproveQueue(g, src, st, q, x, k, e, cost);
    ImproveExpanding(g, st, x, k, cost);
  }

  // ---- What the end of the search means ----

  /** Any walk below UNREACHED either ends at an expanded node no dearer, or some entry is no dearer. */
  lemma {:induction false} WalkBound(g: Graph, src: string, st: Search, q: multiset<Item>, w: Walk, v: string)
    requires Ready(g, src, st, q)
    requires IsWalk(g, src, w, v) && WalkCost(w) < UNREACHED
    ensures v in g.nodes && 0.0 <= WalkCost(w)
    ensures (v in st.rank && st.dist[v] <= WalkCost(w)) || exists it :: it in q && it.cost <= WalkCost(w)
  {
    match w
    case Stay =>
      assert Counted(st, q, src);
      assert src !in st.rank ==> Item(src, 0.0) in q;
    case Hop(before, e) =>
      var u := e.from;
      assert e.cost >= 0.0 && e.to in g.nodes;
      WalkBound(g, src, st, q, before, u);
      if u in st.rank && st.dist[u] <= WalkCost(before) {
        assert Relaxed(st, u, g.Neighbors(u));
        assert Counted(st, q, v);
        assert v !in st.rank ==> Item(v, st.dist[v]) in q;
      }
  }

  /** When an entry for the destination is popped, fresh or not, its tentative cost is the least. */
  lemma PoppedIsCheapest(g: Graph, src: string, dst: string, st: Search, q: multiset<Item>, it: Item)
    requires Ready(g, src, st, q) && dst !in st.rank
    requires Minimal(q, it) && it.nodeId == dst
    ensures dst in g.nodes && st.dist[dst] < UNREACHED && IsCheapest(g, src, dst, st.dist[dst])
  {
    assert Pending(g, st, it);
    forall w | IsWalk(g, src, w, dst) ensures st.dist[dst] <= WalkCost(w) {
      if WalkCost(w) < UNREACHED {
        WalkBound(g, src, st, q, w, dst);
      }
    }
  }

  /** When the queue runs dry first, no walk below UNREACHED leads to the destination. */
  lemma DrainedIsUnreachable(g: Graph, src: string, dst: string, st: Search)
    requires Ready(g, src, st, multiset{}) && dst !in st.rank && dst in g.nodes
    ensures st.dist[dst] == UNREACHED && !Reachable(g, src, dst)
  {
    assert Counted(st, multiset{}, dst);
    forall w | IsWalk(g, src, w, dst) ensures WalkCost(w) >= UNREACHED {
      if WalkCost(w) < UNREACHED {
        WalkBound(g, src, st, multiset{}, w, dst);
      }
    }
  }

  // ---- The path recorded by the search ----

  ghost function Rank(st: Search, v: string): nat {
    if v in st.rank then st.rank[v] else st.clock
  }

  ghost predicate OnTree(g: Graph, src: string, st: Search, v: string) {
    v in g.nodes && (v == src || v in st.via)
  }

  lemma FromIsOnTree(g: Graph, src: string, st: Search, v: string)
    requires Tree(g, src, st) && OnTree(g, src, st, v) && v != src
    ensures OnTree(g, src, st, st.via[v].from) && Rank(st, st.via[v].from) < Rank(st, v)
    ensures st.via[v].from in st.rank
  {
    assert TreeEdge(g, src, st, v);
    assert TreeEdge(g, src, st, st.via[v].from);
  }

  /** The edges by which `v` was reached, back to the source. */
  ghost function TreeWalk(g: Graph, src: string, st: Search, v: string): Walk
    requires Tree(g, src, st) && OnTree(g, src, st, v)
    decreases Rank(st, v)
  {
    if v == src then Stay
    else
      FromIsOnTree(g, src, st, v);
      Hop(TreeWalk(g, src, st, st.via[v].from), st.via[v])
  }

  lemma {:induction false} TreeWalkArrives(g: Graph, src: string, st: Search, v: string)
    requires Tree(g, src, st) && OnTree(g, src, st, v)
    ensures IsWalk(g, src, TreeWalk(g, src, st, v), v) && WalkCost(TreeWalk(g, src, st, v)) == st.dist[v]
    decreases Rank(st, v)
  {
    if v != src {
      FromIsOnTree(g, src, st, v);
      assert TreeEdge(g, src, st, v);
      TreeWalkArrives(g, src, st, st.via[v].from);
    }
  }

  lemma {:induction false} TreeWalkRanks(g: Graph, src: string, st: Search, v: string)
    requires Tree(g, src, st) && OnTree(g, src, st, v)
    ensures forall x :: x in Stops(src, TreeWalk(g, src, st, v)) ==> x == v || Rank(st, x) < Rank(st, v)
    ensures NoRepeats(Stops(src, TreeWalk(g, src, st, v)))
    decreases Rank(st, v)
  {
    if v != src {
      FromIsOnTree(g, src, st, v);
      TreeWalkRanks(g, src, st, st.via[v].from);
    }
  }

  lemma {:induction false} TreeWalkUndercuts(g: Graph, src: string, st: Search, u: string, v: string, cost: real)
    requires Tree(g, src, st) && OnTree(g, src, st, u) && u in st.rank
    requires forall x :: x in st.rank && st.rank[x] <= st.rank[u] ==> ArrivesAbove(g, x, st.dist[x], v, cost)
    ensures Undercuts(g, src, TreeWalk(g, src, st, u), v, cost)
    decreases Rank(st, u)
  {
    TreeWalkArrives(g, src, st, u);
    assert ArrivesAbove(g, u, st.dist[u], v, cost);
    if u != src {
      FromIsOnTree(g, src, st, u);
      assert TreeEdge(g, src, st, u);
      TreeWalkUndercuts(g, src, st, st.via[u].from, v, cost);
    }
  }

  /** Costs on the tree only ever fall strictly, so the first of equally cheap ways in is kept: the
      recorded walk has no shortcut, even where zero-cost edges make ties. */
  lemma {:induction false} TreeWalkIsShortcutFree(g: Graph, src: string, st: Search, v: string)
    requires Tree(g, src, st) && OnTree(g, src, st, v)
    ensures ShortcutFree(g, src, TreeWalk(g, src, st, v))
    decreases Rank(st, v)
  {
    if v != src {
      FromIsOnTree(g, src, st, v);
      var p := st.via[v].from;
      TreeWalkIsShortcutFree(g, src, st, p);
      if p != src {
        FromIsOnTree(g, src, st, p);
        TreeWalkArrives(g, src, st, v);
        assert TreeEdge(g, src, st, v);
        assert FirstOfTies(g, st, v);
        TreeWalkUndercuts(g, src, st, st.via[p].from, v, st.dist[v]);
      }
    }
  }

  // ---- The algorithm ----

  /** `prev` holds the sources of the edges in `via`. */
  ghost predicate Records(prev: map<string, string>, via: map<string, Edge>) {
    prev.Keys == via.Keys && forall v :: v in via ==> prev[v] == via[v].from
  }

  lemma EdgeInRange(g: Graph, src: string, st: Search, q: multiset<Item>, x: string, k: nat)
    requires Inv(g, src, st, q) && Expanding(g, st, x, k) && k < |g.Neighbors(x)|
    ensures x in st.dist && g.Neighbors(x)[k].to in st.dist && g.Neighbors(x)[k].from == x
    ensures st.rank.Keys <= st.dist.Keys
  {
  }

  /** The queue, its trace and the tentative costs between two relaxations. */
  ghost predicate InStep(g: Graph, src: string, st: Search, dist: map<string, real>, prev: map<string, string>,
                         items: seq<Item>, trace: Trace)
  {
    && IsHeap(items) && Inv(g, src, st, multiset(items))
    && dist == st.dist && Records(prev, st.via) && Traced(trace, st.dist, st.rank.Keys)
  }

  /** Relaxes edge `k` of the node just expanded. */
  method RelaxEdge(g: Graph, src: string, x: string, k: nat, dist0: map<string, real>, prev0: map<string, string>,
                   pq: PriorityQueue, ghost st0: Search)
    returns (dist: map<string, real>, prev: map<string, string>, ghost st: Search)
    requires k < |g.Neighbors(x)|
    requires InStep(g, src, st0, dist0, prev0, pq.items, pq.trace) && Expanding(g, st0, x, k)
    modifies pq
    ensures InStep(g, src, st, dist, prev, pq.items, pq.trace)
    ensures st.rank.Keys <= st.dist.Keys && Expanding(g, st, x, k + 1)
    ensures st.rank == st0.rank && Expansions(pq.trace) == Expansions(old(pq.trace))
    ensures Pushes(pq.trace) <= Pushes(old(pq.trace)) + 1
  {
    hide Inv, Expanding, Traced, IsHeap;
    dist, prev, st := dist0, prev0, st0;
    EdgeInRange(g, src, st0, multiset(pq.items), x, k);
    var edge := g.Neighbors(x)[k];
    var newCost := dist[x] + edge.cost;
    if newCost < dist[edge.to] {
      ImproveEdge(g, src, st0, multiset(pq.items), x, k, newCost);
      PushTraced(pq.trace, st0.dist, st0.rank.Keys, edge.to, newCost);
      dist := dist[edge.to := newCost];
      prev := prev[edge.to := x];
      pq.Push(Item(edge.to, newCost));
      st := Improve(st0, edge, newCost);
    } else {
      KeepEdge(g, st0, x, k);
    }
  }

  lemma Expanded(g: Graph, st: Search, x: string)
    requires st.rank.Keys <= st.dist.Keys && Expanding(g, st, x, |g.Neighbors(x)|)
    ensures AllRelaxed(g, st)
  {
    assert g.Neighbors(x)[..|g.Neighbors(x)|] == g.Neighbors(x);
  }

  /** Relaxes every edge of the node just expanded. */
  method Relax(g: Graph, src: string, x: string, dist0: map<string, real>, prev0: map<string, string>,
               pq: PriorityQueue, ghost st0: Search)
    returns (dist: map<string, real>, prev: map<string, string>, ghost st: Search)
    requires InStep(g, src, st0, dist0, prev0, pq.items, pq.trace) && Expanding(g, st0, x, 0)
    modifies pq
    ensures InStep(g, src, st, dist, prev, pq.items, pq.trace) && AllRelaxed(g, st)
    ensures st.rank == st0.rank && Expansions(pq.trace) == Expansions(old(pq.trace))
    ensures Pushes(pq.trace) <= Pushes(old(pq.trace)) + |g.Neighbors(x)|
  {
    hide InStep, Expanding;
    InStepInRange(g, src, st0, dist0, prev0, pq.items, pq.trace);
    dist, prev, st := dist0, prev0, st0;
    for k := 0 to |g.Neighbors(x)|
      invariant InStep(g, src, st, dist, prev, pq.items, pq.trace)
      invariant st.rank.Keys <= st.dist.Keys && Expanding(g, st, x, k)
      invariant st.rank == st0.rank && Expansions(pq.trace) == Expansions(old(pq.trace))
      invariant Pushes(pq.trace) <= Pushes(old(pq.trace)) + k
    {
      dist, prev, st := RelaxEdge(g, src, x, k, dist, prev, pq, st);
    }
    InStepInRange(g, src, st, dist, prev, pq.items, pq.trace);
    Expanded(g, st, x);
  }

  lemma InStepInRange(g: Graph, src: string, st: Search, dist: map<string, real>, prev: map<string, string>,
                      items: seq<Item>, trace: Trace)
    requires InStep(g, src, st, dist, prev, items, trace)
    ensures st.rank.Keys <= st.dist.Keys
  {
  }

  /** The state between two turns of the main loop. */
  ghost predicate Ready(g: Graph, src: string, st: Search, q: multiset<Item>) {
    Inv(g, src, st, q) && AllRelaxed(g, st)
  }

  lemma ReadyIsTree(g: Graph, src: string, st: Search, q: multiset<Item>)
    requires Ready(g, src, st, q)
    ensures Tree(g, src, st)
  {
  }

  ghost predicate Minimal(q: multiset<Item>, it: Item) {
    it in q && forall y :: y in q ==> it.cost <= y.cost
  }

  lemma ItemInRange(g: Graph, src: string, st: Search, q: multiset<Item>, it: Item)
    requires Inv(g, src, st, q) && it in q
    ensures it.nodeId in st.dist && it.nodeId in g.nodes && st.dist[it.nodeId] < UNREACHED
  {
    assert Pending(g, st, it);
  }

  /** Everything between two turns of the main loop: the search, its tables, and what it has cost so far. */
  ghost predicate AtTurn(g: Graph, src: string, st: Search, dist: map<string, real>, prev: map<string, string>,
                         q: multiset<Item>, trace: Trace)
  {
    && Ready(g, src, st, q) && dist == st.dist && Records(prev, st.via)
    && Traced(trace, st.dist, st.rank.Keys) && Economical(g, trace)
  }

  lemma InitialTurn(g: Graph, src: string, trace: Trace)
    requires g.WellFormed() && src in g.nodes && trace == [Pushed(Item(src, 0.0))]
    ensures AtTurn(g, src, Initial(g, src), Initial(g, src).dist, map[], multiset{Item(src, 0.0)}, trace)
  {
    InitialInv(g, src);
    assert trace[..0] == [];
  }

  lemma SkipEconomy(g: Graph, trace: Trace, dist: map<string, real>, expanded: set<string>, trace': Trace)
    requires Economical(g, trace) && Traced(trace', dist, expanded)
    requires Expansions(trace') == Expansions(trace) && Pushes(trace') == Pushes(trace)
    ensures Economical(g, trace')
  {
  }

  lemma EconomyStays(g: Graph, trace: Trace, dist: map<string, real>, expanded: set<string>, x: string,
                     trace': Trace)
    requires Economical(g, trace) && Traced(trace', dist, expanded) && x in g.nodes
    requires Expansions(trace') == Expansions(trace) + [x] && Pushes(trace') <= Pushes(trace) + |g.Neighbors(x)|
    ensures Economical(g, trace')
  {
    assert (Expansions(trace) + [x])[..|Expansions(trace)|] == Expansions(trace);
  }

  /** Handles one popped entry: skips it if stale, otherwise expands its node. */
  method Visit(g: Graph, src: string, item: Item, dist0: map<string, real>, prev0: map<string, string>,
               pq: PriorityQueue, ghost st0: Search, ghost trace0: Trace)
    returns (dist: map<string, real>, prev: map<string, string>, ghost st: Search)
    requires IsHeap(pq.items) && pq.trace == trace0 + [Popped(item)]
    requires AtTurn(g, src, st0, dist0, prev0, multiset(pq.items) + multiset{item}, trace0)
    requires Minimal(multiset(pq.items) + multiset{item}, item)
    modifies pq
    ensures IsHeap(pq.items) && AtTurn(g, src, st, dist, prev, multiset(pq.items), pq.trace)
    ensures if item.cost > dist0[item.nodeId] then st.rank == st0.rank && pq.items == old(pq.items)
            else item.nodeId in g.nodes.Keys - st0.rank.Keys && st.rank.Keys == st0.rank.Keys + {item.nodeId}
  {
    hide Inv, AllRelaxed, Expanding, Economical, Traced, Records, Expansions, Pushes;
    dist, prev, st := dist0, prev0, st0;
    ghost var q := multiset(pq.items) + multiset{item};
    assert q - multiset{item} == multiset(pq.items);
    ItemInRange(g, src, st0, q, item);
    if item.cost > dist[item.nodeId] {
      StalePop(g, src, st0, q, item);
      StalePopTraced(trace0, st0.dist, st0.rank.Keys, item);
      SkipEconomy(g, trace0, st0.dist, st0.rank.Keys, pq.trace);
    } else {
      FreshPop(g, src, st0, q, item);
      FreshPopTraced(trace0, st0.dist, st0.rank.Keys, item);
      assert Expand(st0, item.nodeId).rank.Keys == st0.rank.Keys + {item.nodeId};
      dist, prev, st := Relax(g, src, item.nodeId, dist, prev, pq, Expand(st0, item.nodeId));
      EconomyStays(g, trace0, st.dist, st.rank.Keys, item.nodeId, pq.trace);
    }
  }

  /** What the caller of the main loop is told. */
  ghost predicate Finished(g: Graph, src: string, dst: string, st: Search, dist: map<string, real>,
                           prev: map<string, string>, trace: Trace)
  {
    && Tree(g, src, st) && dist == st.dist && Records(prev, st.via) && dst in dist
    && (if dist[dst] >= UNREACHED then !Reachable(g, src, dst) else IsCheapest(g, src, dst, dist[dst]))
    && EndsAt(g, trace, dst)
  }

  lemma EndAtDestination(g: Graph, src: string, dst: string, st: Search, dist: map<string, real>,
                         prev: map<string, string>, q: multiset<Item>, trace: Trace, it: Item)
    requires AtTurn(g, src, st, dist, prev, q, trace) && dst !in st.rank && Minimal(q, it) && it.nodeId == dst
    ensures Finished(g, src, dst, st, dist, prev, trace + [Popped(it)])
  {
    PoppedIsCheapest(g, src, dst, st, q, it);
    ReadyIsTree(g, src, st, q);
    hide Ready, Tree, IsCheapest, Economical, Expansions;
  }

  lemma EndDrained(g: Graph, src: string, dst: string, st: Search, dist: map<string, real>,
                   prev: map<string, string>, trace: Trace)
    requires AtTurn(g, src, st, dist, prev, multiset{}, trace) && dst !in st.rank && dst in g.nodes
    ensures Finished(g, src, dst, st, dist, prev, trace)
  {
    DrainedIsUnreachable(g, src, dst, st);
    ReadyIsTree(g, src, st, multiset{});
  }

  /** The main loop: stops at the first entry popped for the destination, or when the queue is empty. */
  method Explore(g: Graph, src: string, dst: string, pq: PriorityQueue)
    returns (dist: map<string, real>, prev: map<string, string>, ghost st: Search)
    requires g.WellFormed() && src in g.nodes && dst in g.nodes && pq.items == [] && pq.trace == []
    modifies pq
    ensures Finished(g, src, dst, st, dist, prev, pq.trace)
  {
    hide AtTurn, Finished;
    st := Initial(g, src);
    dist := map id | id in g.nodes :: UNREACHED;
    dist := dist[src := 0.0];
    prev := map[];
    pq.Push(Item(src, 0.0));
    InitialTurn(g, src, pq.trace);
    assert multiset(pq.items) == multiset{Item(src, 0.0)};
    while |pq.items| > 0
      invariant IsHeap(pq.items) && AtTurn(g, src, st, dist, prev, multiset(pq.items), pq.trace)
      invariant dst !in st.rank
      decreases g.nodes.Keys - st.rank.Keys, |pq.items|
    {
      ghost var q, trace := multiset(pq.items), pq.trace;
      var item := pq.Pop();
      assert Minimal(q, item);
      if item.nodeId == dst {
        EndAtDestination(g, src, dst, st, dist, prev, q, trace, item);
        return;
      }
      assert q == multiset(pq.items) + multiset{item};
      dist, prev, st := Visit(g, src, item, dist, prev, pq, st, trace);
    }
    assert multiset(pq.items) == multiset{};
    EndDrained(g, src, dst, st, dist, prev, pq.trace);
  }

  lemma LastStop(g: Graph, src: string, st: Search, v: string)
    requires Tree(g, src, st) && OnTree(g, src, st, v) && v != src
    ensures OnTree(g, src, st, st.via[v].from)
    ensures Stops(src, TreeWalk(g, src, st, v)) == Stops(src, TreeWalk(g, src, st, st.via[v].from)) + [v]
  {
    FromIsOnTree(g, src, st, v);
    assert TreeEdge(g, src, st, v);
  }

  /** Follows `prev` from the destination back to the source. */
  method Reconstruct(g: Graph, src: string, dst: string, prev: map<string, string>, ghost st: Search)
    returns (path: seq<string>)
    requires g.WellFormed() && Tree(g, src, st) && OnTree(g, src, st, dst) && Records(prev, st.via)
    ensures path == Stops(src, TreeWalk(g, src, st, dst))
  {
    hide Tree;
    path := [];
    var cur := dst;
    while cur != ""
      invariant OnTree(g, src, st, cur)
      invariant Stops(src, TreeWalk(g, src, st, dst)) == Stops(src, TreeWalk(g, src, st, cur)) + path
      decreases Rank(st, cur)
    {
      ghost var before := path;
      path := [cur] + path;
      if cur == src {
        return;
      }
      FromIsOnTree(g, src, st, cur);
      LastStop(g, src, st, cur);
      ghost var up := Stops(src, TreeWalk(g, src, st, st.via[cur].from));
      assert (up + [cur]) + before == up + path;
      cur := if cur in prev then prev[cur] else "";
    }
  }

  /** Finds the lowest-cost route, or says which of the three errors stands in the way. */
  method ShortestPath(g: Graph, src: string, dst: string, now: int)
    returns (r: Result<Route, RouteError>, ghost w: Walk)
    requires g.WellFormed()
    ensures r == Err(SourceNotInGraph) <==> src !in g.nodes
    ensures r == Err(DestinationNotInGraph) <==> src in g.nodes && dst !in g.nodes
    ensures r == Err(NoPath) <==> src in g.nodes && dst in g.nodes && !Reachable(g, src, dst)
    ensures r.Ok? <==> src in g.nodes && dst in g.nodes && Reachable(g, src, dst)
    ensures r.Ok? ==> IsBestRoute(g, src, dst, w, r.value, now)
  {
    w := Stay;
    if src !in g.nodes {
      return Err(SourceNotInGraph), w;
    }
    if dst !in g.nodes {
      return Err(DestinationNotInGraph), w;
    }
    var dist, prev;
    ghost var st;
    var pq := new PriorityQueue();
    dist, prev, st := Explore(g, src, dst, pq);
    if dist[dst] >= UNREACHED {
      return Err(NoPath), w;
    }
    assert TreeEdge(g, src, st, dst);
    var path := Reconstruct(g, src, dst, prev, st);
    w := TreeWalk(g, src, st, dst);
    TreeWalkArrives(g, src, st, dst);
    TreeWalkRanks(g, src, st, dst);
    TreeWalkIsShortcutFree(g, src, st, dst);
    var connType := ConnectionDirect;
    var relayNodeId := "";
    if |path| > 2 {
      connType := ConnectionRelay;
      relayNodeId := path[1];
    }
    r := Ok(Route(src, dst, path, dist[dst], connType, relayNodeId, now, now + ROUTE_TTL));
  }
}
