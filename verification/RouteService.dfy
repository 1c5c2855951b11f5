/** Route answers, their cache and the relay fallback (control-plane/service/route_service.go and
    control-plane/db/route_repo.go). The tables are fields, and which queries fail is a parameter of each
    call. So is what happens to the tables, and to the clock, between one query of the call and the next. */
module RouteService {
  import opened Common
  import opened HopCost
  import opened MeshGraph
  import opened MetricsWindow
  import opened Walks
  import opened ClosedForm
  import opened RouteHistory

  datatype RelayServer = RelayServer(id: string, address: string, vlessPort: int, capacity: int,
                                     activeSessions: int, lastSeen: int)

  datatype PeerInfo = PeerInfo(publicKey: string, endpoint: string, internalIp: string, nodeType: NodeType)

  /** What a client needs to reach a relay; the mesh token it carries is bound to `tokenFor`. */
  datatype RelayEndpoint = RelayEndpoint(address: string, vlessPort: int, tokenFor: string)

  datatype RouteResponse = RouteResponse(route: Route, connectionType: ConnectionType, dstPeer: PeerInfo,
                                         relay: Option<RelayEndpoint>)

  datatype ServiceError = LookupFailed | DatabaseError | NoRouteAvailable | NoRelay

  /** The queries that fail during one call; storing fails per pair of nodes. */
  datatype Faults = Faults(lookup: bool, cache: bool, online: bool, metrics: bool, relay: bool, caller: bool,
                           store: set<(string, string)>)

  /** An instant of a call: what the tables hold by then, and whether expired routes are cleared. */
  datatype Moment = Moment(now: int, nodes: seq<Node>, samples: seq<Sample>, relays: seq<RelayServer>, kinds: Kinds,
                           expire: bool)

  /** The instants a call goes through, one for each of its queries. */
  type Course = nat -> Moment

  ghost predicate Possible(m: Moment) {
    UniqueNodes(m.nodes) && Known(m.kinds, m.nodes)
  }

  ghost predicate Orderly(c: Course) {
    && (forall i :: Possible(c(i)))
    && (forall i, j :: i <= j ==> c(i).now <= c(j).now && Extends(c(i).kinds, c(j).kinds))
  }

  /** What stands in for a route that cannot be had. */
  function StandIn(src: string, dst: string): Route {
    Route(src, dst, [src, dst], 0.0, ConnectionRelay, "", 0, 0)
  }

  /** Whether a row can be added: the nodes it names must be there. */
  predicate StoreWorks(nodes: seq<Node>, r: Route, fails: bool) {
    && !fails && HasNode(nodes, r.srcNodeId) && HasNode(nodes, r.dstNodeId)
    && (r.relayNodeId == "" || HasNode(nodes, r.relayNodeId))
  }

  /** Every node the route names has a row. */
  ghost predicate NamesRows(r: Route, nodes: seq<Node>) {
    && (exists n :: n in nodes && n.info.id == r.srcNodeId) && (exists n :: n in nodes && n.info.id == r.dstNodeId)
    && (r.relayNodeId != "" ==> exists n :: n in nodes && n.info.id == r.relayNodeId)
  }

  /** The answer by the rows read at c(k) and c(k + 1), stamped at c(k + 2). */
  ghost predicate IsCalculated(r: Route, src: string, dst: string, c: Course, k: nat) {
    && AnsweredFrom(c(k).nodes, c(k + 1).samples, c(k + 1).now, r)
    && AnsweredByRows(c(k).nodes, c(k + 1).samples, c(k + 1).now, r)
    && Labelled(r, src, dst, c(k + 2).now)
  }

  // ---- What a recalculation stores ----

  /** A row since `from` is for the pair. */
  ghost predicate Stored(rows: seq<Route>, from: nat, a: string, b: string) {
    exists k :: from <= k < |rows| && rows[k].srcNodeId == a && rows[k].dstNodeId == b
  }

  /** If `a` is a client and `b` an exit node it can reach, the pair has a row since `from` or a warning. */
  ghost predicate Handled(online: seq<NodeInfo>, rows: seq<Route>, from: nat, warned: set<(string, string)>,
                          a: NodeInfo, b: NodeInfo)
  {
    a.nodeType.Client? && b.nodeType.Exit? && Connected(ById(online), a.id, b.id) ==>
      Stored(rows, from, a.id, b.id) || (a.id, b.id) in warned
  }

  lemma HandledStays(online: seq<NodeInfo>, rows: seq<Route>, from: nat, warned: set<(string, string)>,
                     more: seq<Route>, warned': set<(string, string)>)
    requires warned <= warned'
    ensures forall a, b :: Handled(online, rows, from, warned, a, b) ==>
                           Handled(online, rows + more, from, warned', a, b)
  {
    forall a, b | Stored(rows, from, a, b) ensures Stored(rows + more, from, a, b) {
      var k :| from <= k < |rows| && rows[k].srcNodeId == a && rows[k].dstNodeId == b;
      assert (rows + more)[k] == rows[k];
    }
  }

  /** The answer for a client and an exit node by the nodes read at c(0) and the metrics read at c(1). */
  ghost predicate IsFresh(c: Course, r: Route) {
    && AnsweredFrom(c(0).nodes, c(1).samples, c(1).now, r)
    && AnsweredByRows(c(0).nodes, c(1).samples, c(1).now, r)
    && (exists a :: a in Online(c(0).nodes) && a.id == r.srcNodeId && a.nodeType.Client?)
    && (exists b :: b in Online(c(0).nodes) && b.id == r.dstNodeId && b.nodeType.Exit?)
  }

  ghost predicate FreshSince(c: Course, rows: seq<Route>, from: nat) {
    from <= |rows| && forall k :: from <= k < |rows| ==> IsFresh(c, rows[k])
  }

  /** Storing the pair's route failed, or a node that had been read was gone by then. */
  ghost predicate Excused(c: Course, faults: Faults, pair: (string, string)) {
    && Routable(c(0).nodes, pair.0, pair.1)
    && (pair in faults.store || exists i: nat, n :: n in Online(c(0).nodes) && !HasNode(c(i).nodes, n.id))
  }

  /** How far a recalculation has got when the pair (i, j) of the nodes read is next: the rows it has added to
      `base`, and the pairs it has warned of. */
  ghost predicate DoneTo(c: Course, faults: Faults, base: seq<Route>, rows: seq<Route>, warned: set<(string, string)>,
                         i: nat, j: nat)
  {
    var online := Online(c(0).nodes);
    && base <= rows && FreshSince(c, rows, |base|) && (forall pair :: pair in warned ==> Excused(c, faults, pair))
    && i <= |online| && j <= |online|
    && (forall a, b :: a in online[..i] && b in online ==> Handled(online, rows, |base|, warned, a, b))
    && (i < |online| ==> forall b :: b in online[..j] ==> Handled(online, rows, |base|, warned, online[i], b))
  }

  lemma NoneYet(c: Course, faults: Faults, rows: seq<Route>)
    ensures DoneTo(c, faults, rows, rows, {}, 0, 0)
  {
  }

  lemma TurnDone(c: Course, faults: Faults, base: seq<Route>, rows: seq<Route>, warned: set<(string, string)>, i: nat)
    requires i < |Online(c(0).nodes)| && DoneTo(c, faults, base, rows, warned, i, |Online(c(0).nodes)|)
    ensures DoneTo(c, faults, base, rows, warned, i + 1, 0)
  {
    hide Handled, FreshSince, Excused, Online;
    assert Online(c(0).nodes)[..i + 1] == Online(c(0).nodes)[..i] + [Online(c(0).nodes)[i]];
  }

  lemma AllDone(c: Course, faults: Faults, base: seq<Route>, rows: seq<Route>, warned: set<(string, string)>)
    requires DoneTo(c, faults, base, rows, warned, |Online(c(0).nodes)|, 0)
    ensures base <= rows && FreshSince(c, rows, |base|) && forall pair :: pair in warned ==> Excused(c, faults, pair)
    ensures forall a, b :: a in Online(c(0).nodes) && b in Online(c(0).nodes) ==>
              Handled(Online(c(0).nodes), rows, |base|, warned, a, b)
  {
    hide Handled, FreshSince, Excused, Online;
    assert Online(c(0).nodes)[..|Online(c(0).nodes)|] == Online(c(0).nodes);
  }

  lemma PairDone(c: Course, faults: Faults, i: nat, j: nat, tick: nat, found: Option<Route>, stored: bool,
                 base: seq<Route>, rows: seq<Route>, rows': seq<Route>, warned: set<(string, string)>,
                 warned': set<(string, string)>)
    requires UniqueNodes(c(0).nodes) && i < |Online(c(0).nodes)| && j < |Online(c(0).nodes)|
    requires DoneTo(c, faults, base, rows, warned, i, j)
    requires var a, b := Online(c(0).nodes)[i], Online(c(0).nodes)[j];
      && IsOutcome(c, faults, a, b, tick, found, stored)
      && warned' == warned + if found.Some? && !stored then {(a.id, b.id)} else {}
    requires rows' == rows + if stored then [found.value] else []
    ensures DoneTo(c, faults, base, rows', warned', i, j + 1)
  {
    hide Handled, FreshSince, Excused, Online, IsOutcome;
    var online := Online(c(0).nodes);
    PairIsHandled(c, faults, online[i], online[j], tick, found, stored, rows, rows', |base|, warned, warned');
    assert online[..j + 1] == online[..j] + [online[j]];
  }

  /** What comes of one pair, with the route stored, or not, at c(tick + 1). */
  ghost predicate IsOutcome(c: Course, faults: Faults, a: NodeInfo, b: NodeInfo, tick: nat, found: Option<Route>,
                            stored: bool)
  {
    && (found.Some? <==>
          a.nodeType.Client? && b.nodeType.Exit? && Connected(ById(Online(c(0).nodes)), a.id, b.id))
    && (found.Some? ==> AnsweredFrom(c(0).nodes, c(1).samples, c(1).now, found.value)
                        && Labelled(found.value, a.id, b.id, found.value.createdAt))
    && (stored <==> found.Some? && StoreWorks(c(tick + 1).nodes, found.value, (a.id, b.id) in faults.store))
  }

  /** What one pair adds to what a recalculation has done so far. */
  lemma PairIsHandled(c: Course, faults: Faults, a: NodeInfo, b: NodeInfo, tick: nat, found: Option<Route>,
                      stored: bool, rows: seq<Route>, rows': seq<Route>, from: nat, warned: set<(string, string)>,
                      warned': set<(string, string)>)
    requires UniqueNodes(c(0).nodes) && a in Online(c(0).nodes) && b in Online(c(0).nodes) && FreshSince(c, rows, from)
    requires IsOutcome(c, faults, a, b, tick, found, stored)
    requires rows' == rows + if stored then [found.value] else []
    requires warned' == warned + if found.Some? && !stored then {(a.id, b.id)} else {}
    requires forall pair :: pair in warned ==> Excused(c, faults, pair)
    ensures FreshSince(c, rows', from) && Handled(Online(c(0).nodes), rows', from, warned', a, b)
    ensures forall x, y :: Handled(Online(c(0).nodes), rows, from, warned, x, y) ==>
                           Handled(Online(c(0).nodes), rows', from, warned', x, y)
    ensures forall pair :: pair in warned' ==> Excused(c, faults, pair)
  {
    var online := Online(c(0).nodes);
    HandledStays(online, rows, from, warned, rows'[|rows|..], warned');
    assert rows' == rows + rows'[|rows|..];
    if stored {
      OutcomeIsFresh(c, faults, a, b, tick, found.value);
      assert rows'[|rows|] == found.value;
    } else if found.Some? {
      FailureIsExcused(c, faults, a, b, tick, found.value);
    }
    hide IsFresh, Excused, AnsweredFrom, Online, ById, Connected, StoreWorks;
  }

  lemma OutcomeIsFresh(c: Course, faults: Faults, a: NodeInfo, b: NodeInfo, tick: nat, r: Route)
    requires UniqueNodes(c(0).nodes) && a in Online(c(0).nodes) && b in Online(c(0).nodes)
    requires IsOutcome(c, faults, a, b, tick, Some(r), true)
    ensures IsFresh(c, r)
  {
    AnswerByRows(c(0).nodes, c(1).samples, c(1).now, a.id, b.id, r);
    hide AnsweredFrom, AnsweredByRows, OnlineSet, Online, ById, Connected, HasNode;
  }

  lemma FailureIsExcused(c: Course, faults: Faults, a: NodeInfo, b: NodeInfo, tick: nat, r: Route)
    requires UniqueNodes(c(0).nodes) && a in Online(c(0).nodes) && b in Online(c(0).nodes)
    requires IsOutcome(c, faults, a, b, tick, Some(r), false)
    ensures Excused(c, faults, (a.id, b.id))
  {
    StopsWereOnline(c(0).nodes, c(1).samples, c(1).now, r);
    PathHolds(c(0).nodes, c(1).samples, c(1).now, r);
    hide Online, ById, Connected, HasNode, IsClosedForm;
  }

  /** The nodes a stored route names are its stops. */
  lemma PathHolds(nodes: seq<Node>, samples: seq<Sample>, at: int, r: Route)
    requires AnsweredFrom(nodes, samples, at, r) && Labelled(r, r.srcNodeId, r.dstNodeId, r.createdAt)
    ensures r.srcNodeId in r.path && r.dstNodeId in r.path && (r.relayNodeId != "" ==> r.relayNodeId in r.path)
  {
    hide CostsOf, Latest, Online, ById;
    assert r.path[0] in r.path && r.path[|r.path| - 1] in r.path;
  }

  class RouteService {
    var nodes: seq<Node>
    var samples: seq<Sample>
    var routes: seq<Route>
    var relays: seq<RelayServer>

    ghost var kinds: Kinds
    ghost var clock: int           // the latest instant at which anything happened
    ghost var changed: int         // the latest instant at which nodes or metrics changed
    ghost var past: seq<Snapshot>  // the tables over time, those of now last
    ghost var log: seq<Route>      // every route ever stored

    ghost predicate Valid()
      reads this
    {
      && UniqueNodes(nodes) && Known(kinds, nodes) && changed <= clock
      && InOrder(past) && past[|past| - 1] == Snapshot(nodes, samples, changed) && PastKnown(kinds, past)
      && (forall r :: r in log ==> Kept(r))
      && (forall r :: r in routes ==> r in log && HasNode(nodes, r.srcNodeId) && HasNode(nodes, r.dstNodeId))
    }

    /** A route fit to be stored: sound, and the answer in tables read before it was stamped. */
    ghost predicate Kept(r: Route)
      reads this`kinds, this`clock, this`past
    {
      KeptIn(kinds, clock, past, r)
    }

    /** The moment may come next. */
    ghost predicate CanMeet(m: Moment)
      reads this`kinds, this`clock
    {
      Possible(m) && clock <= m.now && Extends(kinds, m.kinds)
    }

    constructor (relays: seq<RelayServer>, now: int)
      ensures Valid() && nodes == [] && routes == [] && log == [] && this.relays == relays
      ensures clock == now == changed && kinds == map[] && past == [Snapshot([], [], now)]
    {
      this.nodes, this.samples, this.routes, this.relays := [], [], [], relays;
      kinds, clock, changed, past, log := map[], now, now, [Snapshot([], [], now)], [];
    }

    /** Time passes, and the history is as it was or goes on by one snapshot. */
    twostate predicate GoesOn()
      reads this
    {
      && old(clock) <= clock && Extends(old(kinds), kinds) && Continues(old(past), past, old(clock)) && log == old(log)
    }

    twostate lemma KeptGoOn()
      requires old(Valid()) && GoesOn()
      ensures forall r :: old(Kept(r)) ==> Kept(r)
    {
      forall r | old(Kept(r)) ensures Kept(r) {
        KeptStays(old(kinds), old(clock), old(past), kinds, clock, past, r);
      }
    }

    /** Everything outside this service that changes the node, metrics and relay tables, in one step: rows
        come, go and change, but an ID keeps its type. Routes of removed nodes go with them. */
    method ChangeTables(m: Moment)
      requires Valid() && CanMeet(m)
      modifies this
      ensures Valid() && nodes == m.nodes && samples == m.samples && relays == m.relays
      ensures GoesOn() && past == old(past) + [Snapshot(m.nodes, m.samples, m.now)]
      ensures kinds == m.kinds && changed == clock == m.now
      ensures forall r :: r in routes <==>
        r in old(routes) && HasNode(m.nodes, r.srcNodeId) && HasNode(m.nodes, r.dstNodeId)
    {
      hide HasNode, Sound, ReadAs;
      nodes, samples, relays := m.nodes, m.samples, m.relays;
      kinds, clock, changed := m.kinds, m.now, m.now;
      past := past + [Snapshot(m.nodes, m.samples, m.now)];
      assert past[|past| - 1].since >= old(clock);
      KeptGoOn();
      hide KeptIn;
      var kept: seq<Route> := [];
      ghost var before := routes;
      for i := 0 to |routes|
        invariant routes == before && nodes == m.nodes
        invariant forall r :: r in kept <==>
          r in before[..i] && HasNode(m.nodes, r.srcNodeId) && HasNode(m.nodes, r.dstNodeId)
      {
        var r := routes[i];
        if HasNode(nodes, r.srcNodeId) && HasNode(nodes, r.dstNodeId) {
          kept := kept + [r];
        }
      }
      routes := kept;
    }

    /** Time passes, and the tables stay. */
    method LetPass(m: Moment)
      requires Valid() && CanMeet(m) && nodes == m.nodes && samples == m.samples
      modifies this`kinds, this`clock, this`relays
      ensures Valid() && GoesOn() && kinds == m.kinds && clock == m.now && relays == m.relays
    {
      hide HasNode, Sound, ReadAs;
      relays := m.relays;
      kinds, clock := m.kinds, m.now;
      KeptGoOn();
      hide KeptIn;
    }

    /** Deletes the rows past their expiry. */
    method DeleteExpired(now: int)
      requires Valid() && now == clock
      modifies this`routes
      ensures Valid()
      ensures forall r :: r in routes <==> r in old(routes) && r.expiresAt >= now
    {
      hide KeptIn, InOrder;
      var kept: seq<Route> := [];
      ghost var before := routes;
      for i := 0 to |routes|
        invariant routes == before
        invariant forall r :: r in kept <==> r in before[..i] && r.expiresAt >= now
      {
        if routes[i].expiresAt >= now {
          kept := kept + [routes[i]];
        }
      }
      routes := kept;
    }

    /** Between one query and the next: what others do to the tables meanwhile. */
    method Meanwhile(m: Moment)
      requires Valid() && CanMeet(m)
      modifies this
      ensures Valid() && nodes == m.nodes && samples == m.samples && relays == m.relays
      ensures GoesOn() && kinds == m.kinds && clock == m.now
      ensures changed == if m.nodes == old(nodes) && m.samples == old(samples) then old(changed) else m.now
      ensures forall r :: r in routes <==>
        && r in old(routes) && HasNode(m.nodes, r.srcNodeId) && HasNode(m.nodes, r.dstNodeId)
        && (m.expire ==> r.expiresAt >= m.now)
      ensures forall r :: old(Kept(r)) ==> Kept(r)
    {
      if nodes == m.nodes && samples == m.samples {
        LetPass(m);
      } else {
        ChangeTables(m);
      }
      KeptGoOn();
      hide KeptIn, HasNode;
      if m.expire {
        DeleteExpired(m.now);
      }
    }

    /** The cheapest row of the pair that has not expired. */
    method GetOptimal(src: string, dst: string, now: int) returns (best: Option<Route>)
      ensures best.Some? ==> best.value in routes && Serves(best.value, src, dst, now)
      ensures best.Some? ==> forall r :: r in routes && Serves(r, src, dst, now) ==> best.value.cost <= r.cost
      ensures best.None? ==> forall r :: r in routes ==> !Serves(r, src, dst, now)
    {
      best := None;
      for i := 0 to |routes|
        invariant best.Some? ==> best.value in routes && Serves(best.value, src, dst, now)
        invariant best.Some? ==> forall r :: r in routes[..i] && Serves(r, src, dst, now) ==> best.value.cost <= r.cost
        invariant best.None? ==> forall r :: r in routes[..i] ==> !Serves(r, src, dst, now)
      {
        var r := routes[i];
        if r.srcNodeId == src && r.dstNodeId == dst && r.expiresAt > now && (best.None? || r.cost < best.value.cost) {
          best := Some(r);
        }
      }
    }

    /** Adds a row, if the nodes it names exist. The statement would update one on a conflict of the serial
        primary key, which it never supplies. */
    method Upsert(r: Route, fails: bool) returns (ok: bool)
      requires Valid() && Kept(r)
      modifies this`routes, this`log
      ensures Valid() && ok == StoreWorks(nodes, r, fails)
      ensures ok <==> !fails && NamesRows(r, nodes)
      ensures log == old(log) + if ok then [r] else []
      ensures routes == old(routes) + if ok then [r] else []
    {
      hide KeptIn;
      ok := StoreWorks(nodes, r, fails);
      if ok {
        routes := routes + [r];
        log := log + [r];
      }
    }

    /** What the tables hold now is what a query now reads. */
    lemma HasNow()
      requires Valid()
      ensures HadNodes(past, clock, nodes) && HadSamples(past, clock, samples)
    {
      assert InForce(past, |past| - 1, clock);
    }

    /** Nodes and metrics that have been read make a graph to search. */
    lemma ReadIsSearchable(read: Reading, ns: seq<Node>, ss: seq<Sample>)
      requires Valid() && Reads(past, read, ns, ss)
      ensures UniqueNodes(ns) && UniqueIds(Online(ns)) && (forall n :: n in Online(ns) ==> n.id != "")
      ensures Priced(PricesAt(ss, read.metricsAt))
    {
      ReadIsKnown(kinds, past, read, ns, ss);
      OnlineKinds(kinds, ns);
      WeightsPrice(Latest(ss, read.metricsAt), DEFAULT_WEIGHTS);
    }

    /** ShortestPath for one pair on a graph of nodes and metrics read some time ago; the route is stamped
        now. */
    method AnswerPair(g: Graph, ghost read: Reading, ghost ns: seq<Node>, ghost ss: seq<Sample>, src: string,
                      dst: string, now: int)
      returns (found: Result<Route, RouteError>)
      requires Valid() && clock == now && Reads(past, read, ns, ss) && read.metricsAt <= now
      requires Built(g, Online(ns), PricesAt(ss, read.metricsAt))
      ensures found.Ok? <==> Routable(ns, src, dst)
      ensures found.Ok? <==> HasRouteByRows(OnlineSet(ns), src, dst)
      ensures found.Ok? ==> AnsweredFrom(ns, ss, read.metricsAt, found.value) && Labelled(found.value, src, dst, now)
      ensures found.Ok? ==> ReadAs(past, found.value, read) && Kept(found.value)
      ensures found.Ok? ==> AnsweredByRows(ns, ss, read.metricsAt, found.value)
    {
      ReadIsSearchable(read, ns, ss);
      hide Built, Priced, Connected, IsClosedForm, KeptIn, AnsweredByRows, HasRouteByRows;
      found := FindRoute(g, Online(ns), PricesAt(ss, read.metricsAt), src, dst, now);
      if found.Ok? {
        AnswerIsKept(kinds, clock, past, ns, ss, read, found.value);
        AnswerByRows(ns, ss, read.metricsAt, src, dst, found.value);
      } else {
        AnswerByRows(ns, ss, read.metricsAt, src, dst, StandIn(src, dst));
      }
    }

    /** Calculates a route from the nodes at c(k) and the metrics at c(k + 1), stamps it at c(k + 2) and stores
        it at c(k + 3); the caller gets it even if storing fails. */
    method CalculateRoute(src: string, dst: string, c: Course, k: nat, faults: Faults)
      returns (res: Result<Route, ServiceError>)
      requires Valid() && Orderly(c) && CanMeet(c(k))
      modifies this
      ensures Valid() && CanMeet(c(k + 3))
      ensures res.Ok? ==> IsCalculated(res.value, src, dst, c, k)
      ensures res.Ok? ==> ReadAs(past, res.value, Reading(c(k).now, c(k + 1).now)) && Kept(res.value)
      ensures res == Err(NoRouteAvailable) <==>
                !faults.online && !faults.metrics && !HasRouteByRows(OnlineSet(c(k).nodes), src, dst)
      ensures res.Err? && res.error != NoRouteAvailable ==>
                res.error == DatabaseError && (faults.online || faults.metrics)
      ensures log == old(log) + if res.Ok? && StoreWorks(c(k + 3).nodes, res.value, (src, dst) in faults.store)
                                then [res.value] else []
    {
      hide Valid, KeptIn, Reads, ReadAs, AnsweredFrom, Routable, Labelled, Possible, HasNode, Latest, CostsOf,
           Continues, AnsweredByRows, HasRouteByRows, OnlineSet, NamesRows, StoreWorks;
      Meanwhile(c(k));
      if faults.online {
        return Err(DatabaseError);
      }
      var online := Online(nodes);
      HasNow();
      ghost var before, past0 := clock, past;
      Meanwhile(c(k + 1));
      if faults.metrics {
        return Err(DatabaseError);
      }
      HasNow();
      ghost var read, ns, ss := Reading(c(k).now, c(k + 1).now), c(k).nodes, samples;
      ReadAll(past0, before, read, ns, ss);
      ReadIsSearchable(read, ns, ss);
      var graph := BuildGraph(online, Latest(samples, c(k + 1).now), DEFAULT_WEIGHTS);
      past0 := past;
      Meanwhile(c(k + 2));
      ReadsStay(past0, past, read.metricsAt, read, ns, ss);
      var found := AnswerPair(graph, read, ns, ss, src, dst, c(k + 2).now);
      before, past0 := clock, past;
      Meanwhile(c(k + 3));
      if found.Err? {
        return Err(NoRouteAvailable);
      }
      assert IsCalculated(found.value, src, dst, c, k);
      StampedThen(found.value, src, dst, c(k + 2).now);
      hide IsCalculated;
      ReadAsStays(past0, past, before, found.value, read);
      var ok := Upsert(found.value, (src, dst) in faults.store);
      res := Ok(found.value);
    }

    lemma StampedThen(r: Route, src: string, dst: string, now: int)
      requires Labelled(r, src, dst, now)
      ensures r.createdAt == now && r.srcNodeId == src && r.dstNodeId == dst
    {
    }

    /** Nodes read at one moment and metrics read now have been read. */
    lemma ReadAll(past0: seq<Snapshot>, before: int, read: Reading, ns: seq<Node>, ss: seq<Sample>)
      requires HadNodes(past0, read.nodesAt, ns) && HadSamples(past, read.metricsAt, ss)
      requires read.nodesAt <= before <= read.metricsAt && Continues(past0, past, before)
      ensures Reads(past, read, ns, ss)
    {
      HadNodesStays(past0, past, before, read.nodesAt, ns);
    }

    /** One turn of the inner loop of RecalculateAllRoutes, on a graph of nodes and metrics read some time ago:
        the route of a client and an exit node is stamped at `stamp` and stored at `store`. */
    method RecalculatePair(g: Graph, ghost read: Reading, ghost ns: seq<Node>, ghost ss: seq<Sample>, a: NodeInfo,
                           b: NodeInfo, stamp: Moment, store: Moment, faults: Faults)
      returns (found: Option<Route>, stored: bool)
      requires Valid() && CanMeet(stamp)
      requires Possible(store) && stamp.now <= store.now && Extends(stamp.kinds, store.kinds)
      requires Reads(past, read, ns, ss) && read.metricsAt <= clock
      requires Built(g, Online(ns), PricesAt(ss, read.metricsAt))
      requires a in Online(ns) && b in Online(ns)
      modifies this
      ensures Valid() && clock == store.now && kinds == store.kinds
      ensures Reads(past, read, ns, ss)
      ensures found.Some? <==> a.nodeType.Client? && b.nodeType.Exit? && Connected(ById(Online(ns)), a.id, b.id)
      ensures found.Some? ==> AnsweredFrom(ns, ss, read.metricsAt, found.value)
                              && Labelled(found.value, a.id, b.id, stamp.now)
      ensures stored <==> found.Some? && StoreWorks(store.nodes, found.value, (a.id, b.id) in faults.store)
      ensures log == old(log) + if stored then [found.value] else []
    {
      hide Valid, KeptIn, Reads, AnsweredFrom, Labelled, Possible, HasNode, Built, Connected, Online, ById, Extends;
      ghost var before, past0 := clock, past;
      Meanwhile(stamp);
      ReadsStay(past0, past, before, read, ns, ss);
      found, stored := None, false;
      if a.nodeType.Client? && b.nodeType.Exit? {
        OnlineAreThere(read, ns, ss, a, b);
        var route := AnswerPair(g, read, ns, ss, a.id, b.id, stamp.now);
        found := if route.Ok? then Some(route.value) else None;
      }
      before, past0 := clock, past;
      Meanwhile(store);
      ReadsStay(past0, past, before, read, ns, ss);
      if found.Some? {
        StampedThen(found.value, a.id, b.id, stamp.now);
        stored := Upsert(found.value, (a.id, b.id) in faults.store);
      }
    }

    lemma OutcomeOf(c: Course, faults: Faults, a: NodeInfo, b: NodeInfo, tick: nat, found: Option<Route>, stored: bool)
      requires found.Some? <==>
                 a.nodeType.Client? && b.nodeType.Exit? && Connected(ById(Online(c(0).nodes)), a.id, b.id)
      requires found.Some? ==> AnsweredFrom(c(0).nodes, c(1).samples, c(1).now, found.value)
                               && Labelled(found.value, a.id, b.id, c(tick).now)
      requires stored <==> found.Some? && StoreWorks(c(tick + 1).nodes, found.value, (a.id, b.id) in faults.store)
      ensures IsOutcome(c, faults, a, b, tick, found, stored)
    {
    }

    lemma CanGoOn(c: Course, k: nat)
      requires Orderly(c) && k >= 1 && clock == c(k - 1).now && kinds == c(k - 1).kinds
      ensures CanMeet(c(k)) && Possible(c(k + 1)) && Extends(c(k).kinds, c(k + 1).kinds)
      ensures clock <= c(k).now <= c(k + 1).now
    {
      hide Possible, Extends;
    }

    lemma OnlineAreThere(read: Reading, ns: seq<Node>, ss: seq<Sample>, a: NodeInfo, b: NodeInfo)
      requires Valid() && Reads(past, read, ns, ss) && a in Online(ns) && b in Online(ns)
      ensures Routable(ns, a.id, b.id) <==> Connected(ById(Online(ns)), a.id, b.id)
    {
      ReadIsSearchable(read, ns, ss);
      ByIdHolds(Online(ns));
    }

    /** Between two pairs of a recalculation, the next of which is stamped at c(tick). */
    ghost predicate Going(c: Course, read: Reading, tick: nat)
      reads this
    {
      && Valid() && tick >= 2 && clock == c(tick - 1).now && kinds == c(tick - 1).kinds
      && Reads(past, read, c(0).nodes, c(1).samples) && read.metricsAt == c(1).now <= clock
    }

    /** One pair of the recalculation, by position. */
    method NextPair(g: Graph, ghost read: Reading, online: seq<NodeInfo>, c: Course, faults: Faults, i: nat, j: nat,
                    tick: nat, ghost base: seq<Route>, warned0: set<(string, string)>)
      returns (stored: bool, warned: set<(string, string)>)
      requires Going(c, read, tick) && Orderly(c) && i < |online| && j < |online|
      requires online == Online(c(0).nodes) && Built(g, online, PricesAt(c(1).samples, read.metricsAt))
      requires DoneTo(c, faults, base, log, warned0, i, j)
      modifies this
      ensures Going(c, read, tick + 2) && DoneTo(c, faults, base, log, warned, i, j + 1)
      ensures |log| == |old(log)| + if stored then 1 else 0
    {
      hide Valid, Reads, Possible, HasNode, Built, Extends, AnsweredFrom, Labelled, Connected, StoreWorks, DoneTo,
           IsOutcome;
      ReadIsSearchable(read, c(0).nodes, c(1).samples);
      CanGoOn(c, tick);
      hide Orderly, Online, CanMeet;
      var found;
      found, stored :=
        RecalculatePair(g, read, c(0).nodes, c(1).samples, online[i], online[j], c(tick), c(tick + 1), faults);
      warned := warned0;
      if found.Some? && !stored {
        warned := warned + {(online[i].id, online[j].id)};
      }
      OutcomeOf(c, faults, online[i], online[j], tick, found, stored);
      PairDone(c, faults, i, j, tick, found, stored, base, old(log), log, warned0, warned);
    }

    /** The loops of RecalculateAllRoutes. */
    method RecalculatePairs(g: Graph, ghost read: Reading, online: seq<NodeInfo>, c: Course, faults: Faults)
      returns (recalculated: nat, warned: set<(string, string)>)
      requires Going(c, read, 2) && Orderly(c)
      requires online == Online(c(0).nodes) && Built(g, online, PricesAt(c(1).samples, read.metricsAt))
      modifies this
      ensures Valid() && old(log) <= log && recalculated == |log| - |old(log)| && FreshSince(c, log, |old(log)|)
      ensures forall a, b :: a in online && b in online ==> Handled(online, log, |old(log)|, warned, a, b)
      ensures forall pair :: pair in warned ==> Excused(c, faults, pair)
    {
      hide Handled, FreshSince, Excused, Built, Orderly, Online, DoneTo;
      ghost var base := log;
      NoneYet(c, faults, log);
      recalculated, warned := 0, {};
      var tick := 2;
      assert Going(c, read, tick);
      hide Going;
      for i := 0 to |online|
        invariant Going(c, read, tick)
        invariant DoneTo(c, faults, base, log, warned, i, 0) && recalculated == |log| - |base|
      {
        for j := 0 to |online|
          invariant Going(c, read, tick)
          invariant DoneTo(c, faults, base, log, warned, i, j) && recalculated == |log| - |base|
        {
          var stored;
          stored, warned := NextPair(g, read, online, c, faults, i, j, tick, base, warned);
          recalculated := if stored then recalculated + 1 else recalculated;
          tick := tick + 2;
        }
        TurnDone(c, faults, base, log, warned, i);
      }
      AllDone(c, faults, base, log, warned);
      GoingIsValid(c, read, tick);
    }

    lemma GoingIsValid(c: Course, read: Reading, tick: nat)
      requires Going(c, read, tick)
      ensures Valid()
    {
      hide Valid;
    }

    /** Stores a fresh route for every connected pair of a client and an exit node online at c(0), by the
        metrics at c(1), while the tables go on changing from pair to pair. Returns how many it stored, and
        the pairs whose route it could not store. */
    method RecalculateAllRoutes(c: Course, faults: Faults)
      returns (res: Result<nat, ServiceError>, warned: set<(string, string)>)
      requires Valid() && Orderly(c) && CanMeet(c(0))
      modifies this
      ensures Valid() && old(log) <= log
      ensures res.Err? <==> faults.online || faults.metrics
      ensures res.Err? ==> log == old(log)
      ensures res.Ok? ==> res.value == |log| - |old(log)| && FreshSince(c, log, |old(log)|)
      ensures res.Ok? ==> forall a, b :: a in Online(c(0).nodes) && b in Online(c(0).nodes) ==>
                Handled(Online(c(0).nodes), log, |old(log)|, warned, a, b)
      ensures forall pair :: pair in warned ==> Excused(c, faults, pair)
    {
      hide Valid, KeptIn, Reads, Possible, HasNode, Latest, CostsOf, Handled, FreshSince, Excused, Built, Extends;
      warned := {};
      Meanwhile(c(0));
      if faults.online {
        return Err(DatabaseError), warned;
      }
      var online := Online(nodes);
      HasNow();
      ghost var before, past0 := clock, past;
      Meanwhile(c(1));
      if faults.metrics {
        return Err(DatabaseError), warned;
      }
      HasNow();
      ghost var read, ns, ss := Reading(c(0).now, c(1).now), c(0).nodes, c(1).samples;
      ReadAll(past0, before, read, ns, ss);
      ReadIsSearchable(read, ns, ss);
      var graph := BuildGraph(online, Latest(samples, c(1).now), DEFAULT_WEIGHTS);
      hide Labelled, Orderly, Connected;
      var recalculated;
      recalculated, warned := RecalculatePairs(graph, read, online, c, faults);
      res := Ok(recalculated);
    }

    /** As long as the tables stay as they are now, a route whose tables were read since they last changed is
        the answer to its pair exactly until a node on its path has not reported for five minutes. */
    ghost predicate ExactUntilSilent(r: Route)
      reads this`nodes, this`samples, this`past, this`changed
    {
      forall read, now :: ReadAs(past, r, read) && changed < read.nodesAt && read.metricsAt <= now ==>
        (Answers(nodes, Latest(samples, now), r) <==> StopsReport(samples, r, read.metricsAt, now))
    }

    /** Likewise, it is direct only if its ends are linked. */
    ghost predicate DirectOnlyIfLinked(r: Route)
      reads this`nodes, this`past, this`changed
    {
      forall read :: ReadAs(past, r, read) && changed < read.nodesAt && r.connectionType.ConnectionDirect? ==>
        r.srcNodeId == r.dstNodeId || Adjacent(ById(Online(nodes)), r.srcNodeId, r.dstNodeId)
    }

    lemma KeptIsExact(r: Route)
      requires Valid() && Kept(r)
      ensures ExactUntilSilent(r) && DirectOnlyIfLinked(r)
    {
      hide ReadAs, AnsweredFrom;
      forall read | ReadAs(past, r, read) && changed < read.nodesAt
        ensures AnsweredFrom(nodes, samples, read.metricsAt, r)
      {
        ReadAsLast(past, r, read);
      }
      hide Valid, Kept;
      AnswerIsExact(r);
      AnswerIsLinked(r);
    }

    lemma AnswerIsExact(r: Route)
      requires forall read :: ReadAs(past, r, read) && changed < read.nodesAt ==>
                 AnsweredFrom(nodes, samples, read.metricsAt, r)
      ensures ExactUntilSilent(r)
    {
      hide ReadAs, Answers, StopsReport, Latest;
      forall read, now | ReadAs(past, r, read) && changed < read.nodesAt && read.metricsAt <= now
        ensures Answers(nodes, Latest(samples, now), r) <==> StopsReport(samples, r, read.metricsAt, now)
      {
        AnswersLastIff(nodes, samples, r, read.metricsAt, now);
      }
    }

    lemma AnswerIsLinked(r: Route)
      requires forall read :: ReadAs(past, r, read) && changed < read.nodesAt ==>
                 AnsweredFrom(nodes, samples, read.metricsAt, r)
      requires Labelled(r, r.srcNodeId, r.dstNodeId, r.createdAt)
      ensures DirectOnlyIfLinked(r)
    {
      hide ReadAs, Latest, CostsOf, Online, ById;
    }

    /** A route cached by c(k) if there is one, else one calculated from c(k + 1) on: always one made for this
        pair, from the tables of its time, and stamped less than a minute before c(k). */
    method GetOptimalRoute(src: string, dst: string, c: Course, k: nat, faults: Faults)
      returns (res: Result<Route, ServiceError>)
      requires Valid() && Orderly(c) && CanMeet(c(k))
      modifies this
      ensures Valid() && CanMeet(c(k + 4)) && old(log) <= log && |log| <= |old(log)| + 1
      ensures res.Ok? ==> Kept(res.value) && res.value.srcNodeId == src && res.value.dstNodeId == dst
      ensures res.Ok? ==> c(k).now - 60 < res.value.createdAt
      ensures res.Ok? ==> ExactUntilSilent(res.value) && DirectOnlyIfLinked(res.value)
      ensures !faults.cache ==>
                forall r :: r in old(routes) && Serves(r, src, dst, c(k).now)
                            && HasNode(c(k).nodes, src) && HasNode(c(k).nodes, dst) ==>
                  res.Ok? && res.value in old(routes) && res.value.cost <= r.cost
      ensures res == Err(NoRouteAvailable) ==> !HasRouteByRows(OnlineSet(c(k + 1).nodes), src, dst)
      ensures res.Err? && !faults.online && !faults.metrics ==> res.error == NoRouteAvailable
    {
      hide KeptIn, Answers, Routable, HasRouteByRows, OnlineSet, IsCalculated, AnsweredFrom, Possible, HasNode,
           UniqueNodes, Known, InOrder, PastKnown, ExactUntilSilent, DirectOnlyIfLinked, StoreWorks;
      Meanwhile(c(k));
      if !faults.cache {
        var cached := GetOptimal(src, dst, c(k).now);
        if cached.Some? {
          assert cached.value in log && Kept(cached.value);
          KeptIsExact(cached.value);
          StampOf(cached.value);
          return Ok(cached.value);
        }
      }
      hide Valid, Labelled;
      res := CalculateRoute(src, dst, c, k + 1, faults);
      if res.Ok? {
        CalculatedThen(res.value, src, dst, c, k + 1);
        KeptIsExact(res.value);
      }
    }

    lemma CalculatedThen(r: Route, src: string, dst: string, c: Course, k: nat)
      requires IsCalculated(r, src, dst, c, k)
      ensures r.createdAt == c(k + 2).now && r.srcNodeId == src && r.dstNodeId == dst
    {
    }

    lemma StampOf(r: Route)
      requires Kept(r)
      ensures r.expiresAt == r.createdAt + ROUTE_TTL
    {
    }

    /** The live relay with the most room. */
    method GetBestAvailable(now: int) returns (best: Option<RelayServer>)
      ensures best.Some? ==> best.value in relays && IsRoomiest(best.value, relays, now)
      ensures best.None? ==> forall s :: s in relays ==> s.lastSeen <= now - 300 || s.activeSessions >= s.capacity
    {
      best := None;
      for i := 0 to |relays|
        invariant best.Some? ==> best.value in relays && Usable(best.value, now)
        invariant best.Some? ==> forall s :: s in relays[..i] && Usable(s, now) ==> Room(s) <= Room(best.value)
        invariant best.None? ==> forall s :: s in relays[..i] ==> !Usable(s, now)
      {
        if Usable(relays[i], now) && (best.None? || Room(best.value) < Room(relays[i])) {
          best := Some(relays[i]);
        }
      }
      assert relays[..|relays|] == relays;
    }

    method GetById(id: string) returns (n: Option<Node>)
      ensures n.Some? ==> n.value in nodes && n.value.info.id == id
      ensures n.None? ==> forall k :: k in nodes ==> k.info.id != id
    {
      for i := 0 to |nodes|
        invariant forall k :: k in nodes[..i] ==> k.info.id != id
      {
        if nodes[i].info.id == id {
          return Some(nodes[i]);
        }
      }
      n := None;
    }

    /** The full answer a client gets: route, peer and, exactly on relay connections, a relay endpoint. The peer
        is looked up at c(0), the route from c(1) on, the relay at c(6), and the caller's key at c(7). */
    method GetOptimalRouteResponse(src: string, dst: string, c: Course, faults: Faults)
      returns (res: Result<RouteResponse, ServiceError>)
      requires Valid() && Orderly(c) && CanMeet(c(0))
      modifies this
      ensures Valid() && old(log) <= log && |log| <= |old(log)| + 1
      ensures res.Ok? ==> Coherent(res.value, src, dst, c) && Reported(res.value, src, dst, c)
      ensures res.Ok? && res.value.relay.Some? ==> IsCallerKey(res.value.relay.value.tokenFor, src, c(7).nodes, faults)
      ensures res.Ok? && ClientPair(kinds, src, dst) ==> res.value.connectionType.ConnectionRelay?
      ensures res.Ok? && res.value.connectionType.ConnectionDirect? ==>
                Kept(res.value.route) && DirectOnlyIfLinked(res.value.route)
                && c(1).now - 60 < res.value.route.createdAt
      ensures !faults.lookup && !faults.online && !faults.metrics && !faults.relay ==>
                (res.Ok? || (res.error == LookupFailed && !HasNode(c(0).nodes, dst))
                         || (res.error == NoRelay && forall s :: s in c(6).relays ==>
                                s.lastSeen <= c(6).now - 300 || s.activeSessions >= s.capacity))
    {
      hide Valid, KeptIn, HasRouteByRows, OnlineSet, Possible, HasNode, ExactUntilSilent, DirectOnlyIfLinked,
           Coherent, Reported, IsRoomiest;
      Meanwhile(c(0));
      if faults.lookup {
        return Err(LookupFailed);
      }
      var peer := GetById(dst);
      if peer.None? {
        NotThere(c(0).nodes, dst);
        return Err(LookupFailed);
      }
      var found := GetOptimalRoute(src, dst, c, 1, faults);
      var connType := ConnectionRelay;
      if found.Ok? {
        connType := found.value.connectionType;
      } else if found.error != NoRouteAvailable {
        return Err(found.error);
      }
      var n := peer.value;
      var route := if found.Ok? then found.value else StandIn(src, dst);
      var endpoint: Option<RelayEndpoint> := None;
      if connType.ConnectionRelay? {
        Meanwhile(c(6));
        if faults.relay {
          return Err(NoRelay);
        }
        var relay := GetBestAvailable(c(6).now);
        if relay.None? {
          return Err(NoRelay);
        }
        Meanwhile(c(7));
        var caller := PubkeyOfNode(src, faults);
        endpoint := Some(RelayEndpoint(relay.value.address, relay.value.vlessPort, caller));
        route := route.(relayNodeId := relay.value.id);
      }
      var dstPeer := PeerInfo(n.publicKey, n.info.endpoint, n.internalIp, n.info.nodeType);
      res := Ok(RouteResponse(route, connType, dstPeer, endpoint));
      assert endpoint.Some? ==> exists s :: s in c(6).relays && IsVia(res.value, s, c);
      hide IsVia;
      Assembled(res.value, found, src, dst, n, c);
    }

    lemma NotThere(ns: seq<Node>, id: string)
      requires forall n :: n in ns ==> n.info.id != id
      ensures !HasNode(ns, id)
    {
    }

    /** A kept route, or a stand-in for one, with the peer and a relay filled in is a coherent response. */
    lemma Assembled(resp: RouteResponse, found: Result<Route, ServiceError>, src: string, dst: string, n: Node,
                    c: Course)
      requires n in c(0).nodes && n.info.id == dst
      requires resp.dstPeer == PeerInfo(n.publicKey, n.info.endpoint, n.internalIp, n.info.nodeType)
      requires if found.Ok? then Kept(found.value) && found.value.srcNodeId == src && found.value.dstNodeId == dst
               else !HasRouteByRows(OnlineSet(c(2).nodes), src, dst)
      requires var base := if found.Ok? then found.value else StandIn(src, dst);
               resp.connectionType == base.connectionType && resp.route == base.(relayNodeId := resp.route.relayNodeId)
      requires resp.relay.Some? <==> resp.connectionType.ConnectionRelay?
      requires resp.relay.Some? ==> exists s :: s in c(6).relays && IsVia(resp, s, c)
      ensures Coherent(resp, src, dst, c) && Reported(resp, src, dst, c)
      ensures ClientPair(kinds, src, dst) ==> resp.connectionType.ConnectionRelay?
    {
      hide ReadAs, IsVia, HasRouteByRows, OnlineSet;
    }

    /** The caller's public key, or "" when it cannot be had. */
    method PubkeyOfNode(id: string, faults: Faults) returns (key: string)
      ensures IsCallerKey(key, id, nodes, faults)
    {
      if id == "" || faults.caller {
        return "";
      }
      var n := GetById(id);
      key := if n.Some? then n.value.publicKey else "";
    }

    /** The route shown is one fit to be stored, but for the relay filled in; or, when the ends could not be
        connected, a stand-in that goes through a relay. */
    ghost predicate Reported(resp: RouteResponse, src: string, dst: string, c: Course)
      reads this`kinds, this`clock, this`past
    {
      || (exists r :: Kept(r) && r.srcNodeId == src && r.dstNodeId == dst
            && resp.route == r.(relayNodeId := resp.route.relayNodeId))
      || (!HasRouteByRows(OnlineSet(c(2).nodes), src, dst) && resp.route.path == [src, dst] && resp.route.cost == 0.0
            && resp.connectionType.ConnectionRelay?)
    }
  }

  /** `key` is the public key of node `id`, or "" exactly when that cannot be had. */
  ghost predicate IsCallerKey(key: string, id: string, nodes: seq<Node>, faults: Faults) {
    if id == "" || faults.caller || forall n :: n in nodes ==> n.info.id != id then key == ""
    else exists n :: n in nodes && n.info.id == id && n.publicKey == key
  }

  /** How the parts of a response fit together. */
  ghost predicate Coherent(resp: RouteResponse, src: string, dst: string, c: Course) {
    && (resp.relay.Some? <==> resp.connectionType.ConnectionRelay?)
    && resp.connectionType in {ConnectionDirect, ConnectionRelay}
    && resp.route.connectionType == resp.connectionType
    && resp.route.srcNodeId == src && resp.route.dstNodeId == dst
    && 1 <= |resp.route.path| <= 3
    && resp.route.path[0] == src && resp.route.path[|resp.route.path| - 1] == dst
    && (exists n :: n in c(0).nodes && n.info.id == dst
          && resp.dstPeer == PeerInfo(n.publicKey, n.info.endpoint, n.internalIp, n.info.nodeType))
    && (resp.relay.Some? ==> exists s :: s in c(6).relays && IsVia(resp, s, c))
  }

  /** The response sends its client through relay `s`, the roomiest usable one at c(6). */
  ghost predicate IsVia(resp: RouteResponse, s: RelayServer, c: Course) {
    && IsRoomiest(s, c(6).relays, c(6).now)
    && resp.relay.Some? && resp.relay.value.address == s.address && resp.relay.value.vlessPort == s.vlessPort
    && resp.route.relayNodeId == s.id
  }

  /** Heard of in the last five minutes and with a session to spare, it has as many to spare as any such. */
  ghost predicate IsRoomiest(s: RelayServer, relays: seq<RelayServer>, now: int) {
    && s.lastSeen > now - 300 && s.activeSessions < s.capacity
    && forall t :: t in relays && t.lastSeen > now - 300 && t.activeSessions < t.capacity ==>
         t.capacity - t.activeSessions <= s.capacity - s.activeSessions
  }

  /** Heard of in the last five minutes, with a session to spare. */
  predicate Usable(s: RelayServer, now: int) {
    s.lastSeen > now - 300 && s.activeSessions < s.capacity
  }

  function Room(s: RelayServer): int {
    s.capacity - s.activeSessions
  }
}
