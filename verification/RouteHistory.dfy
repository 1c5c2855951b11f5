/** Routes as answers to a pair of nodes, and how they age (control-plane/service/route_service.go,
    control-plane/routing/optimizer.go). The node and metrics tables change all the time; a calculation
    reads the one, then the other, and stamps its route later still. */
module RouteHistory {
  import opened HopCost
  import opened MeshGraph
  import opened MetricsWindow
  import opened Walks
  import opened ClosedForm

  datatype Node = Node(info: NodeInfo, publicKey: string, internalIp: string, online: bool)

  function Online(nodes: seq<Node>): seq<NodeInfo> {
    if nodes == [] then []
    else Online(nodes[..|nodes| - 1]) + if nodes[|nodes| - 1].online then [nodes[|nodes| - 1].info] else []
  }

  ghost predicate UniqueNodes(nodes: seq<Node>) {
    forall i, j :: 0 <= i < j < |nodes| ==> nodes[i].info.id != nodes[j].info.id
  }

  ghost predicate IsOnline(nodes: seq<Node>, n: NodeInfo) {
    exists k :: 0 <= k < |nodes| && nodes[k].info == n && nodes[k].online
  }

  /** The nodes online are the rows marked so, each once. */
  lemma {:induction false} OnlineRows(nodes: seq<Node>)
    requires UniqueNodes(nodes)
    ensures UniqueIds(Online(nodes))
    ensures forall n :: n in Online(nodes) <==> IsOnline(nodes, n)
  {
    if nodes != [] {
      var front, last := nodes[..|nodes| - 1], nodes[|nodes| - 1];
      OnlineRows(front);
      forall n ensures IsOnline(nodes, n) <==> IsOnline(front, n) || (last.online && last.info == n) {
        if k :| 0 <= k < |front| && front[k].info == n && front[k].online {
          assert nodes[k].info == n && nodes[k].online;
        }
        if last.online && last.info == n {
          assert nodes[|nodes| - 1].info == n;
        }
        if k :| 0 <= k < |nodes| && nodes[k].info == n && nodes[k].online && k < |front| {
          assert front[k].info == n && front[k].online;
        }
      }
      forall i | 0 <= i < |Online(front)| ensures Online(front)[i].id != last.info.id {
        assert Online(front)[i] in Online(front);
        var k :| 0 <= k < |front| && front[k].info == Online(front)[i] && front[k].online;
        assert nodes[k].info.id != last.info.id;
      }
    }
  }

  /** The node types of all nodes there have ever been: IDs are never reused nor types changed. */
  type Kinds = map<string, NodeType>

  ghost predicate Known(kinds: Kinds, nodes: seq<Node>) {
    forall n :: n in nodes ==> n.info.id != "" && n.info.id in kinds && kinds[n.info.id] == n.info.nodeType
  }

  ghost predicate ClientPair(kinds: Kinds, a: string, b: string) {
    a != b && a in kinds && b in kinds && kinds[a].Client? && kinds[b].Client?
  }

  /** What holds of every route ever stored, however old. */
  ghost predicate Sound(kinds: Kinds, r: Route) {
    && r.srcNodeId in kinds && r.dstNodeId in kinds
    && 1 <= |r.path| <= 3 && r.path[0] == r.srcNodeId && r.path[|r.path| - 1] == r.dstNodeId
    && Labelled(r, r.srcNodeId, r.dstNodeId, r.createdAt)
    && (ClientPair(kinds, r.srcNodeId, r.dstNodeId) ==> r.connectionType.ConnectionRelay?)
  }

  /** The route answers the question for its pair in the given tables. */
  ghost predicate Answers(nodes: seq<Node>, metrics: map<string, Metrics>, r: Route) {
    IsClosedForm(ById(Online(nodes)), CostsOf(metrics, DEFAULT_WEIGHTS), r.srcNodeId, r.dstNodeId, r)
  }

  ghost predicate Routable(nodes: seq<Node>, src: string, dst: string) {
    src in ById(Online(nodes)) && dst in ById(Online(nodes)) && Connected(ById(Online(nodes)), src, dst)
  }

  lemma OnlineKinds(kinds: Kinds, nodes: seq<Node>)
    requires UniqueNodes(nodes) && Known(kinds, nodes)
    ensures UniqueIds(Online(nodes)) && forall n :: n in Online(nodes) ==> n.id != ""
    ensures forall id :: id in ById(Online(nodes)) ==> id in kinds && kinds[id] == ById(Online(nodes))[id].nodeType
  {
    OnlineRows(nodes);
    var online := Online(nodes);
    ByIdHolds(online);
    forall id | id in ById(online) ensures id in kinds && kinds[id] == ById(online)[id].nodeType {
      var p :| 0 <= p < |online| && online[p].id == id;
      assert online[p] in online && ById(online)[id] == online[p];
    }
  }

  lemma AnswersAreSound(kinds: Kinds, nodes: seq<Node>, metrics: map<string, Metrics>, r: Route)
    requires UniqueNodes(nodes) && Known(kinds, nodes) && Answers(nodes, metrics, r)
    requires Routable(nodes, r.srcNodeId, r.dstNodeId) && Labelled(r, r.srcNodeId, r.dstNodeId, r.createdAt)
    ensures Sound(kinds, r)
  {
    hide CostsOf;
    OnlineKinds(kinds, nodes);
    var ns := ById(Online(nodes));
    if ClientPair(kinds, r.srcNodeId, r.dstNodeId) {
      assert !Linkable(ns[r.srcNodeId], ns[r.dstNodeId]);
      assert |r.path| == 3;
    }
    assert 1 <= |r.path| <= 3;
    assert r.path[0] == r.srcNodeId && r.path[|r.path| - 1] == r.dstNodeId;
    assert r.srcNodeId in kinds && r.dstNodeId in kinds;
  }

  predicate HasNode(nodes: seq<Node>, id: string) {
    exists n :: n in nodes && n.info.id == id
  }

  ghost predicate Serves(r: Route, src: string, dst: string, now: int) {
    r.srcNodeId == src && r.dstNodeId == dst && r.expiresAt > now
  }

  // ---- What a calculation read ----

  /** The node and metrics tables as they stood from `since` on. */
  datatype Snapshot = Snapshot(nodes: seq<Node>, samples: seq<Sample>, since: int)

  /** When a calculation read the nodes, and when the metrics. */
  datatype Reading = Reading(nodesAt: int, metricsAt: int)

  /** `past[k]` is what a query at the instant `at` reads; at the instant of a change, either side may be. */
  ghost predicate InForce(past: seq<Snapshot>, k: nat, at: int) {
    k < |past| && past[k].since <= at && (k + 1 < |past| ==> at <= past[k + 1].since)
  }

  ghost predicate InOrder(past: seq<Snapshot>) {
    past != [] && forall j, k :: 0 <= j < k < |past| ==> past[j].since <= past[k].since
  }

  ghost predicate HadNodes(past: seq<Snapshot>, at: int, nodes: seq<Node>) {
    exists j: nat :: InForce(past, j, at) && past[j].nodes == nodes
  }

  ghost predicate HadSamples(past: seq<Snapshot>, at: int, samples: seq<Sample>) {
    exists k: nat :: InForce(past, k, at) && past[k].samples == samples
  }

  /** At the instants of `read` the tables held these nodes and these metrics. */
  ghost predicate Reads(past: seq<Snapshot>, read: Reading, nodes: seq<Node>, samples: seq<Sample>) {
    && read.nodesAt <= read.metricsAt
    && HadNodes(past, read.nodesAt, nodes) && HadSamples(past, read.metricsAt, samples)
  }

  /** The route answers its pair by these nodes and the metrics seen at `at`. */
  ghost predicate AnsweredFrom(nodes: seq<Node>, samples: seq<Sample>, at: int, r: Route) {
    Routable(nodes, r.srcNodeId, r.dstNodeId) && Answers(nodes, Latest(samples, at), r)
  }

  /** The route was the answer in the tables as read, and was stamped no earlier. */
  ghost predicate ReadAs(past: seq<Snapshot>, r: Route, read: Reading) {
    && read.metricsAt <= r.createdAt
    && exists nodes, samples :: Reads(past, read, nodes, samples) && AnsweredFrom(nodes, samples, read.metricsAt, r)
  }

  lemma InForceStays(past: seq<Snapshot>, s: Snapshot, k: nat, at: int)
    requires InForce(past, k, at) && at <= s.since
    ensures InForce(past + [s], k, at) && (past + [s])[k] == past[k]
  {
  }

  /** The history has gone on since `clock`, by one change of the tables or none. */
  ghost predicate Continues(past: seq<Snapshot>, past': seq<Snapshot>, clock: int) {
    past' == past || exists s: Snapshot :: s.since >= clock && past' == past + [s]
  }

  lemma HadNodesStays(past: seq<Snapshot>, past': seq<Snapshot>, clock: int, at: int, nodes: seq<Node>)
    requires HadNodes(past, at, nodes) && Continues(past, past', clock) && at <= clock
    ensures HadNodes(past', at, nodes)
  {
    if past' != past {
      var j: nat :| InForce(past, j, at) && past[j].nodes == nodes;
      InForceStays(past, past'[|past|], j, at);
    }
  }

  lemma HadSamplesStays(past: seq<Snapshot>, past': seq<Snapshot>, clock: int, at: int, samples: seq<Sample>)
    requires HadSamples(past, at, samples) && Continues(past, past', clock) && at <= clock
    ensures HadSamples(past', at, samples)
  {
    if past' != past {
      var j: nat :| InForce(past, j, at) && past[j].samples == samples;
      InForceStays(past, past'[|past|], j, at);
    }
  }

  lemma ReadsStay(past: seq<Snapshot>, past': seq<Snapshot>, clock: int, read: Reading, nodes: seq<Node>,
                  samples: seq<Sample>)
    requires Reads(past, read, nodes, samples) && Continues(past, past', clock) && read.metricsAt <= clock
    ensures Reads(past', read, nodes, samples)
  {
    HadNodesStays(past, past', clock, read.nodesAt, nodes);
    HadSamplesStays(past, past', clock, read.metricsAt, samples);
  }

  lemma ReadAsStays(past: seq<Snapshot>, past': seq<Snapshot>, clock: int, r: Route, read: Reading)
    requires ReadAs(past, r, read) && Continues(past, past', clock) && r.createdAt <= clock
    ensures ReadAs(past', r, read)
  {
    hide Reads, AnsweredFrom, Continues;
    var nodes, samples :| Reads(past, read, nodes, samples) && AnsweredFrom(nodes, samples, read.metricsAt, r);
    ReadsStay(past, past', clock, read, nodes, samples);
  }

  /** What was read after the last change is in the tables still. */
  lemma ReadsLast(past: seq<Snapshot>, read: Reading, nodes: seq<Node>, samples: seq<Sample>)
    requires InOrder(past) && Reads(past, read, nodes, samples) && read.nodesAt > past[|past| - 1].since
    ensures nodes == past[|past| - 1].nodes && samples == past[|past| - 1].samples
  {
    var j: nat :| InForce(past, j, read.nodesAt) && past[j].nodes == nodes;
    var k: nat :| InForce(past, k, read.metricsAt) && past[k].samples == samples;
    assert j == |past| - 1 && k == |past| - 1;
  }

  /** A route whose tables were read after the last change answers in the tables as they are. */
  lemma ReadAsLast(past: seq<Snapshot>, r: Route, read: Reading)
    requires InOrder(past) && ReadAs(past, r, read) && read.nodesAt > past[|past| - 1].since
    ensures AnsweredFrom(past[|past| - 1].nodes, past[|past| - 1].samples, read.metricsAt, r)
  {
    hide Reads, AnsweredFrom;
    var nodes, samples :| Reads(past, read, nodes, samples) && AnsweredFrom(nodes, samples, read.metricsAt, r);
    ReadsLast(past, read, nodes, samples);
  }

  ghost predicate Extends(kinds: Kinds, kinds': Kinds) {
    forall id :: id in kinds ==> id in kinds' && kinds'[id] == kinds[id]
  }

  lemma SoundStays(kinds: Kinds, kinds': Kinds, r: Route)
    requires Sound(kinds, r) && Extends(kinds, kinds')
    ensures Sound(kinds', r)
  {
  }

  ghost predicate PastKnown(kinds: Kinds, past: seq<Snapshot>) {
    forall k :: 0 <= k < |past| ==> UniqueNodes(past[k].nodes) && Known(kinds, past[k].nodes)
  }

  /** A route fit to be stored: sound, and the answer in tables read before it was stamped. */
  ghost predicate KeptIn(kinds: Kinds, clock: int, past: seq<Snapshot>, r: Route) {
    Sound(kinds, r) && r.createdAt <= clock && exists read :: ReadAs(past, r, read)
  }

  lemma KeptStays(kinds: Kinds, clock: int, past: seq<Snapshot>, kinds': Kinds, clock': int, past': seq<Snapshot>,
                  r: Route)
    requires KeptIn(kinds, clock, past, r)
    requires Extends(kinds, kinds') && clock <= clock' && Continues(past, past', clock)
    ensures KeptIn(kinds', clock', past', r)
  {
    SoundStays(kinds, kinds', r);
    hide Sound, ReadAs, Continues;
    var read :| ReadAs(past, r, read);
    ReadAsStays(past, past', clock, r, read);
  }

  /** An answer by tables once read, stamped later, is fit to be stored. */
  lemma AnswerIsKept(kinds: Kinds, clock: int, past: seq<Snapshot>, nodes: seq<Node>, samples: seq<Sample>,
                     read: Reading, r: Route)
    requires PastKnown(kinds, past) && Reads(past, read, nodes, samples) && read.metricsAt <= r.createdAt <= clock
    requires AnsweredFrom(nodes, samples, read.metricsAt, r) && Labelled(r, r.srcNodeId, r.dstNodeId, r.createdAt)
    ensures ReadAs(past, r, read) && KeptIn(kinds, clock, past, r)
  {
    ReadIsKnown(kinds, past, read, nodes, samples);
    AnswersAreSound(kinds, nodes, Latest(samples, read.metricsAt), r);
    hide Sound, Reads, AnsweredFrom;
  }

  lemma ReadIsKnown(kinds: Kinds, past: seq<Snapshot>, read: Reading, nodes: seq<Node>, samples: seq<Sample>)
    requires PastKnown(kinds, past) && Reads(past, read, nodes, samples)
    ensures UniqueNodes(nodes) && Known(kinds, nodes)
  {
  }

  /** The stops of an answer are nodes that were online when it was worked out. */
  lemma StopsWereOnline(nodes: seq<Node>, samples: seq<Sample>, at: int, r: Route)
    requires AnsweredFrom(nodes, samples, at, r) && UniqueNodes(nodes)
    ensures forall id :: id in r.path ==> exists n :: n in Online(nodes) && n.id == id
  {
    OnlineRows(nodes);
    ByIdHolds(Online(nodes));
    forall id | id in r.path ensures id in ById(Online(nodes)) {
      hide ById, Online, CostsOf, Latest;
      if |r.path| == 3 {
        assert r.path == [r.path[0], r.path[1], r.path[2]];
      }
    }
    forall id | id in ById(Online(nodes)) ensures exists n :: n in Online(nodes) && n.id == id {
      var p :| 0 <= p < |Online(nodes)| && Online(nodes)[p].id == id;
      assert Online(nodes)[p] in Online(nodes);
    }
  }

  // ---- An answer in terms of the rows read ----

  /** The nodes marked online. */
  ghost function OnlineSet(nodes: seq<Node>): set<NodeInfo> {
    set n | n in nodes && n.online :: n.info
  }

  /** A report of the node in the five minutes before `at`, and none of its reports is later. */
  ghost predicate IsLastReport(samples: seq<Sample>, id: string, at: int, s: Sample) {
    && s in samples && s.nodeId == id && s.at > at - 300
    && forall t :: t in samples && t.nodeId == id ==> t.at <= s.at
  }

  /** A node costs what its last report says, or 999 if it has not reported for five minutes. */
  ghost predicate IsPrice(samples: seq<Sample>, at: int, id: string, price: real) {
    || (exists s :: IsLastReport(samples, id, at, s) && price == ReportCost(s.metrics))
    || (price == 999.0 && forall s :: s in samples && s.nodeId == id ==> s.at <= at - 300)
  }

  ghost predicate IsPriceList(samples: seq<Sample>, at: int, price: NodeCosts) {
    forall id :: IsPrice(samples, at, id, price(id))
  }

  /** The route answers its pair by the rows read: nodes online, and the reports of the five minutes before. */
  ghost predicate AnsweredByRows(nodes: seq<Node>, samples: seq<Sample>, at: int, r: Route) {
    exists price :: IsPriceList(samples, at, price)
      && IsRouteByRows(OnlineSet(nodes), price, r.srcNodeId, r.dstNodeId, r)
  }

  lemma PricesAreList(samples: seq<Sample>, at: int)
    ensures IsPriceList(samples, at, PricesAt(samples, at))
  {
    forall id ensures IsPrice(samples, at, id, PricesAt(samples, at)(id)) {
      LatestIs(samples, at, id);
      if id in Latest(samples, at) {
        var s :| IsLatestOf(samples, id, s) && Latest(samples, at)[id] == s.metrics;
        assert IsLastReport(samples, id, at, s);
        DefaultCostWrittenOut(s.metrics);
      }
      hide Cost, ReportCost, Latest;
    }
  }

  lemma OnlineFiles(nodes: seq<Node>)
    requires UniqueNodes(nodes)
    ensures Files(ById(Online(nodes)), OnlineSet(nodes))
  {
    OnlineRows(nodes);
    ByIdFiles(Online(nodes));
    forall n ensures n in OnlineSet(nodes) <==> n in Online(nodes) {
      if k :| 0 <= k < |nodes| && nodes[k].info == n && nodes[k].online {
        assert nodes[k] in nodes;
      }
      if n in OnlineSet(nodes) {
        var m :| m in nodes && m.online && m.info == n;
        var k :| 0 <= k < |nodes| && nodes[k] == m;
        assert IsOnline(nodes, n);
      }
    }
    assert OnlineSet(nodes) == set n | n in Online(nodes);
  }

  /** Being connected, and being the answer, said of the rows' own fields. */
  lemma AnswerByRows(nodes: seq<Node>, samples: seq<Sample>, at: int, src: string, dst: string, r: Route)
    requires UniqueNodes(nodes)
    ensures Routable(nodes, src, dst) <==> HasRouteByRows(OnlineSet(nodes), src, dst)
    ensures AnsweredFrom(nodes, samples, at, r) ==> AnsweredByRows(nodes, samples, at, r)
  {
    OnlineFiles(nodes);
    PricesAreList(samples, at);
    hide Files, IsRouteByRows, HasRouteByRows, IsPriceList, CostsOf, Latest, OnlineSet, ById, Online, IsClosedForm;
    ClosedFormByRows(ById(Online(nodes)), OnlineSet(nodes), PricesAt(samples, at), src, dst, r);
    ClosedFormByRows(ById(Online(nodes)), OnlineSet(nodes), PricesAt(samples, at), r.srcNodeId, r.dstNodeId, r);
  }

  // ---- How a stored route goes out of date ----

  /** No stop of the route, unless it is the only one, has left the metrics window since `from`. */
  ghost predicate StopsReport(samples: seq<Sample>, r: Route, from: int, now: int) {
    |r.path| > 1 ==> forall id :: id in r.path ==> !Ages(samples, id, from, now)
  }

  ghost function PricesAt(samples: seq<Sample>, at: int): NodeCosts {
    CostsOf(Latest(samples, at), DEFAULT_WEIGHTS)
  }

  /** While the tables stay as they are, an answer stays one exactly until a node on its path falls silent:
      other nodes falling silent only makes its rivals dearer. */
  lemma AnswersLastIff(nodes: seq<Node>, samples: seq<Sample>, r: Route, from: int, now: int)
    requires Answers(nodes, Latest(samples, from), r) && from <= now
    ensures Answers(nodes, Latest(samples, now), r) <==> StopsReport(samples, r, from, now)
  {
    var before, after := PricesAt(samples, from), PricesAt(samples, now);
    forall id
      ensures if Ages(samples, id, from, now) then before(id) + 998.0 <= after(id) else after(id) == before(id)
    {
      PricesOnlyRise(samples, id, from, now);
    }
    hide Ages, Latest, CostsOf;
    ClosedFormLasts(ById(Online(nodes)), before, after, r);
  }

  /** Between two answers to one pair, of the same cost: the ends are one node, or both keep their price,
      and are linked or have a common neighbour that now costs what the earlier relay did. */
  ghost predicate PriceHolds(ns: NodeTable, before: NodeCosts, after: NodeCosts, r: Route) {
    var src, dst := r.srcNodeId, r.dstNodeId;
    || src == dst
    || (after(src) == before(src) && after(dst) == before(dst)
        && (Adjacent(ns, src, dst)
            || (|r.path| > 1 && exists k :: Between(ns, src, k, dst) && after(k) == before(r.path[1]))))
  }

  /** While the tables stay as they are, a later answer to a pair is as long as an earlier one and no
      cheaper, and costs the same exactly if the prices that make up its cost can still be had. */
  lemma AnswersAgree(nodes: seq<Node>, samples: seq<Sample>, r: Route, from: int, t: Route, to: int)
    requires Answers(nodes, Latest(samples, from), r) && Answers(nodes, Latest(samples, to), t) && from <= to
    requires r.srcNodeId == t.srcNodeId && r.dstNodeId == t.dstNodeId
    ensures |r.path| == |t.path| && r.cost <= t.cost
    ensures r.cost == t.cost <==>
              PriceHolds(ById(Online(nodes)), PricesAt(samples, from), PricesAt(samples, to), r)
  {
    var before, after := PricesAt(samples, from), PricesAt(samples, to);
    forall id ensures before(id) <= after(id) {
      PricesOnlyRise(samples, id, from, to);
    }
    hide CostsOf, Latest;
    ClosedFormsCompare(ById(Online(nodes)), before, after, r, t);
  }

  lemma ClosedFormsCompare(ns: NodeTable, before: NodeCosts, after: NodeCosts, r: Route, t: Route)
    requires IsClosedForm(ns, before, r.srcNodeId, r.dstNodeId, r)
    requires IsClosedForm(ns, after, r.srcNodeId, r.dstNodeId, t) && forall id :: before(id) <= after(id)
    ensures |r.path| == |t.path| && r.cost <= t.cost
    ensures r.cost == t.cost <==> PriceHolds(ns, before, after, r)
  {
  }

  /** When prices only rise, a closed form stays one exactly if the prices of its own stops stay. */
  lemma ClosedFormLasts(ns: NodeTable, before: NodeCosts, after: NodeCosts, r: Route)
    requires IsClosedForm(ns, before, r.srcNodeId, r.dstNodeId, r) && forall id :: before(id) <= after(id)
    ensures IsClosedForm(ns, after, r.srcNodeId, r.dstNodeId, r) <==>
              |r.path| > 1 ==> forall id :: id in r.path ==> after(id) == before(id)
  {
    if |r.path| == 3 {
      assert r.path == [r.srcNodeId, r.path[1], r.dstNodeId];
    }
  }
}
