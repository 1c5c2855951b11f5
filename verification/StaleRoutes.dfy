/** Two routes that the cache serves a minute after the tables last changed, and that are no answers any more
    (control-plane/service/route_service.go): one whose relay has fallen silent, one whose tables were read
    before the change and which was stamped after it. */
module StaleRoutes {
  import opened Common
  import opened HopCost
  import opened MeshGraph
  import opened MetricsWindow
  import opened Walks
  import opened ClosedForm
  import opened RouteHistory

  /** The route is served at `now`, when the tables have not changed for a minute, and is no answer. */
  ghost predicate ServedInError(past: seq<Snapshot>, r: Route, read: Reading, now: int) {
    && InOrder(past) && ReadAs(past, r, read) && Labelled(r, r.srcNodeId, r.dstNodeId, r.createdAt)
    && Serves(r, r.srcNodeId, r.dstNodeId, now) && now >= past[|past| - 1].since + ROUTE_TTL
    && !Answers(past[|past| - 1].nodes, Latest(past[|past| - 1].samples, now), r)
  }

  /** Though all of it was read since the tables last changed. */
  ghost predicate SilentRelay(past: seq<Snapshot>, r: Route, read: Reading, now: int) {
    ServedInError(past, r, read, now) && read.nodesAt > past[|past| - 1].since
  }

  /** Though it was stamped since the tables last changed, and all its stops report. */
  ghost predicate OldReading(past: seq<Snapshot>, r: Route, read: Reading, now: int) {
    && ServedInError(past, r, read, now) && r.createdAt > past[|past| - 1].since
    && StopsReport(past[|past| - 1].samples, r, read.metricsAt, now)
  }

  /** A client and an exit node that cannot dial each other, and a relay that both can. */
  function Trio(relayOnline: bool): seq<Node> {
    [Node(NodeInfo("a", Client, ""), "", "", true), Node(NodeInfo("b", Exit, ""), "", "", true),
     Node(NodeInfo("m", NodeType.Relay, "m:1"), "", "", relayOnline)]
  }

  /** The relay has reported once, at 0. */
  function OneReport(): seq<Sample> {
    [Sample("m", Metrics(0.0, 1000.0, 0, 0.0), 0)]
  }

  function ViaRelay(createdAt: int): Route {
    Route("a", "b", ["a", "m", "b"], 999.0, ConnectionRelay, "m", createdAt, createdAt + ROUTE_TTL)
  }

  lemma TrioOnline(relayOnline: bool)
    ensures ById(Online(Trio(relayOnline))).Keys == {"a", "b"} + if relayOnline then {"m"} else {}
    ensures forall k :: 0 <= k < 3 && (k < 2 || relayOnline) ==>
              ById(Online(Trio(relayOnline)))[Trio(relayOnline)[k].info.id] == Trio(relayOnline)[k].info
  {
    var t := Trio(relayOnline);
    assert t[..2] == [t[0], t[1]] && t[..2][..1] == [t[0]] && t[..1][..0] == [];
    assert Online(t[..2]) == [t[0].info, t[1].info] by {
      assert Online(t[..2][..1]) == [t[0].info];
    }
    assert Online(t) == [t[0].info, t[1].info] + if relayOnline then [t[2].info] else [];
    hide Online;
    TwoById(t[0].info, t[1].info);
    if relayOnline {
      ByIdAppend([t[0].info, t[1].info], t[2].info);
    }
  }

  lemma ByIdAppend(front: seq<NodeInfo>, last: NodeInfo)
    ensures ById(front + [last]) == ById(front)[last.id := last]
  {
    assert (front + [last])[..|front|] == front;
  }

  lemma TwoById(x: NodeInfo, y: NodeInfo)
    ensures ById([x, y]) == map[][x.id := x][y.id := y]
  {
    ByIdAppend([], x);
    ByIdAppend([x], y);
    assert [] + [x] == [x] && [x] + [y] == [x, y];
  }

  lemma OnlyRelayReports(at: int)
    requires 0 <= at < WINDOW
    ensures PricesAt(OneReport(), at)("a") == 999.0 && PricesAt(OneReport(), at)("b") == 999.0
    ensures PricesAt(OneReport(), at)("m") == 0.0
    ensures forall id, to :: to < WINDOW ==> !Ages(OneReport(), id, at, to)
    ensures Ages(OneReport(), "m", at, WINDOW)
  {
    var samples := OneReport();
    assert samples[..0] == [] && samples[0] in samples;
    assert Newest(samples, "m") == Some(samples[0]);
    forall id ensures Newest(samples, id).Some? ==> Newest(samples, id).value.at == 0 {
      NewestIs(samples, id);
    }
    DefaultCostRange(samples[0].metrics);
  }

  lemma RelayAnswers(at: int, createdAt: int)
    requires 0 <= at < WINDOW
    ensures AnsweredFrom(Trio(true), OneReport(), at, ViaRelay(createdAt))
  {
    TrioOnline(true);
    OnlyRelayReports(at);
    var ns, c := ById(Online(Trio(true))), PricesAt(OneReport(), at);
    hide CostsOf, Latest, Online, ById;
    assert Between(ns, "a", "m", "b");
    assert LeastCommon(ns, c, "a", "m", "b");
  }

  lemma ReadAtFirst(past: seq<Snapshot>, r: Route, read: Reading)
    requires past != [] && past[0].since <= read.nodesAt <= read.metricsAt <= r.createdAt
    requires 1 < |past| ==> read.metricsAt <= past[1].since
    requires AnsweredFrom(past[0].nodes, past[0].samples, read.metricsAt, r)
    ensures ReadAs(past, r, read)
  {
    hide AnsweredFrom;
    assert InForce(past, 0, read.nodesAt) && InForce(past, 0, read.metricsAt);
    assert Reads(past, read, past[0].nodes, past[0].samples);
  }

  /** Made at 299 from the tables as they are, the route is served at 301. Nothing in the tables has changed,
      but the relay last reported at 0, and one without news costs 999. */
  lemma CachedAnswerCanAge()
    ensures exists past, r, read :: SilentRelay(past, r, read, 301)
  {
    hide Trio, OneReport, Latest, Ages, AnsweredFrom, Answers, ReadAs;
    var past, r, read := [Snapshot(Trio(true), OneReport(), 0)], ViaRelay(299), Reading(299, 299);
    RelayAnswers(299, 299);
    ReadAtFirst(past, r, read);
    RelaySilent(r);
    assert SilentRelay(past, r, read, 301);
  }

  lemma RelaySilent(r: Route)
    requires r == ViaRelay(299)
    ensures !Answers(Trio(true), Latest(OneReport(), 301), r)
  {
    RelayAnswers(299, 299);
    OnlyRelayReports(299);
    hide Trio, OneReport, Latest, CostsOf, IsClosedForm;
    AnswersLastIff(Trio(true), OneReport(), r, 299, 301);
    assert Ages(OneReport(), "m", 299, 301);
    assert "m" in r.path;
  }

  /** The tables are read at 0, the relay goes offline at 1, and the route is stamped at 2 and served at 61.
      No stop has fallen silent since the reading. */
  lemma CachedReadingCanBeOld()
    ensures exists past, r, read :: OldReading(past, r, read, 61)
  {
    hide Trio, OneReport, Latest, Ages, AnsweredFrom, Answers, ReadAs, PricesAt;
    var past := [Snapshot(Trio(true), OneReport(), 0), Snapshot(Trio(false), OneReport(), 1)];
    var r, read := ViaRelay(2), Reading(0, 0);
    RelayAnswers(0, 2);
    ReadAtFirst(past, r, read);
    RelayOffline(r);
    OnlyRelayReports(0);
    assert StopsReport(OneReport(), r, 0, 61);
    hide StopsReport;
    assert OldReading(past, r, read, 61);
  }

  lemma RelayOffline(r: Route)
    requires r == ViaRelay(2)
    ensures !Answers(Trio(false), Latest(OneReport(), 61), r)
  {
    TrioOnline(false);
    hide Latest, CostsOf, Online, ById;
  }
}
