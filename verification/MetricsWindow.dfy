/** The metrics a route calculation sees: each node's latest report, unless it is five minutes old
    (control-plane/db/metrics_repo.go). So prices change with time alone. */
module MetricsWindow {
  import opened Common
  import opened HopCost
  import opened MeshGraph

  /** A row of the node_metrics table. */
  datatype Sample = Sample(nodeId: string, metrics: Metrics, at: int)

  /** Reports older than this are not looked at. */
  const WINDOW := 300

  /** The latest report of a node; of several at one instant, the one stored last. */
  function Newest(samples: seq<Sample>, id: string): Option<Sample> {
    if samples == [] then None
    else
      var before, last := Newest(samples[..|samples| - 1], id), samples[|samples| - 1];
      if last.nodeId == id && (before.None? || before.value.at <= last.at) then Some(last) else before
  }

  predicate Reports(samples: seq<Sample>, id: string, now: int) {
    Newest(samples, id).Some? && Newest(samples, id).value.at > now - WINDOW
  }

  function Reporters(samples: seq<Sample>): set<string> {
    set s | s in samples :: s.nodeId
  }

  function Latest(samples: seq<Sample>, now: int): map<string, Metrics> {
    map id | id in Reporters(samples) && Reports(samples, id, now) :: Newest(samples, id).value.metrics
  }

  ghost predicate IsLatestOf(samples: seq<Sample>, id: string, s: Sample) {
    s in samples && s.nodeId == id && forall t :: t in samples && t.nodeId == id ==> t.at <= s.at
  }

  lemma {:induction false} NewestIs(samples: seq<Sample>, id: string)
    ensures Newest(samples, id).Some? <==> exists s :: s in samples && s.nodeId == id
    ensures var n := Newest(samples, id);
            n.Some? ==> IsLatestOf(samples, id, n.value)
  {
    if samples != [] {
      var front, last := samples[..|samples| - 1], samples[|samples| - 1];
      NewestIs(front, id);
      assert forall s :: s in samples <==> s in front || s == last;
    }
  }

  /** A node has metrics exactly if one of its reports is in the window, and then those of a report that
      none of its others is later than. */
  lemma LatestIs(samples: seq<Sample>, now: int, id: string)
    ensures id in Latest(samples, now) <==> exists s :: s in samples && s.nodeId == id && s.at > now - 300
    ensures id in Latest(samples, now) ==>
              exists s :: IsLatestOf(samples, id, s) && Latest(samples, now)[id] == s.metrics
  {
    NewestIs(samples, id);
    hide Newest;
  }

  /** The node's latest report leaves the window between the two instants. */
  predicate Ages(samples: seq<Sample>, id: string, from: int, to: int) {
    Reports(samples, id, from) && !Reports(samples, id, to)
  }

  /** As time passes a node keeps its price or, once its latest report has left the window, rises from at
      most 1 to 999. */
  lemma PricesOnlyRise(samples: seq<Sample>, id: string, from: int, to: int)
    requires from <= to
    ensures var before, after := CostsOf(Latest(samples, from), DEFAULT_WEIGHTS)(id),
                                 CostsOf(Latest(samples, to), DEFAULT_WEIGHTS)(id);
            if Ages(samples, id, from, to) then 0.0 <= before <= 1.0 && after == UNMEASURED else after == before
  {
    NewestIs(samples, id);
    hide Newest;
    if id in Latest(samples, from) {
      DefaultCostRange(Latest(samples, from)[id]);
    }
    hide Cost;
  }
}
