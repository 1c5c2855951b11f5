/** Per-hop cost of a node, from its latest metrics (control-plane/routing/cost.go).
    Floating point is modelled by exact reals. */
module HopCost {
  import opened Common

  const MAX_ACCEPTABLE_RTT := 500.0
  const MAX_BANDWIDTH := 1000.0
  const MAX_CONNECTIONS := 10000.0

  /** Cost of a node that has reported no metrics. */
  const UNMEASURED := 999.0

  datatype Metrics = Metrics(rttMs: real, bandwidthMbps: real, activeConns: int, packetLoss: real)

  datatype Weights = Weights(rtt: real, bandwidth: real, load: real, reliability: real) {
    ghost predicate NonNegative() {
      rtt >= 0.0 && bandwidth >= 0.0 && load >= 0.0 && reliability >= 0.0
    }

    function Total(): real {
      rtt + bandwidth + load + reliability
    }
  }

  const DEFAULT_WEIGHTS := Weights(0.40, 0.25, 0.15, 0.20)

  function Clamp(v: real, min: real, max: real): real {
    if v < min then min else if v > max then max else v
  }

  /** The four metrics on a common scale, each in [0, 1] with 0 the best. */
  datatype Penalty = Penalty(rtt: real, bandwidth: real, load: real, loss: real) {
    ghost predicate NoWorse(other: Penalty) {
      && 0.0 <= rtt <= other.rtt <= 1.0
      && 0.0 <= bandwidth <= other.bandwidth <= 1.0
      && 0.0 <= load <= other.load <= 1.0
      && 0.0 <= loss <= other.loss <= 1.0
    }
  }

  const BEST := Penalty(0.0, 0.0, 0.0, 0.0)
  const WORST := Penalty(1.0, 1.0, 1.0, 1.0)

  function Normalise(m: Metrics): Penalty {
    Penalty(Clamp(m.rttMs / MAX_ACCEPTABLE_RTT, 0.0, 1.0),
            1.0 - Clamp(m.bandwidthMbps / MAX_BANDWIDTH, 0.0, 1.0),
            Clamp(m.activeConns as real / MAX_CONNECTIONS, 0.0, 1.0),
            Clamp(m.packetLoss, 0.0, 1.0))
  }

  function Blend(w: Weights, p: Penalty): real {
    w.rtt * p.rtt + w.bandwidth * p.bandwidth + w.load * p.load + w.reliability * p.loss
  }

  function Cost(m: Option<Metrics>, w: Weights): real {
    match m
    case None => UNMEASURED
    case Some(m) => Blend(w, Normalise(m))
  }

  /** Non-negative weights blend penalties monotonically into [0, total weight]. */
  lemma BlendMonotone(w: Weights, p: Penalty, q: Penalty)
    requires w.NonNegative() && p.NoWorse(q)
    ensures 0.0 <= Blend(w, p) <= Blend(w, q) <= w.Total()
  {
    var p1, q1 := ScaledPair(w.rtt, p.rtt, q.rtt);
    var p2, q2 := ScaledPair(w.bandwidth, p.bandwidth, q.bandwidth);
    var p3, q3 := ScaledPair(w.load, p.load, q.load);
    var p4, q4 := ScaledPair(w.reliability, p.loss, q.loss);
    assert 0.0 <= p1 + p2 + p3 + p4 <= q1 + q2 + q3 + q4 <= w.Total();
  }

  /** A non-negative weight scales a normalised term monotonically into [0, weight]. */
  lemma ScaledPair(w: real, x: real, y: real) returns (wx: real, wy: real)
    requires w >= 0.0 && 0.0 <= x <= y <= 1.0
    ensures wx == w * x && wy == w * y
    ensures 0.0 <= wx <= wy <= w
  {
    wx, wy := w * x, w * y;
    assert w * (y - x) >= 0.0;
    assert w * (1.0 - y) >= 0.0;
  }

  /** Costs are never negative, and a measured node costs at most the total weight. */
  lemma CostBounds(m: Option<Metrics>, w: Weights)
    requires w.NonNegative()
    ensures 0.0 <= Cost(m, w)
    ensures m.Some? ==> Cost(m, w) <= w.Total()
  {
    if m.Some? {
      BlendMonotone(w, Normalise(m.value), WORST);
    }
  }

  /** `worse` is at least as bad as `better` in every measured dimension. */
  ghost predicate NoBetter(worse: Metrics, better: Metrics) {
    && worse.rttMs >= better.rttMs
    && worse.bandwidthMbps <= better.bandwidthMbps
    && worse.activeConns >= better.activeConns
    && worse.packetLoss >= better.packetLoss
  }

  /** Lower cost means a better route: worsening any metric never lowers the cost, and a node
      that stops reporting never becomes cheaper than it was (weights totalling at most 999). */
  lemma CostIsMonotone(worse: Metrics, better: Metrics, w: Weights)
    requires w.NonNegative() && NoBetter(worse, better)
    ensures Cost(Some(better), w) <= Cost(Some(worse), w)
    ensures w.Total() <= UNMEASURED ==> Cost(Some(worse), w) <= Cost(None, w)
  {
    BlendMonotone(w, Normalise(better), Normalise(worse));
  }

  /** Each weight is what its own metric can add: the whole of it between the metric's best and worst
      value, whatever the other metrics are. */
  lemma WeightsAreShares(m: Metrics, w: Weights)
    ensures Cost(Some(m.(rttMs := MAX_ACCEPTABLE_RTT)), w) - Cost(Some(m.(rttMs := 0.0)), w) == w.rtt
    ensures Cost(Some(m.(bandwidthMbps := 0.0)), w) - Cost(Some(m.(bandwidthMbps := MAX_BANDWIDTH)), w) == w.bandwidth
    ensures Cost(Some(m.(activeConns := 10000)), w) - Cost(Some(m.(activeConns := 0)), w) == w.load
    ensures Cost(Some(m.(packetLoss := 1.0)), w) - Cost(Some(m.(packetLoss := 0.0)), w) == w.reliability
  {
    hide Blend;
    var p := Normalise(m);
    BlendShares(w, p);
    assert Normalise(m.(rttMs := MAX_ACCEPTABLE_RTT)) == p.(rtt := 1.0);
    assert Normalise(m.(rttMs := 0.0)) == p.(rtt := 0.0);
    assert Normalise(m.(bandwidthMbps := 0.0)) == p.(bandwidth := 1.0);
    assert Normalise(m.(bandwidthMbps := MAX_BANDWIDTH)) == p.(bandwidth := 0.0);
    assert Normalise(m.(activeConns := 10000)) == p.(load := 1.0) && Normalise(m.(activeConns := 0)) == p.(load := 0.0);
    assert Normalise(m.(packetLoss := 1.0)) == p.(loss := 1.0) && Normalise(m.(packetLoss := 0.0)) == p.(loss := 0.0);
  }

  /** Where `x` lies between 0 and `full`, as a fraction; 0 below and 1 above. */
  ghost function Fraction(x: real, full: real): real
    requires full > 0.0
  {
    if x <= 0.0 then 0.0 else if x >= full then 1.0 else x / full
  }

  /** The cost in so many words: rtt out of 500 ms, bandwidth short of 1000 Mbps, connections out of 10000
      and loss, weighted and added up. */
  lemma CostWrittenOut(m: Metrics, w: Weights)
    ensures Cost(Some(m), w) ==
            w.rtt * Fraction(m.rttMs, 500.0) + w.bandwidth * (1.0 - Fraction(m.bandwidthMbps, 1000.0))
            + w.load * Fraction(m.activeConns as real, 10000.0) + w.reliability * Fraction(m.packetLoss, 1.0)
    ensures Cost(None, w) == 999.0
  {
    hide Blend;
    ClampIsFraction(m.rttMs, 500.0);
    ClampIsFraction(m.bandwidthMbps, 1000.0);
    ClampIsFraction(m.activeConns as real, 10000.0);
    ClampIsFraction(m.packetLoss, 1.0);
    var p := Penalty(Fraction(m.rttMs, 500.0), 1.0 - Fraction(m.bandwidthMbps, 1000.0),
                     Fraction(m.activeConns as real, 10000.0), Fraction(m.packetLoss, 1.0));
    assert m.packetLoss / 1.0 == m.packetLoss;
    assert Normalise(m) == p;
    BlendIs(w, p);
  }

  lemma ClampIsFraction(x: real, full: real)
    requires full > 0.0
    ensures Clamp(x / full, 0.0, 1.0) == Fraction(x, full)
  {
    var q := x / full;
    assert x == q * full;
    if q < 0.0 {
      assert q * full < 0.0;
    } else if q > 1.0 {
      assert (q - 1.0) * full > 0.0;
    } else {
      assert q * full >= 0.0 && (1.0 - q) * full >= 0.0;
    }
  }

  lemma BlendIs(w: Weights, p: Penalty)
    ensures Blend(w, p) == w.rtt * p.rtt + w.bandwidth * p.bandwidth + w.load * p.load + w.reliability * p.loss
  {
  }

  /** A report's cost with the weights the route service uses: 0.40, 0.25, 0.15 and 0.20. */
  ghost function ReportCost(m: Metrics): real {
    0.40 * Fraction(m.rttMs, 500.0) + 0.25 * (1.0 - Fraction(m.bandwidthMbps, 1000.0))
    + 0.15 * Fraction(m.activeConns as real, 10000.0) + 0.20 * Fraction(m.packetLoss, 1.0)
  }

  lemma DefaultCostWrittenOut(m: Metrics)
    ensures Cost(Some(m), DEFAULT_WEIGHTS) == ReportCost(m) && Cost(None, DEFAULT_WEIGHTS) == 999.0
  {
    CostWrittenOut(m, DEFAULT_WEIGHTS);
    hide Cost, Fraction;
  }

  lemma BlendShares(w: Weights, p: Penalty)
    ensures Blend(w, p.(rtt := 1.0)) - Blend(w, p.(rtt := 0.0)) == w.rtt
    ensures Blend(w, p.(bandwidth := 1.0)) - Blend(w, p.(bandwidth := 0.0)) == w.bandwidth
    ensures Blend(w, p.(load := 1.0)) - Blend(w, p.(load := 0.0)) == w.load
    ensures Blend(w, p.(loss := 1.0)) - Blend(w, p.(loss := 0.0)) == w.reliability
  {
  }

  /** With the weights the route service uses, the cost of a measured node spans [0, 1]: it is 0
      exactly for a node that is ideal in every dimension and 1 exactly for one that saturates all. */
  lemma DefaultCostRange(m: Metrics)
    ensures DEFAULT_WEIGHTS.NonNegative() && DEFAULT_WEIGHTS.Total() == 1.0
    ensures 0.0 <= Cost(Some(m), DEFAULT_WEIGHTS) <= 1.0
    ensures Cost(Some(m), DEFAULT_WEIGHTS) == 0.0 <==>
            m.rttMs <= 0.0 && m.bandwidthMbps >= 1000.0 && m.activeConns <= 0 && m.packetLoss <= 0.0
    ensures Cost(Some(m), DEFAULT_WEIGHTS) == 1.0 <==>
            m.rttMs >= 500.0 && m.bandwidthMbps <= 0.0 && m.activeConns >= 10000 && m.packetLoss >= 1.0
  {
    hide Blend, Normalise;
    var p := Normalise(m);
    NormaliseExtremes(m);
    DefaultBlend(p);
    assert Cost(Some(m), DEFAULT_WEIGHTS) == Blend(DEFAULT_WEIGHTS, p);
  }

  lemma NormaliseExtremes(m: Metrics)
    ensures Normalise(m).NoWorse(WORST)
    ensures Normalise(m) == BEST <==>
            m.rttMs <= 0.0 && m.bandwidthMbps >= 1000.0 && m.activeConns <= 0 && m.packetLoss <= 0.0
    ensures Normalise(m) == WORST <==>
            m.rttMs >= 500.0 && m.bandwidthMbps <= 0.0 && m.activeConns >= 10000 && m.packetLoss >= 1.0
  {
  }

  lemma DefaultBlend(p: Penalty)
    requires p.NoWorse(WORST)
    ensures 0.0 <= Blend(DEFAULT_WEIGHTS, p) <= 1.0
    ensures Blend(DEFAULT_WEIGHTS, p) == 0.0 <==> p == BEST
    ensures Blend(DEFAULT_WEIGHTS, p) == 1.0 <==> p == WORST
  {
    var total := 0.40 * p.rtt + 0.25 * p.bandwidth + 0.15 * p.load + 0.20 * p.loss;
    assert Blend(DEFAULT_WEIGHTS, p) == total;
  }
}
