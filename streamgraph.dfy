/**
  The geometry of the "where did your electricity come from?" stacked graph: the live
  readings' per-source splits become twelve streams, each stream a band of polygon whose
  thickness at every reading is that source's share. Bands alternate above and below the
  zero line; the whole picture is then lifted by the deepest lower edge.
 */
module GenerationGraph {
  import opened Wrappers
  import opened Generation

  /** One band: its lower and its upper edge, one value per reading. */
  datatype Bound = Bound(lower: seq<real>, upper: seq<real>)

  /** One filled polygon: the source it shows and its y values along the mirrored time axis. */
  datatype Polygon = Polygon(source: Source, ys: seq<real>)

  /**
    Appends the time axis to itself in reverse (stacked_graph's first loop), so that a
    polygon can run left to right along its lower edge and back along its upper edge.
   */
  method MirrorTimes(timeset: seq<int>) returns (xs: seq<int>)
    ensures |xs| == 2 * |timeset|
    ensures xs[..|timeset|] == timeset
    ensures forall j :: |timeset| <= j < |xs| ==> xs[j] == timeset[2 * |timeset| - 1 - j]
  {
    var n := |timeset|;
    xs := timeset;
    var i := n - 1;
    while i >= 0
      invariant -1 <= i < n
      invariant |xs| == 2 * n - 1 - i
      invariant xs[..n] == timeset
      invariant forall j :: n <= j < |xs| ==> xs[j] == timeset[2 * n - 1 - j]
    {
      xs := xs + [xs[i]];
      i := i - 1;
    }
  }

  /** The readings' splits regrouped by source: stream k holds source Sources[k]'s share
      of each reading, in reading order. */
  method SplitIntoStreams(graphdata: seq<Mix>) returns (streams: seq<seq<real>>)
    requires forall i, s: Source :: 0 <= i < |graphdata| ==> s in graphdata[i]
    ensures |streams| == |Sources|
    ensures forall k :: 0 <= k < |streams| ==> |streams[k]| == |graphdata|
    ensures forall k, i :: 0 <= k < |streams| && 0 <= i < |graphdata| ==>
              streams[k][i] == graphdata[i][Sources[k]]
  {
    streams := seq(|Sources|, k => []);
    for i := 0 to |graphdata|
      invariant |streams| == |Sources|
      invariant forall k :: 0 <= k < |streams| ==> |streams[k]| == i
      invariant forall k, j :: 0 <= k < |streams| && 0 <= j < i ==>
                  streams[k][j] == graphdata[j][Sources[k]]
    {
      var reading := graphdata[i];
      var prev := streams;
      streams := seq(|Sources|, k requires 0 <= k < |Sources| => prev[k] + [reading[Sources[k]]]);
    }
  }

  /** Stream k's values at reading t added up over k, k-2, k-4, ... down to 0 or 1. */
  function ParitySum(streams: seq<seq<real>>, k: nat, t: nat): real
    requires k < |streams| && forall j :: 0 <= j < |streams| ==> t < |streams[j]|
  {
    streams[k][t] + (if k >= 2 then ParitySum(streams, k - 2, t) else 0.0)
  }

  /** What lies under stream k on its own side of the zero line. */
  function Beneath(streams: seq<seq<real>>, k: nat, t: nat): real
    requires k < |streams| && forall j :: 0 <= j < |streams| ==> t < |streams[j]|
  {
    if k >= 2 then ParitySum(streams, k - 2, t) else 0.0
  }

  /** The closed form of stream k's band: even streams stack upward from zero, odd
      streams stack downward from zero. */
  function LowerEdge(streams: seq<seq<real>>, k: nat, t: nat): real
    requires k < |streams| && forall j :: 0 <= j < |streams| ==> t < |streams[j]|
  {
    if k % 2 == 0 then Beneath(streams, k, t) else -ParitySum(streams, k, t)
  }

  function UpperEdge(streams: seq<seq<real>>, k: nat, t: nat): real
    requires k < |streams| && forall j :: 0 <= j < |streams| ==> t < |streams[j]|
  {
    if k % 2 == 0 then ParitySum(streams, k, t) else -Beneath(streams, k, t)
  }

  function Plus(a: seq<real>, b: seq<real>): (r: seq<real>)
    requires |a| == |b|
    ensures |r| == |a| && forall t :: 0 <= t < |r| ==> r[t] == a[t] + b[t]
  {
    seq(|a|, t requires 0 <= t < |a| => a[t] + b[t])
  }

  function Minus(a: seq<real>, b: seq<real>): (r: seq<real>)
    requires |a| == |b|
    ensures |r| == |a| && forall t :: 0 <= t < |r| ==> r[t] == a[t] - b[t]
  {
    seq(|a|, t requires 0 <= t < |a| => a[t] - b[t])
  }

  /** True when every stream has n values. */
  predicate Rectangular(streams: seq<seq<real>>, n: nat) {
    forall k :: 0 <= k < |streams| ==> |streams[k]| == n
  }

  /** True when bounds[k] is the closed-form band of stream k, for every k listed. */
  predicate BandsMatch(streams: seq<seq<real>>, n: nat, bounds: seq<Bound>)
    requires Rectangular(streams, n) && |bounds| <= |streams|
  {
    forall k :: 0 <= k < |bounds| ==>
      |bounds[k].lower| == n && |bounds[k].upper| == n &&
      forall t :: 0 <= t < n ==>
        bounds[k].lower[t] == LowerEdge(streams, k, t) && bounds[k].upper[t] == UpperEdge(streams, k, t)
  }

  /**
    stacked_graph's bound loop: stream 0 spans [0, s0], stream 1 spans [-s1, 0], and
    each later stream sits alternately on top of the upper edge, or under the lower edge,
    of the band two positions back.
   */
  method StackBounds(streams: seq<seq<real>>, n: nat) returns (bounds: seq<Bound>)
    requires |streams| >= 2 && Rectangular(streams, n)
    ensures |bounds| == |streams|
    ensures BandsMatch(streams, n, bounds)
  {
    var zeroline := seq(n, t => 0.0);
    bounds := [Bound(zeroline, streams[0]), Bound(Minus(zeroline, streams[1]), zeroline)];
    var side := -1;
    var k := 2;
    while k < |streams|
      invariant 2 <= k <= |streams| && |bounds| == k
      invariant side == if k % 2 == 0 then -1 else 1
      invariant BandsMatch(streams, n, bounds)
    {
      side := -side;
      var stream := streams[k];
      var next;
      if side == 1 {
        var prev := bounds[k - 2].upper;
        next := Bound(prev, Plus(prev, stream));
      } else {
        var prev := bounds[k - 2].lower;
        next := Bound(Minus(prev, stream), prev);
      }
      bounds := bounds + [next];
      k := k + 1;
    }
  }

  /** Each band is exactly as thick as its stream, and it touches the band two
      positions back: the bands of one side are stacked without gap or overlap. */
  lemma BandsStackWithoutGaps(streams: seq<seq<real>>, k: nat, t: nat)
    requires k < |streams| && forall j :: 0 <= j < |streams| ==> t < |streams[j]|
    ensures UpperEdge(streams, k, t) - LowerEdge(streams, k, t) == streams[k][t]
    ensures k >= 2 && k % 2 == 0 ==> LowerEdge(streams, k, t) == UpperEdge(streams, k - 2, t)
    ensures k >= 2 && k % 2 == 1 ==> UpperEdge(streams, k, t) == LowerEdge(streams, k - 2, t)
  {
  }

  /** The smallest lower edge over all bands at reading t (numpy's min over axis 0). */
  function ColumnMin(bounds: seq<Bound>, t: nat): (m: real)
    requires |bounds| > 0 && forall k :: 0 <= k < |bounds| ==> t < |bounds[k].lower|
    ensures forall k :: 0 <= k < |bounds| ==> m <= bounds[k].lower[t]
    ensures exists k :: 0 <= k < |bounds| && m == bounds[k].lower[t]
  {
    if |bounds| == 1 then bounds[0].lower[t]
    else
      var rest := ColumnMin(bounds[1..], t);
      if bounds[0].lower[t] <= rest then bounds[0].lower[t] else rest
  }

  /** The baseline the whole graph is lifted by. */
  function Baseline(bounds: seq<Bound>, n: nat): (b: seq<real>)
    requires |bounds| > 0 && forall k :: 0 <= k < |bounds| ==> n <= |bounds[k].lower|
    ensures |b| == n
  {
    seq(n, t requires 0 <= t < n => ColumnMin(bounds, t))
  }

  /** A band's polygon: its lower edge left to right, then its upper edge right to left,
      both lifted by the baseline. */
  function FillPolygon(bound: Bound, baseline: seq<real>): (ys: seq<real>)
    requires |bound.lower| == |baseline| && |bound.upper| == |baseline|
    ensures |ys| == 2 * |baseline|
    ensures forall t :: 0 <= t < |baseline| ==>
              ys[t] == bound.lower[t] - baseline[t] &&
              ys[2 * |baseline| - 1 - t] == bound.upper[t] - baseline[t]
  {
    var n := |baseline|;
    var up := Minus(bound.upper, baseline);
    Minus(bound.lower, baseline) + seq(n, i requires 0 <= i < n => up[n - 1 - i])
  }

  /** The polygon's vertex t, on its lower edge. */
  function LowerAt(p: Polygon, t: int): real
    requires 0 <= t < |p.ys|
  {
    p.ys[t]
  }

  /** The vertex of the polygon's upper edge drawn at the same time as vertex t. */
  function UpperAt(p: Polygon, t: int): real
    requires 0 <= t < |p.ys|
  {
    p.ys[|p.ys| - 1 - t]
  }

  /** Polygon k shares an edge with polygon k-2 at vertex t: an even band rests on the
      upper edge of the one before it, an odd band hangs from the lower edge. */
  predicate Touches(ps: seq<Polygon>, k: int, t: int)
    requires 2 <= k < |ps| && 0 <= t < |ps[k].ys| && t < |ps[k - 2].ys|
  {
    if k % 2 == 0 then LowerAt(ps[k], t) == UpperAt(ps[k - 2], t)
    else UpperAt(ps[k], t) == LowerAt(ps[k - 2], t)
  }

  /** What stacked_graph raises: a split without an entry for some source (KeyError), or
      a time axis and a list of splits of different lengths (ValueError, from np.vstack). */
  datatype GraphFault = KeyError | ValueError

  /** The mirrored time axis and one polygon per source. */
  datatype StackedBands = StackedBands(xs: seq<int>, polygons: seq<Polygon>)

  /**
    stacked_graph without the drawing. A split lacking a source raises KeyError while
    the streams are gathered; then a time axis whose length differs from the number of
    splits raises ValueError when the first band is stacked. Otherwise: the mirrored
    time axis, and one polygon per source. Paired with the mirrored times, vertex t of a
    polygon and its upper-edge partner lie at the same reading time; between them the
    band is as thick as that source's share of the reading; no polygon dips below zero;
    and every band touches the band two back.
   */
  method StackedGraph(timeset: seq<int>, graphdata: seq<Mix>) returns (r: Result<StackedBands, GraphFault>)
    ensures r == Err(KeyError) <==> exists i :: 0 <= i < |graphdata| && !Complete(graphdata[i])
    ensures r == Err(ValueError) <==>
              (forall i :: 0 <= i < |graphdata| ==> Complete(graphdata[i])) && |timeset| != |graphdata|
    ensures r.Ok? ==>
              var xs, polygons := r.value.xs, r.value.polygons;
              |timeset| == |graphdata| &&
              |xs| == 2 * |timeset| &&
              xs[..|timeset|] == timeset &&
              (forall j :: |timeset| <= j < |xs| ==> xs[j] == timeset[2 * |timeset| - 1 - j]) &&
              |polygons| == |Sources| &&
              (forall k :: 0 <= k < |polygons| ==>
                 polygons[k].source == Sources[k] && |polygons[k].ys| == 2 * |timeset|) &&
              (forall k, t :: 0 <= k < |polygons| && 0 <= t < |timeset| ==>
                 LowerAt(polygons[k], t) >= 0.0 &&
                 UpperAt(polygons[k], t) - LowerAt(polygons[k], t) == graphdata[t][Sources[k]]) &&
              (forall k, t :: 2 <= k < |polygons| && 0 <= t < |timeset| ==> Touches(polygons, k, t))
  {
    if exists i :: 0 <= i < |graphdata| && !Complete(graphdata[i]) {
      return Err(KeyError);
    }
    if |timeset| != |graphdata| {
      return Err(ValueError);
    }
    var n := |timeset|;
    var streams := SplitIntoStreams(graphdata);
    var xs := MirrorTimes(timeset);
    var bounds := StackBounds(streams, n);
    var baseline := Baseline(bounds, n);
    var polygons := [];
    for k := 0 to |bounds|
      invariant |polygons| == k
      invariant forall j :: 0 <= j < k ==>
                  polygons[j] == Polygon(Sources[j], FillPolygon(bounds[j], baseline))
    {
      polygons := polygons + [Polygon(Sources[k], FillPolygon(bounds[k], baseline))];
    }
    DrawnGraphFacts(graphdata, streams, n, bounds, polygons);
    return Ok(StackedBands(xs, polygons));
  }

  /** The precondition shared by the facts about the drawn bands: the streams regroup the
      splits by source, the bands are their closed form, and each polygon fills its band. */
  predicate Drawn(graphdata: seq<Mix>, streams: seq<seq<real>>, n: nat, bounds: seq<Bound>, ps: seq<Polygon>)
  {
    |graphdata| == n && (forall i, s: Source :: 0 <= i < n ==> s in graphdata[i]) &&
    |streams| == |Sources| && Rectangular(streams, n) &&
    (forall k, i :: 0 <= k < |streams| && 0 <= i < n ==> streams[k][i] == graphdata[i][Sources[k]]) &&
    |bounds| == |streams| && BandsMatch(streams, n, bounds) &&
    |ps| == |bounds| &&
    forall j :: 0 <= j < |ps| ==> ps[j].ys == FillPolygon(bounds[j], Baseline(bounds, n))
  }

  /** The facts about one vertex of one drawn band, from the closed form of the bands. */
  lemma DrawnBandFacts(graphdata: seq<Mix>, streams: seq<seq<real>>, n: nat, bounds: seq<Bound>, ps: seq<Polygon>, k: int, t: int)
    requires Drawn(graphdata, streams, n, bounds, ps)
    requires 0 <= k < |ps| && 0 <= t < n
    ensures |ps[k].ys| == 2 * n
    ensures LowerAt(ps[k], t) >= 0.0
    ensures UpperAt(ps[k], t) - LowerAt(ps[k], t) == graphdata[t][Sources[k]]
    ensures k >= 2 ==> |ps[k - 2].ys| == 2 * n && Touches(ps, k, t)
  {
    BandsStackWithoutGaps(streams, k, t);
    var baseline := Baseline(bounds, n);
    assert baseline[t] == ColumnMin(bounds, t);
    assert LowerAt(ps[k], t) == LowerEdge(streams, k, t) - baseline[t] by {
      assert ps[k].ys == FillPolygon(bounds[k], baseline);
    }
    assert UpperAt(ps[k], t) == UpperEdge(streams, k, t) - baseline[t] by {
      assert ps[k].ys == FillPolygon(bounds[k], baseline);
    }
    if k >= 2 {
      assert LowerAt(ps[k - 2], t) == LowerEdge(streams, k - 2, t) - baseline[t] by {
        assert ps[k - 2].ys == FillPolygon(bounds[k - 2], baseline);
      }
      assert UpperAt(ps[k - 2], t) == UpperEdge(streams, k - 2, t) - baseline[t] by {
        assert ps[k - 2].ys == FillPolygon(bounds[k - 2], baseline);
      }
    }
  }

  /** The facts StackedGraph promises, for every vertex of every drawn band. */
  lemma DrawnGraphFacts(graphdata: seq<Mix>, streams: seq<seq<real>>, n: nat, bounds: seq<Bound>, ps: seq<Polygon>)
    requires Drawn(graphdata, streams, n, bounds, ps)
    ensures forall k :: 0 <= k < |ps| ==> |ps[k].ys| == 2 * n
    ensures forall k, t :: 0 <= k < |ps| && 0 <= t < n ==> LowerAt(ps[k], t) >= 0.0
    ensures forall k, t :: 0 <= k < |ps| && 0 <= t < n ==>
              UpperAt(ps[k], t) - LowerAt(ps[k], t) == graphdata[t][Sources[k]]
    ensures forall k, t :: 2 <= k < |ps| && 0 <= t < n ==> Touches(ps, k, t)
  {
    forall k, t {:trigger LowerAt(ps[k], t)} | 0 <= k < |ps| && 0 <= t < n {
      DrawnBandFacts(graphdata, streams, n, bounds, ps, k, t);
    }
  }

  /** Sums of non-negative streams grow as more of the same side are added. */
  lemma {:induction false} ParitySumGrows(streams: seq<seq<real>>, j: nat, k: nat, t: nat)
    requires j <= k < |streams| && j % 2 == k % 2
    requires forall i :: 0 <= i < |streams| ==> t < |streams[i]| && streams[i][t] >= 0.0
    ensures 0.0 <= ParitySum(streams, j, t) <= ParitySum(streams, k, t)
  {
    if j < k {
      ParitySumGrows(streams, j, k - 2, t);
    } else if k >= 2 {
      ParitySumGrows(streams, k - 2, k - 2, t);
    }
  }

  /**
    With non-negative shares (readings are positive and percentages are not negative),
    the baseline is the lower edge of the last odd-numbered stream: minus the sum of all
    streams drawn below the zero line.
   */
  lemma BaselineIsDeepestLowerEdge(streams: seq<seq<real>>, n: nat, bounds: seq<Bound>, t: nat)
    requires |streams| >= 2 && Rectangular(streams, n) && t < n
    requires |bounds| == |streams| && BandsMatch(streams, n, bounds)
    requires forall k :: 0 <= k < |streams| ==> streams[k][t] >= 0.0
    ensures var last := if |streams| % 2 == 0 then |streams| - 1 else |streams| - 2;
            ColumnMin(bounds, t) == -ParitySum(streams, last, t)
  {
    var last := if |streams| % 2 == 0 then |streams| - 1 else |streams| - 2;
    forall k | 0 <= k < |streams|
      ensures -ParitySum(streams, last, t) <= bounds[k].lower[t]
    {
      ParitySumGrows(streams, 1, last, t);
      if k % 2 == 1 {
        ParitySumGrows(streams, k, last, t);
      } else if k >= 2 {
        ParitySumGrows(streams, k - 2, k - 2, t);
      }
    }
    assert bounds[last].lower[t] == -ParitySum(streams, last, t);
  }
}
