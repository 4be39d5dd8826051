/** The sector layout `drawPieChart` paints in the plain chart and in the
    portfolio chart: each segment as a wedge from its start to its end
    angle at the outer radius, a tinted fill when selected, and a
    highlight arc outside the ring, centred on the wedge, when the segment
    is active or selected. Canvas calls become values. */
module Layout {
  import opened Wrappers
  import opened Geometry
  import opened Sectors

  /** Fill style of a wedge: the segment colour, or that colour with the
      `CC` (selected) or `EE` (active) alpha suffix. */
  datatype Fill = Plain | ActiveTint | SelectedTint

  /** The highlight arc stroked outside the ring. */
  datatype OuterArc = OuterArc(radius: real, from: real, to: real, lineWidth: real)

  /** One painted wedge. */
  datatype Wedge = Wedge(
    radius: real,
    start: real,
    end: real,
    mid: real,
    fill: Fill,
    arc: Option<OuterArc>)

  /** The highlight arc's angular extent: `segmentAngle * outerArcThickness`
      on either side of the wedge's mid-angle. */
  function ArcSpan(mid: real, segmentAngle: real, outerArcThickness: real): (r: (real, real))
    ensures (r.0 + r.1) / 2.0 == mid
    ensures r.1 - r.0 == 2.0 * segmentAngle * outerArcThickness
  {
    (mid - segmentAngle * outerArcThickness, mid + segmentAngle * outerArcThickness)
  }

  /** The wedge of segment `i`, starting at `start`, as the plain chart
      paints it. */
  function StaticWedge(d: Dimensions, percentage: real, i: nat, start: real,
                       active: Option<nat>, selected: Option<nat>,
                       outerArcThickness: real): Wedge
  {
    var segmentAngle := SegmentAngle(percentage);
    var mid := start + segmentAngle / 2.0;
    var span := ArcSpan(mid, segmentAngle, outerArcThickness);
    Wedge(
      d.radius,
      start,
      start + segmentAngle,
      mid,
      if selected == Some(i) then SelectedTint else Plain,
      if active == Some(i) || selected == Some(i)
      then Some(OuterArc(d.outerArcRadius, span.0, span.1, 12.0))
      else None)
  }

  /** The `forEach` of `drawPieChart` from segment `i` on, with `start` the
      running start angle. */
  function DrawFrom(d: Dimensions, ps: seq<real>, i: nat, start: real,
                    active: Option<nat>, selected: Option<nat>,
                    outerArcThickness: real): (ws: seq<Wedge>)
    requires i <= |ps| && start == StartAngle(ps, i)
    ensures |ws| == |ps| - i
    ensures forall k :: 0 <= k < |ws| ==>
              ws[k].start == StartAngle(ps, i + k) && ws[k].end == StartAngle(ps, i + k + 1)
    ensures forall k :: 0 <= k < |ws| ==>
              ws[k] == StaticWedge(d, ps[i + k], i + k, StartAngle(ps, i + k),
                                   active, selected, outerArcThickness)
    decreases |ps| - i
  {
    if i == |ps| then []
    else
      [StaticWedge(d, ps[i], i, start, active, selected, outerArcThickness)]
        + DrawFrom(d, ps, i + 1, start + SegmentAngle(ps[i]), active, selected, outerArcThickness)
  }

  /** Everything `drawPieChart` paints for the segments (the inner white
      disc is the same on every frame and is not modelled). */
  function DrawPieChart(d: Dimensions, ps: seq<real>, active: Option<nat>,
                        selected: Option<nat>, outerArcThickness: real): (ws: seq<Wedge>)
    ensures |ws| == |ps|
    // wedge i spans exactly the interval the hit test assigns to segment i
    ensures forall k :: 0 <= k < |ws| ==>
              ws[k].start == StartAngle(ps, k) && ws[k].end == StartAngle(ps, k + 1)
    ensures forall k :: 0 <= k < |ws| ==> ws[k].radius == d.radius
    // the highlight arc is drawn for the active and the selected segment only
    ensures forall k :: 0 <= k < |ws| ==>
              (ws[k].arc.Some? <==> active == Some(k) || selected == Some(k))
    ensures forall k :: 0 <= k < |ws| ==>
              (ws[k].fill == SelectedTint <==> selected == Some(k))
  {
    DrawFrom(d, ps, 0, 0.0, active, selected, outerArcThickness)
  }

  // ---------------------------------------------------------------------
  // Properties of the painted layout

  /** The wedges are contiguous from angle zero, and the last one ends at
      the percentage total taken as a fraction of 100 of a full turn. */
  lemma WedgesContiguous(d: Dimensions, ps: seq<real>, active: Option<nat>,
                         selected: Option<nat>, outerArcThickness: real)
    requires 0 < |ps|
    ensures var ws := DrawPieChart(d, ps, active, selected, outerArcThickness);
            && ws[0].start == 0.0
            && (forall k :: 0 <= k < |ws| - 1 ==> ws[k + 1].start == ws[k].end)
            && ws[|ws| - 1].end == SegmentAngle(Sum(ps))
  {
    TotalAngle(ps);
  }

  /** Painting and hit-testing agree: with non-negative percentages the hit
      test returns `k` exactly when the angle lies in the `[start, end)` of
      the `k`-th painted wedge. */
  lemma HitTestMatchesWedges(d: Dimensions, ps: seq<real>, active: Option<nat>,
                             selected: Option<nat>, outerArcThickness: real,
                             k: nat, angle: real)
    requires NonNegative(ps) && k < |ps|
    ensures var ws := DrawPieChart(d, ps, active, selected, outerArcThickness);
            FindSegment(ps, angle) == Some(k) <==> ws[k].start <= angle < ws[k].end
  {
    FindSegmentExact(ps, k, angle);
  }

  /** The highlight arc is centred on its wedge and spans
      `2 * segmentAngle * outerArcThickness`; with a thickness of at most
      one half (the default) it stays within the wedge, and above one half
      (the chart containers' highlight-thickness slider goes up to 0.9) the arc of a non-empty wedge
      reaches past both of its edges. */
  lemma WedgeArc(d: Dimensions, percentage: real, i: nat, start: real,
                 active: Option<nat>, selected: Option<nat>,
                 outerArcThickness: real)
    requires active == Some(i) || selected == Some(i)
    ensures var w := StaticWedge(d, percentage, i, start, active, selected, outerArcThickness);
            && w.arc.Some?
            && w.arc.value.radius == d.outerArcRadius
            && (w.arc.value.from + w.arc.value.to) / 2.0 == (w.start + w.end) / 2.0
            && w.arc.value.to - w.arc.value.from == 2.0 * (w.end - w.start) * outerArcThickness
            && (0.0 <= percentage && 0.0 <= outerArcThickness <= 0.5 ==>
                  w.start <= w.arc.value.from <= w.arc.value.to <= w.end)
            && (0.0 < percentage && 0.5 < outerArcThickness ==>
                  w.arc.value.from < w.start && w.end < w.arc.value.to)
  {
    var a := SegmentAngle(percentage);
    var w := StaticWedge(d, percentage, i, start, active, selected, outerArcThickness);
    var h := a * outerArcThickness;
    assert w.start == start && w.end == start + a;
    assert w.arc.value.from == start + a / 2.0 - h && w.arc.value.to == start + a / 2.0 + h;
    if 0.0 <= percentage && 0.0 <= outerArcThickness <= 0.5 {
      HalfAtMost(a, outerArcThickness);
    }
    if 0.0 < percentage && 0.5 < outerArcThickness {
      HalfExceeded(a, outerArcThickness);
    }
  }

  /** A non-negative `a` scaled by at most one half is at most `a / 2`. */
  lemma HalfAtMost(a: real, t: real)
    requires 0.0 <= a && 0.0 <= t <= 0.5
    ensures 0.0 <= a * t <= a / 2.0
  {
    ScaleWithin(a, t * 2.0);
    assert a * (t * 2.0) == 2.0 * (a * t);
  }

  /** A positive `a` scaled by more than one half exceeds `a / 2`. */
  lemma HalfExceeded(a: real, t: real)
    requires 0.0 < a && 0.5 < t
    ensures a / 2.0 < a * t
  {
    ProductSign(a, t - 0.5);
    assert a * t - a / 2.0 == a * (t - 0.5);
  }

  lemma ArcOfPaintedWedge(d: Dimensions, ps: seq<real>, active: Option<nat>,
                          selected: Option<nat>, outerArcThickness: real, k: nat)
    requires k < |ps| && (active == Some(k) || selected == Some(k))
    ensures var w := DrawPieChart(d, ps, active, selected, outerArcThickness)[k];
            && w.arc.Some?
            && (w.arc.value.from + w.arc.value.to) / 2.0 == (w.start + w.end) / 2.0
            && (0.0 <= ps[k] && 0.0 <= outerArcThickness <= 0.5 ==>
                  w.start <= w.arc.value.from <= w.arc.value.to <= w.end)
  {
    var w := DrawPieChart(d, ps, active, selected, outerArcThickness)[k];
    assert w == StaticWedge(d, ps[k], k, StartAngle(ps, k), active, selected, outerArcThickness);
    WedgeArc(d, ps[k], k, StartAngle(ps, k), active, selected, outerArcThickness);
  }
}
