/** The investment portfolio page: five fixed investments drawn as a donut
    whose canvas handlers do their own hit testing, and a select-then-
    navigate policy shared by the chart and the legend. Navigation to an
    investment's page becomes an effect value. */
module Portfolio {
  import opened Wrappers
  import opened Geometry
  import opened Sectors
  import Layout

  /** The fields of an investment the chart and its handlers read. */
  datatype Investment = Investment(name: string, percentage: real, investment: real, path: string)

  const Investments: seq<Investment> := [
    Investment("Real Estate", 30.0, 135000.0, "/investments/real-estate"),
    Investment("PPF Bag Manufacturing", 20.0, 90000.0, "/investments/ppf-bag"),
    Investment("Daily Farm", 30.0, 135000.0, "/investments/daily-farm"),
    Investment("Founding For Antopolis", 10.0, 45000.0, "/investments/antopolis"),
    Investment("Live Stock Farming", 10.0, 45000.0, "/investments/livestock")
  ]

  /** The five percentages add up to a full circle. */
  lemma SumOfFive()
    ensures Sum([30.0, 20.0, 30.0, 10.0, 10.0]) == 100.0
  {
    assert [30.0, 20.0, 30.0, 10.0, 10.0][..4] == [30.0, 20.0, 30.0, 10.0];
    assert [30.0, 20.0, 30.0, 10.0][..3] == [30.0, 20.0, 30.0];
    assert [30.0, 20.0, 30.0][..2] == [30.0, 20.0];
    assert [30.0, 20.0][..1] == [30.0];
    assert [30.0][..0] == [];
  }

  /** The percentages, in legend and drawing order: one per investment,
      none negative, filling the whole circle. */
  function Percentages(): (ps: seq<real>)
    ensures |ps| == |Investments|
    ensures forall i :: 0 <= i < |ps| ==> ps[i] == Investments[i].percentage
    ensures Sum(ps) == 100.0 && NonNegative(ps)
  {
    var ps := seq(|Investments|, i requires 0 <= i < |Investments| => Investments[i].percentage);
    assert ps == [30.0, 20.0, 30.0, 10.0, 10.0];
    SumOfFive();
    ps
  }

  /** The `reduce` that sums the `investment` fields. */
  function TotalOf(invs: seq<Investment>): real {
    if |invs| == 0 then 0.0 else invs[0].investment + TotalOf(invs[1..])
  }

  const TotalInvestment: real := TotalOf(Investments)

  /** The static data is consistent: the total is 450000, and each
      investment's amount is its percentage of that total. */
  lemma DataConsistent()
    ensures TotalInvestment == 450000.0
    ensures forall i :: 0 <= i < |Investments| ==>
              Investments[i].investment == Investments[i].percentage / 100.0 * TotalInvestment
  {
  }

  /** The page's hovered and selected investments. */
  datatype State = State(active: Option<nat>, selected: Option<nat>)

  /** Cursor events on the canvas carry the cursor position and the raw
      `atan2` angle of it about the centre; legend events carry the
      investment's index. */
  datatype Event =
    | MouseMove(x: real, y: real, raw: real)
    | CanvasClick(x: real, y: real, raw: real)
    | MouseLeave
    | LegendEnter(index: nat)
    | LegendLeave
    | LegendClick(index: nat)
    | OutsideDown

  /** What a handler does beyond setting state: nothing, or
      `router.push(path)`. */
  datatype Effect = Stay | Navigate(path: string)

  /** The events the page can receive: angles in the range of `atan2`,
      legend indices of rendered legend rows. */
  predicate WellFormed(e: Event) {
    match e
    case MouseMove(_, _, raw) => -Pi <= raw <= Pi
    case CanvasClick(_, _, raw) => -Pi <= raw <= Pi
    case LegendEnter(i) => i < |Investments|
    case LegendClick(i) => i < |Investments|
    case _ => true
  }

  /** The investment under the cursor, by the handlers' inline loop. */
  function SectorAt(raw: real): (r: Option<nat>)
    requires -Pi <= raw <= Pi
    ensures r.Some? && r.value < |Investments| && InSector(Percentages(), r.value, NormalizeAngle(raw))
  {
    FullTurnCovered(Percentages(), NormalizeAngle(raw));
    FindSegment(Percentages(), NormalizeAngle(raw))
  }

  /** Selecting an investment a second time navigates to its page. */
  function Choose(s: State, i: nat): (r: (State, Effect))
    requires i < |Investments|
    ensures r.1.Navigate? <==> s.selected == Some(i)
    ensures r.1.Navigate? ==> r == (s, Navigate(Investments[i].path))
    ensures r.1 == Stay ==> r.0 == s.(selected := Some(i))
  {
    if s.selected == Some(i) then (s, Navigate(Investments[i].path))
    else (s.(selected := Some(i)), Stay)
  }

  /** One handler run on the latest committed state, with `d` the
      dimensions of the canvas. */
  function Step(d: Dimensions, s: State, e: Event): (r: (State, Effect))
    requires WellFormed(e)
    // only clicks navigate, and only to the selected investment's page,
    // leaving the state as it was
    ensures r.1.Navigate? ==>
              (e.CanvasClick? || e.LegendClick?) && s.selected.Some?
              && s.selected.value < |Investments|
              && r == (s, Navigate(Investments[s.selected.value].path))
    // leaving the canvas or a legend row clears only the hover
    ensures e == MouseLeave || e == LegendLeave ==> r == (s.(active := None), Stay)
    ensures e.LegendEnter? ==> r == (s.(active := Some(e.index)), Stay)
    ensures e == OutsideDown ==> r == (State(None, None), Stay)
  {
    match e
    case MouseMove(x, y, raw) =>
      if InRing(d, x, y) then
        match SectorAt(raw)
        case Some(i) => (s.(active := Some(i)), Stay)
        case None => (s, Stay)
      else (s.(active := None), Stay)
    case CanvasClick(x, y, raw) =>
      if InRing(d, x, y) then
        match SectorAt(raw)
        case Some(i) => Choose(s, i)
        case None => (s, Stay)
      else (s.(selected := None), Stay)
    case MouseLeave => (s.(active := None), Stay)
    case LegendEnter(i) => (s.(active := Some(i)), Stay)
    case LegendLeave => (s.(active := None), Stay)
    case LegendClick(i) => Choose(s, i)
    case OutsideDown => (State(None, None), Stay)
  }

  /** Moving the cursor inside the ring always highlights the investment
      whose sector holds the cursor's angle, and only that one; moving
      it outside clears the highlight. Selection is never touched. */
  lemma MouseMoveHighlights(d: Dimensions, s: State, x: real, y: real, raw: real)
    requires -Pi <= raw <= Pi
    ensures var r := Step(d, s, MouseMove(x, y, raw));
            && r.1 == Stay && r.0.selected == s.selected
            && (!InRing(d, x, y) ==> r.0.active == None)
            && (InRing(d, x, y) ==>
                  forall i :: 0 <= i < |Investments| ==>
                    (r.0.active == Some(i) <==> InSector(Percentages(), i, NormalizeAngle(raw))))
  {
    if InRing(d, x, y) {
      forall i | 0 <= i < |Investments|
        ensures SectorAt(raw) == Some(i) <==> InSector(Percentages(), i, NormalizeAngle(raw))
      {
        FindSegmentExact(Percentages(), i, NormalizeAngle(raw));
      }
    }
  }

  /** A click inside the ring acts on the investment under the cursor:
      navigating to its page when it is already selected, selecting it
      otherwise. A click outside the ring deselects. The hover is never
      touched. */
  lemma CanvasClickChooses(d: Dimensions, s: State, x: real, y: real, raw: real, i: nat)
    requires -Pi <= raw <= Pi && i < |Investments|
    ensures var r := Step(d, s, CanvasClick(x, y, raw));
            && r.0.active == s.active
            && (!InRing(d, x, y) ==> r == (s.(selected := None), Stay))
            && (InRing(d, x, y) && InSector(Percentages(), i, NormalizeAngle(raw)) ==>
                  r == if s.selected == Some(i) then (s, Navigate(Investments[i].path))
                       else (s.(selected := Some(i)), Stay))
  {
    if InRing(d, x, y) && InSector(Percentages(), i, NormalizeAngle(raw)) {
      FindSegmentExact(Percentages(), i, NormalizeAngle(raw));
    }
  }

  /** The legend follows the canvas: clicking a legend row does exactly
      what clicking inside that investment's sector of the ring does. */
  lemma LegendClickMatchesCanvas(d: Dimensions, s: State, x: real, y: real, raw: real, i: nat)
    requires -Pi <= raw <= Pi && i < |Investments|
    requires InRing(d, x, y) && InSector(Percentages(), i, NormalizeAngle(raw))
    ensures Step(d, s, LegendClick(i)) == Step(d, s, CanvasClick(x, y, raw))
  {
    CanvasClickChooses(d, s, x, y, raw, i);
  }

  /** Hover and selection only ever name investments that exist. */
  predicate Valid(s: State) {
    && (s.active.Some? ==> s.active.value < |Investments|)
    && (s.selected.Some? ==> s.selected.value < |Investments|)
  }

  lemma StepPreservesValid(d: Dimensions, s: State, e: Event)
    requires Valid(s) && WellFormed(e)
    ensures Valid(Step(d, s, e).0)
  {
  }

  /** The page draws with the plain chart's layout: five contiguous
      wedges that fill the whole circle, each exactly where the handlers
      look for it. */
  lemma WedgesFillCircle(d: Dimensions, active: Option<nat>, selected: Option<nat>,
                         outerArcThickness: real)
    ensures var ws := Layout.DrawPieChart(d, Percentages(), active, selected, outerArcThickness);
            && |ws| == |Investments|
            && ws[0].start == 0.0
            && (forall k :: 0 <= k < |ws| - 1 ==> ws[k + 1].start == ws[k].end)
            && ws[|ws| - 1].end == TwoPi
  {
    Layout.WedgesContiguous(d, Percentages(), active, selected, outerArcThickness);
  }
}
