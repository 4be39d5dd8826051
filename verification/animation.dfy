/** Animation progress and the per-segment offsets of the animated chart
    (`getAnimationProgress`, `getSegmentAnimationTransform` and the
    animated `drawPieChart`). The wall clock is a parameter: `now` is the
    value of `Date.now()` in milliseconds. `Math.sin` is the parameter
    `sine`, about which nothing is assumed unless a lemma says so. */
module Animation {
  import opened Wrappers
  import opened Geometry
  import opened Easing
  import opened Sectors
  import Layout

  /** The animation types; `NoAnimation` is `'none'` and `BounceKind`
      is `'bounce'`. */
  datatype Kind = NoAnimation | Fade | Scale | Rotate | Spin | BounceKind | Pulse

  /** An animation specification: type, duration and optional delay and
      easing name, all times in milliseconds. */
  datatype Options = Options(kind: Kind, duration: real, delay: Option<real>, easing: Option<string>)

  /** A specification is in effect when it is present and its type is not
      `'none'`. */
  predicate Runs(o: Option<Options>) {
    o.Some? && o.value.kind != NoAnimation
  }

  function Max(a: real, b: real): real {
    if a < b then b else a
  }

  function Delay(o: Options): real {
    o.delay.GetOr(0.0)
  }

  /** The easing curve a specification names; `'ease-out'` when none. */
  function CurveOf(o: Options): Curve {
    CurveNamed(o.easing.GetOr("ease-out"))
  }

  lemma DivideMonotone(a: real, b: real, d: real)
    requires 0.0 < d && a <= b
    ensures a / d <= b / d
  {
    assert b / d - a / d == (b - a) / d;
  }

  lemma DivideSelf(d: real)
    requires 0.0 < d
    ensures d / d == 1.0
  {
  }

  /** A part `e` of a whole `d` is a fraction in `[0, 1]` of it. */
  lemma FractionOfWhole(e: real, d: real)
    requires 0.0 < d && 0.0 <= e <= d
    ensures 0.0 <= e / d <= 1.0 && e / d * d == e
  {
    DivideMonotone(0.0, e, d);
    DivideMonotone(e, d, d);
    DivideSelf(d);
  }

  /** Linear progress before easing: the elapsed time since
      `start + delay`, clamped below at zero, as a fraction of the
      duration, clamped above at one. */
  function LinearProgress(start: real, now: real, o: Options): (p: real)
    requires 0.0 < o.duration
    ensures 0.0 <= p <= 1.0
    ensures now <= start + Delay(o) ==> p == 0.0
    ensures start + Delay(o) + o.duration <= now ==> p == 1.0
    // in between, progress is proportional to the time elapsed
    ensures start + Delay(o) <= now <= start + Delay(o) + o.duration ==>
              p * o.duration == now - start - Delay(o)
  {
    var elapsed := Max(0.0, now - start - Delay(o));
    if elapsed <= o.duration then
      FractionOfWhole(elapsed, o.duration);
      elapsed / o.duration
    else
      DivideMonotone(o.duration, elapsed, o.duration);
      DivideSelf(o.duration);
      Min(1.0, elapsed / o.duration)
  }

  /** Linear progress never runs backwards as the clock advances. */
  lemma LinearProgressMonotone(start: real, now1: real, now2: real, o: Options)
    requires 0.0 < o.duration && now1 <= now2
    ensures LinearProgress(start, now1, o) <= LinearProgress(start, now2, o)
  {
    var e1 := Max(0.0, now1 - start - Delay(o));
    var e2 := Max(0.0, now2 - start - Delay(o));
    DivideMonotone(e1, e2, o.duration);
  }

  /** `getAnimationProgress(start, o)` read at time `now`: eased progress,
      within `[0, 1]`, zero until the delay has passed and one once the
      duration has run out. */
  function Progress(start: real, now: real, o: Options): (r: real)
    requires 0.0 < o.duration
    ensures 0.0 <= r <= 1.0
    ensures now <= start + Delay(o) ==> r == 0.0
    ensures start + Delay(o) + o.duration <= now ==> r == 1.0
  {
    var p := LinearProgress(start, now, o);
    InUnitRange(CurveOf(o), p);
    Endpoints(CurveOf(o));
    Apply(CurveOf(o), p)
  }

  /** Except under the bounce curve, eased progress never runs backwards
      either. */
  lemma ProgressMonotone(start: real, now1: real, now2: real, o: Options)
    requires 0.0 < o.duration && now1 <= now2 && CurveOf(o) != Bounce
    ensures Progress(start, now1, o) <= Progress(start, now2, o)
  {
    LinearProgressMonotone(start, now1, now2, o);
    Monotone(CurveOf(o));
    assert MonotoneOn(CurveOf(o), 0.0, 1.0);
    var p1 := LinearProgress(start, now1, o);
    var p2 := LinearProgress(start, now2, o);
    assert Apply(CurveOf(o), p1) <= Apply(CurveOf(o), p2);
  }

  // ---------------------------------------------------------------------
  // Entrance progress

  /** The entrance progress of segment `index` as written: the start time
      handed to `getAnimationProgress` is `now - index * 100`, and that
      function reads the same clock again, so the two readings cancel. */
  function EntranceProgressAsWritten(index: nat, now: real, o: Options): real
    requires 0.0 < o.duration
  {
    Progress(now - index as real * 100.0, now, o)
  }

  /** The entrance progress as written does not depend on the time at all:
      it is the eased value of `(index * 100 - delay) / duration`, clamped
      to `[0, 1]`, on every frame. */
  lemma EntranceFrozen(index: nat, now1: real, now2: real, o: Options)
    requires 0.0 < o.duration
    ensures EntranceProgressAsWritten(index, now1, o) == EntranceProgressAsWritten(index, now2, o)
    ensures var x := (index as real * 100.0 - Delay(o)) / o.duration;
            EntranceProgressAsWritten(index, now1, o)
              == Apply(CurveOf(o), if x < 0.0 then 0.0 else if 1.0 < x then 1.0 else x)
  {
    var e := Max(0.0, index as real * 100.0 - Delay(o));
    assert now1 - (now1 - index as real * 100.0) - Delay(o) == index as real * 100.0 - Delay(o);
    assert now2 - (now2 - index as real * 100.0) - Delay(o) == index as real * 100.0 - Delay(o);
    var x := (index as real * 100.0 - Delay(o)) / o.duration;
    if index as real * 100.0 - Delay(o) < 0.0 {
      DivideMonotone(index as real * 100.0 - Delay(o), 0.0, o.duration);
    } else {
      DivideMonotone(0.0, index as real * 100.0 - Delay(o), o.duration);
    }
  }

  /** The entrance progress, as the animation intends it: measured from
      the time the chart started rendering, with segment `index` given a
      head start of `index * 100` milliseconds: the start time is moved
      back by the stagger, as the source writes it, and only the second
      clock reading is replaced. */
  function EntranceProgress(renderStart: real, index: nat, now: real, o: Options): (r: real)
    requires 0.0 < o.duration
    ensures 0.0 <= r <= 1.0
    // the entrance completes: after the delay and the duration it is done
    ensures renderStart + Delay(o) + o.duration <= now ==> r == 1.0
  {
    assert renderStart - index as real * 100.0 <= renderStart;
    Progress(renderStart - index as real * 100.0, now, o)
  }

  /** The two agree on the first frame; only the corrected one moves on. */
  lemma EntranceAgreesAtRenderStart(renderStart: real, index: nat, o: Options)
    requires 0.0 < o.duration
    ensures EntranceProgress(renderStart, index, renderStart, o)
              == EntranceProgressAsWritten(index, renderStart, o)
  {
  }

  /** Moving the start time back by `d` is the same as reading the clock
      `d` later. */
  lemma ProgressShift(start: real, d: real, now: real, o: Options)
    requires 0.0 < o.duration
    ensures Progress(start - d, now, o) == Progress(start, now + d, o)
  {
    assert now - (start - d) - Delay(o) == now + d - start - Delay(o);
  }

  /** The stagger: segment `index` is where segment 0 will be
      `index * 100` milliseconds later, so consecutive segments are
      100 milliseconds apart. */
  lemma EntranceStagger(renderStart: real, index: nat, now: real, o: Options)
    requires 0.0 < o.duration
    ensures EntranceProgress(renderStart, index, now, o)
              == EntranceProgress(renderStart, 0, now + index as real * 100.0, o)
    ensures EntranceProgress(renderStart, index + 1, now, o)
              == EntranceProgress(renderStart, index, now + 100.0, o)
  {
    ProgressShift(renderStart, index as real * 100.0, now, o);
    ProgressShift(renderStart, (index + 1) as real * 100.0, now, o);
    ProgressShift(renderStart, index as real * 100.0, now + 100.0, o);
    assert renderStart - 0 as real * 100.0 == renderStart;
    assert now + 100.0 + index as real * 100.0 == now + (index + 1) as real * 100.0;
  }

  /** Except under the bounce curve, a later segment is never behind an
      earlier one: the segments enter in reverse order of their index. */
  lemma EntranceOrder(renderStart: real, i: nat, j: nat, now: real, o: Options)
    requires 0.0 < o.duration && i <= j && CurveOf(o) != Bounce
    ensures EntranceProgress(renderStart, i, now, o) <= EntranceProgress(renderStart, j, now, o)
  {
    EntranceStagger(renderStart, i, now, o);
    EntranceStagger(renderStart, j, now, o);
    ProgressMonotone(renderStart, now + i as real * 100.0, now + j as real * 100.0, o);
    assert renderStart - 0 as real * 100.0 == renderStart;
  }

  // ---------------------------------------------------------------------
  // Offsets

  /** The radius offset (a fraction of the radius) and the angle offset
      (radians) of one segment. */
  datatype Offsets = Offsets(radius: real, angle: real)

  /** What an entrance animation contributes at entrance progress `p`:
      `'scale'` shrinks the segment by up to a fifth, `'rotate'` turns it
      by up to a tenth of a turn, and every other type contributes
      nothing. */
  function EntranceOffsets(o: Option<Options>, p: real): (r: Offsets)
    ensures !Runs(o) ==> r == Offsets(0.0, 0.0)
    ensures Runs(o) && o.value.kind !in {Scale, Rotate} ==> r == Offsets(0.0, 0.0)
    ensures Runs(o) && o.value.kind == Scale && 0.0 <= p <= 1.0 ==>
              -0.2 <= r.radius <= 0.0 && r.angle == 0.0
    ensures Runs(o) && o.value.kind == Rotate && 0.0 <= p <= 1.0 ==>
              r.radius == 0.0 && 0.0 <= r.angle <= Pi * 0.2
    // a finished entrance leaves the segment where it belongs
    ensures p == 1.0 ==> r == Offsets(0.0, 0.0)
  {
    if !Runs(o) then Offsets(0.0, 0.0)
    else match o.value.kind
      case Scale =>
        ScaleWithin(0.2, 1.0 - p);
        Offsets((1.0 - p) * -0.2, 0.0)
      case Rotate =>
        ScaleWithin(Pi * 0.2, 1.0 - p);
        Offsets(0.0, (1.0 - p) * Pi * 0.2)
      case _ => Offsets(0.0, 0.0)
  }

  /** The radius bump of the active (hovered) segment. */
  function ActiveBump(o: Option<Options>, progress: real, sine: real -> real): (r: real)
    ensures !Runs(o) ==> r == 0.0
    ensures Runs(o) && o.value.kind == Scale ==> r == 0.05
    ensures Runs(o) && o.value.kind !in {Scale, Pulse} ==> r == 0.0
    ensures Runs(o) && o.value.kind == Pulse && -1.0 <= sine(progress * Pi * 4.0) <= 1.0 ==>
              -0.03 <= r <= 0.03
  {
    if !Runs(o) then 0.0
    else match o.value.kind
      case Pulse => sine(progress * Pi * 4.0) * 0.03
      case Scale => 0.05
      case _ => 0.0
  }

  /** The radius bump of the selected segment. */
  function SelectedBump(o: Option<Options>, progress: real, sine: real -> real): (r: real)
    ensures !Runs(o) ==> r == 0.0
    ensures Runs(o) && o.value.kind == Scale ==> r == 0.1
    ensures Runs(o) && o.value.kind !in {Scale, Pulse, BounceKind} ==> r == 0.0
    ensures Runs(o) && o.value.kind == Pulse && -1.0 <= sine(progress * Pi * 2.0) <= 1.0 ==>
              0.0 <= r <= 0.1
    ensures Runs(o) && o.value.kind == BounceKind && -1.0 <= sine(progress * Pi * 3.0) <= 1.0 ==>
              0.0 <= r <= 0.08
  {
    if !Runs(o) then 0.0
    else match o.value.kind
      case Scale => 0.1
      case Pulse => sine(progress * Pi * 2.0) * 0.05 + 0.05
      case BounceKind => Abs(sine(progress * Pi * 3.0)) * 0.08
      case _ => 0.0
  }

  /** The animation settings of one chart. */
  datatype Config = Config(
    animate: bool,
    entrance: Option<Options>,
    active: Option<Options>,
    selected: Option<Options>)

  /** The entrance animations whose progress is used: `'scale'` and
      `'rotate'`. The other types compute it and discard it. */
  predicate Enters(o: Option<Options>) {
    Runs(o) && o.value.kind in {Scale, Rotate}
  }

  /** What the source needs to produce numbers: an entrance animation whose
      progress is used has a positive duration. */
  predicate WellTimed(cfg: Config) {
    Enters(cfg.entrance) ==> 0.0 < cfg.entrance.value.duration
  }

  /** `getSegmentAnimationTransform` for segment `index`, with the entrance
      progress measured from `renderStart`. The offsets add up: the
      entrance sets both, and the active and selected animations add to
      the radius offset only. */
  function Transform(cfg: Config, index: nat, isActive: bool, isSelected: bool,
                     renderStart: real, now: real, progress: real,
                     sine: real -> real): (r: Offsets)
    requires WellTimed(cfg)
    // hovering and selecting never turn a segment
    ensures r.angle == 0.0 || (Runs(cfg.entrance) && cfg.entrance.value.kind == Rotate)
    ensures !isActive && !isSelected && !Runs(cfg.entrance) ==> r == Offsets(0.0, 0.0)
  {
    var entry :=
      if Enters(cfg.entrance) then EntranceProgress(renderStart, index, now, cfg.entrance.value)
      else 0.0;
    var e := EntranceOffsets(cfg.entrance, entry);
    var a := if isActive then ActiveBump(cfg.active, progress, sine) else 0.0;
    var s := if isSelected then SelectedBump(cfg.selected, progress, sine) else 0.0;
    Offsets(e.radius + a + s, e.angle)
  }

  /** The offsets add up: hovering and selecting leave the entrance's
      angle offset alone and add their bumps to its radius offset. */
  lemma HighlightsAdd(cfg: Config, index: nat, isActive: bool, isSelected: bool,
                      renderStart: real, now: real, progress: real, sine: real -> real)
    requires WellTimed(cfg)
    ensures var base := Transform(cfg, index, false, false, renderStart, now, progress, sine);
            var r := Transform(cfg, index, isActive, isSelected, renderStart, now, progress, sine);
            && r.angle == base.angle
            && r.radius == base.radius
                           + (if isActive then ActiveBump(cfg.active, progress, sine) else 0.0)
                           + (if isSelected then SelectedBump(cfg.selected, progress, sine) else 0.0)
  {
  }

  /** A segment that is both hovered and selected under the `'scale'`
      animations is 0.05 + 0.1 of the radius larger than the entrance
      alone makes it, whatever the entrance; with no entrance it is
      exactly that much larger than at rest. */
  lemma ScalesAdd(cfg: Config, index: nat, renderStart: real, now: real,
                  progress: real, sine: real -> real)
    requires WellTimed(cfg)
    requires Runs(cfg.active) && cfg.active.value.kind == Scale
    requires Runs(cfg.selected) && cfg.selected.value.kind == Scale
    ensures var base := Transform(cfg, index, false, false, renderStart, now, progress, sine);
            var r := Transform(cfg, index, true, true, renderStart, now, progress, sine);
            r.radius == base.radius + 0.15 && r.angle == base.angle
    ensures !Runs(cfg.entrance) ==>
              Transform(cfg, index, true, true, renderStart, now, progress, sine) == Offsets(0.15, 0.0)
  {
    HighlightsAdd(cfg, index, true, true, renderStart, now, progress, sine);
  }

  /** A scale entrance alone keeps the radius offset within `[-0.2, 0]`;
      a rotate entrance alone keeps the angle offset within
      `[0, 0.2 * PI]`; and once the entrance is over neither contributes. */
  lemma EntranceBounds(cfg: Config, index: nat, renderStart: real, now: real,
                       progress: real, sine: real -> real)
    requires WellTimed(cfg) && Runs(cfg.entrance)
    ensures var r := Transform(cfg, index, false, false, renderStart, now, progress, sine);
            && (cfg.entrance.value.kind == Scale ==> -0.2 <= r.radius <= 0.0 && r.angle == 0.0)
            && (cfg.entrance.value.kind == Rotate ==> r.radius == 0.0 && 0.0 <= r.angle <= Pi * 0.2)
            && (renderStart + Delay(cfg.entrance.value) + cfg.entrance.value.duration <= now ==>
                  r == Offsets(0.0, 0.0))
  {
  }

  /** The segment-0 scale entrance as written: its radius offset is stuck
      at -0.2 on every frame, so the segment never grows to full size. */
  lemma FirstSegmentNeverEnters(now: real, duration: real)
    requires 0.0 < duration
    ensures var o := Options(Scale, duration, None, None);
            EntranceOffsets(Some(o), EntranceProgressAsWritten(0, now, o)).radius == -0.2
  {
    var o := Options(Scale, duration, None, None);
    EntranceFrozen(0, now, now, o);
    Endpoints(EaseOut);
  }

  // ---------------------------------------------------------------------
  // The animated frame

  /** The global animation phase: the position of the clock within a
      two-second cycle, or zero when the chart does not animate. */
  function Phase(animate: bool, now: nat): (p: real)
    ensures 0.0 <= p < 1.0
    ensures !animate ==> p == 0.0
  {
    if animate then (now % 2000) as real / 2000.0 else 0.0
  }

  /** The offsets applied to segment `index` on the frame at `now`. */
  function FrameOffsets(cfg: Config, index: nat, isActive: bool, isSelected: bool,
                        renderStart: real, now: nat, sine: real -> real): (r: Offsets)
    requires WellTimed(cfg)
    ensures !cfg.animate ==> r == Offsets(0.0, 0.0)
  {
    if cfg.animate
    then Transform(cfg, index, isActive, isSelected, renderStart, now as real,
                   Phase(true, now), sine)
    else Offsets(0.0, 0.0)
  }

  /** The wedge of segment `i` with base start angle `start`, as the
      animated chart paints it: shifted by the angle offset, scaled by the
      radius offset, tinted when active or selected, and with a highlight
      arc pushed further out (and pulsing in width) when selected. */
  function AnimatedWedge(d: Dimensions, percentage: real, i: nat, start: real,
                         active: Option<nat>, selected: Option<nat>,
                         outerArcThickness: real, cfg: Config, renderStart: real,
                         now: nat, sine: real -> real): Layout.Wedge
    requires WellTimed(cfg)
  {
    var isActive := active == Some(i);
    var isSelected := selected == Some(i);
    var off := FrameOffsets(cfg, i, isActive, isSelected, renderStart, now, sine);
    var segmentAngle := SegmentAngle(percentage);
    var adjusted := start + off.angle;
    var mid := adjusted + segmentAngle / 2.0;
    var span := Layout.ArcSpan(mid, segmentAngle, outerArcThickness);
    var width :=
      if isSelected && cfg.animate && cfg.selected.Some?
      then 12.0 + sine(Phase(cfg.animate, now) * Pi * 2.0) * 4.0
      else 12.0;
    Layout.Wedge(
      d.radius * (1.0 + off.radius),
      adjusted,
      adjusted + segmentAngle,
      mid,
      if isSelected then Layout.SelectedTint
      else if isActive then Layout.ActiveTint
      else Layout.Plain,
      if isActive || isSelected
      then Some(Layout.OuterArc(d.outerArcRadius + (if isSelected then 0.05 * d.radius else 0.0),
                                span.0, span.1, width))
      else None)
  }

  /** The `forEach` of the animated `drawPieChart` from segment `i` on. */
  function FrameFrom(d: Dimensions, ps: seq<real>, i: nat, start: real,
                     active: Option<nat>, selected: Option<nat>,
                     outerArcThickness: real, cfg: Config, renderStart: real,
                     now: nat, sine: real -> real): (ws: seq<Layout.Wedge>)
    requires WellTimed(cfg)
    requires i <= |ps| && start == StartAngle(ps, i)
    ensures |ws| == |ps| - i
    ensures forall k :: 0 <= k < |ws| ==>
              ws[k] == AnimatedWedge(d, ps[i + k], i + k, StartAngle(ps, i + k), active, selected,
                                     outerArcThickness, cfg, renderStart, now, sine)
    decreases |ps| - i
  {
    if i == |ps| then []
    else
      [AnimatedWedge(d, ps[i], i, start, active, selected, outerArcThickness, cfg,
                     renderStart, now, sine)]
        + FrameFrom(d, ps, i + 1, start + SegmentAngle(ps[i]), active, selected,
                    outerArcThickness, cfg, renderStart, now, sine)
  }

  /** Everything the animated `drawPieChart` paints for the segments on
      the frame at `now`. */
  function DrawFrame(d: Dimensions, ps: seq<real>, active: Option<nat>, selected: Option<nat>,
                     outerArcThickness: real, cfg: Config, renderStart: real,
                     now: nat, sine: real -> real): (ws: seq<Layout.Wedge>)
    requires WellTimed(cfg)
    ensures |ws| == |ps|
  {
    FrameFrom(d, ps, 0, 0.0, active, selected, outerArcThickness, cfg, renderStart, now, sine)
  }

  /** The geometry of one animated wedge: its sector shifted by the angle
      offset, keeping its width, at the radius scaled by the radius
      offset; without animation it coincides with the plain chart's wedge
      but for the tints and the selected arc's radius. */
  lemma AnimatedWedgeShape(d: Dimensions, percentage: real, i: nat, start: real,
                           active: Option<nat>, selected: Option<nat>,
                           outerArcThickness: real, cfg: Config, renderStart: real,
                           now: nat, sine: real -> real)
    requires WellTimed(cfg)
    ensures var w := AnimatedWedge(d, percentage, i, start, active, selected,
                                   outerArcThickness, cfg, renderStart, now, sine);
            var off := FrameOffsets(cfg, i, active == Some(i), selected == Some(i),
                                    renderStart, now, sine);
            && w.start == start + off.angle
            && w.end - w.start == SegmentAngle(percentage)
            && w.radius == d.radius * (1.0 + off.radius)
            && (w.fill == Layout.SelectedTint <==> selected == Some(i))
            && (w.fill == Layout.ActiveTint <==> active == Some(i) && selected != Some(i))
            && (w.arc.Some? <==> active == Some(i) || selected == Some(i))
            && (selected == Some(i) ==> w.arc.value.radius == d.outerArcRadius + 0.05 * d.radius)
            && (active == Some(i) && selected != Some(i) ==> w.arc.value.radius == d.outerArcRadius)
    ensures !cfg.animate ==>
            var w := AnimatedWedge(d, percentage, i, start, active, selected,
                                   outerArcThickness, cfg, renderStart, now, sine);
            var v := Layout.StaticWedge(d, percentage, i, start, active, selected, outerArcThickness);
            && w.start == v.start && w.end == v.end && w.mid == v.mid && w.radius == v.radius
            && w.arc.Some? == v.arc.Some?
            && (w.arc.Some? ==> w.arc.value.from == v.arc.value.from
                                && w.arc.value.to == v.arc.value.to
                                && w.arc.value.lineWidth == 12.0)
  {
  }

  /** Each wedge of the frame is its sector shifted by its own angle
      offset: the base start angle keeps advancing by the segment angle
      alone, so one segment's offset never moves the segments after it,
      and every wedge keeps its sector's width. */
  lemma FrameWedgeIsShiftedSector(d: Dimensions, ps: seq<real>, active: Option<nat>,
                                  selected: Option<nat>, outerArcThickness: real,
                                  cfg: Config, renderStart: real, now: nat,
                                  sine: real -> real, k: nat)
    requires WellTimed(cfg) && k < |ps|
    ensures var w := DrawFrame(d, ps, active, selected, outerArcThickness, cfg, renderStart, now, sine)[k];
            var off := FrameOffsets(cfg, k, active == Some(k), selected == Some(k), renderStart, now, sine);
            && w.start == StartAngle(ps, k) + off.angle
            && w.end - w.start == StartAngle(ps, k + 1) - StartAngle(ps, k)
            && w.radius == d.radius * (1.0 + off.radius)
  {
    var w := DrawFrame(d, ps, active, selected, outerArcThickness, cfg, renderStart, now, sine)[k];
    assert w == AnimatedWedge(d, ps[k], k, StartAngle(ps, k), active, selected,
                              outerArcThickness, cfg, renderStart, now, sine);
    AnimatedWedgeShape(d, ps[k], k, StartAngle(ps, k), active, selected,
                       outerArcThickness, cfg, renderStart, now, sine);
  }

  /** Without animation the frame has the plain chart's geometry: the same
      wedges at the same radius with the highlight arcs over the same
      angles and of the same width. */
  lemma StillFrameMatchesLayout(d: Dimensions, ps: seq<real>, active: Option<nat>,
                                selected: Option<nat>, outerArcThickness: real,
                                cfg: Config, renderStart: real, now: nat,
                                sine: real -> real, k: nat)
    requires WellTimed(cfg) && !cfg.animate && k < |ps|
    ensures var w := DrawFrame(d, ps, active, selected, outerArcThickness, cfg, renderStart, now, sine)[k];
            var v := Layout.DrawPieChart(d, ps, active, selected, outerArcThickness)[k];
            && w.start == v.start && w.end == v.end && w.mid == v.mid && w.radius == v.radius
            && w.arc.Some? == v.arc.Some?
            && (w.arc.Some? ==> w.arc.value.from == v.arc.value.from
                                && w.arc.value.to == v.arc.value.to
                                && w.arc.value.lineWidth == 12.0)
  {
    var w := DrawFrame(d, ps, active, selected, outerArcThickness, cfg, renderStart, now, sine)[k];
    assert w == AnimatedWedge(d, ps[k], k, StartAngle(ps, k), active, selected,
                              outerArcThickness, cfg, renderStart, now, sine);
    var v := Layout.DrawPieChart(d, ps, active, selected, outerArcThickness)[k];
    assert v == Layout.StaticWedge(d, ps[k], k, StartAngle(ps, k), active, selected, outerArcThickness);
    AnimatedWedgeShape(d, ps[k], k, StartAngle(ps, k), active, selected,
                       outerArcThickness, cfg, renderStart, now, sine);
  }

  /** Fill and highlight in the animated chart: the selected segment gets
      the `CC` tint, the active one otherwise the `EE` tint, and the
      selected segment's arc sits `0.05 * radius` further out than the
      active one's. */
  lemma FrameHighlights(d: Dimensions, ps: seq<real>, active: Option<nat>,
                        selected: Option<nat>, outerArcThickness: real,
                        cfg: Config, renderStart: real, now: nat,
                        sine: real -> real, k: nat)
    requires WellTimed(cfg) && k < |ps|
    ensures var w := DrawFrame(d, ps, active, selected, outerArcThickness, cfg, renderStart, now, sine)[k];
            && (w.fill == Layout.SelectedTint <==> selected == Some(k))
            && (w.fill == Layout.ActiveTint <==> active == Some(k) && selected != Some(k))
            && (w.arc.Some? <==> active == Some(k) || selected == Some(k))
            && (selected == Some(k) ==> w.arc.value.radius == d.outerArcRadius + 0.05 * d.radius)
            && (active == Some(k) && selected != Some(k) ==> w.arc.value.radius == d.outerArcRadius)
  {
    var w := DrawFrame(d, ps, active, selected, outerArcThickness, cfg, renderStart, now, sine)[k];
    assert w == AnimatedWedge(d, ps[k], k, StartAngle(ps, k), active, selected,
                              outerArcThickness, cfg, renderStart, now, sine);
    AnimatedWedgeShape(d, ps[k], k, StartAngle(ps, k), active, selected,
                       outerArcThickness, cfg, renderStart, now, sine);
  }
}
