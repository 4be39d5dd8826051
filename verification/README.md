# Donut chart core: geometry, easing and selection, in Dafny

This project models the computational core of a React/canvas donut-chart
library and its investment-portfolio page:

- **Geometry and hit testing** (`Geometry`, `Sectors`). Chart dimensions are
  derived from the surface size and a thickness ratio. Each segment sweeps
  `percentage / 100 * 2 * PI`, and sectors are laid end to end from angle zero.
  `findHoveredSegment` maps a cursor strictly inside the ring to the first
  sector whose half-open interval holds the cursor's angle.
- **Painted layout** (`Layout`). The plain `drawPieChart` paints a wedge per
  segment, a `CC` tint for the selected segment, and a highlight arc outside
  the ring for the active and selected segments.
- **Easing and animation** (`Easing`, `Animation`).
  - The easing curves of `applyEasing`.
  - The clamped progress of `getAnimationProgress`, with the clock passed in.
  - The per-segment offsets of `getSegmentAnimationTransform`.
  - The frame painted by the animated `drawPieChart`.
- **Selection policies.**
  - `ArmNavigate`: arm-then-navigate, in both containers that carry
    `readyToNavigate`.
  - `ToggleSelect`: toggle-select, in the plain container.
  - `Portfolio`: select-then-navigate, on the portfolio page.

  Each handler is one atomic transition `(state, event) -> (state, output)` on
  the latest committed state. The value passed to `onSegmentSelect` becomes a
  `Notice`. Following a segment's path becomes an `Effect`.

Modelling choices:

- Numbers are reals, and `PI` is the literal `3.141592653589793`.
- `Math.atan2` becomes an input angle in `[-PI, PI]`. `NormalizeAngle` moves it
  into one turn.
- `Math.sqrt` is avoided: the ring test compares squared distances.
  `InRingIsOpenRing` shows that this is the same test as on the true distance.
- `Math.sin` is a parameter `sine: real -> real` about which nothing is
  assumed, unless a lemma states it.
- `Date.now()` is the parameter `now`.
- A segment is identified by its index: `Some(i)` stands for `segments[i]`.

## Model

| member | source | states |
|---|---|---|
| Geometry.ChartDimensions | src/test-3/utils.ts:6-27 | radius is 0.7 of the half of the shorter side; the ring is `thickness * radius` wide; the highlight radius is 10% beyond the radius; a missing pixel ratio falls back to 1; for a non-negative size and a thickness in `[0, 1]`, `0 <= innerRadius <= radius <= outerArcRadius`; strict for a positive size and a thickness in `(0, 1)`, which covers the range `[0.1, 0.8]` of the chart containers' ring-thickness slider (the portfolio page fixes the thickness at 0.2); the plain chart and the portfolio page compute the same formula |
| Geometry.InRingIsOpenRing | src/test-3/utils.ts:40-46 | the squared-distance test holds exactly when `innerRadius < distance < radius`, so both ring boundaries are outside |
| Geometry.NormalizeAngle | src/test-3/utils.ts:48-49 | the normalised angle lies in `[0, 2 PI)` and differs from the raw angle by zero or one full turn |
| Sectors.Scan | src/test-3/utils.ts:52-59 | the loop returns the first sector from `i` on that holds the angle, or none when no sector from `i` on holds it |
| Sectors.FindSegment | src/test-3/utils.ts:51-62 | a result is a valid index whose sector holds the angle, and no earlier sector holds it; the result is none exactly when no sector holds the angle |
| Sectors.HitTest | src/test-3/utils.ts:32-63 | outside the open ring the result is null; inside it is the first sector holding the normalised angle, or null exactly when no sector holds it; the plain chart's copy is identical |
| Sectors.StartAngleIsPrefixSum | src/test-3/utils.ts:53-58 | no renormalisation: sector `n` starts at the angle of the sum of the first `n` percentages |
| Sectors.TotalAngle | src/test2/utils.ts:82-118 | the last sector ends at the angle of the percentage total |
| Sectors.StartAngleMonotone | src/test-3/utils.ts:54-58 | with non-negative percentages the start angles never decrease |
| Sectors.ZeroWidthNeverHit | src/test-3/utils.ts:54-55 | a segment of zero or negative percentage is never returned |
| Sectors.Covered | src/test-3/utils.ts:52-59 | every angle in `[0, end of sector n)` lies in one of the first `n` sectors |
| Sectors.FullTurnCovered | src/test-3/utils.ts:52-59 | percentages summing to 100 leave no gap: every angle in `[0, 2 PI)` finds a sector |
| Sectors.PastLastSectorMisses | src/test-3/utils.ts:52-62 | with non-negative percentages, an angle at or beyond the last sector's end finds nothing |
| Sectors.SectorsDisjoint | src/test-3/utils.ts:54-55 | with non-negative percentages no angle lies in two sectors |
| Sectors.FindSegmentExact | src/test-3/utils.ts:52-59 | with non-negative percentages the hit test returns `i` exactly when the angle is in sector `i` |
| Sectors.MidAngleHitsSegment | src/test2/utils.ts:88 | the mid-angle of a segment of positive percentage hits that segment |
| Layout.ArcSpan | src/test2/utils.ts:102-103 | the highlight arc is centred on the mid-angle and spans twice `segmentAngle * outerArcThickness` |
| Layout.DrawFrom | src/test2/utils.ts:83-119 | the `forEach` paints one wedge per remaining segment, each from its start angle to the next one |
| Layout.DrawPieChart | src/test2/utils.ts:68-126 | one wedge per segment, spanning the interval the hit test assigns to it, at the outer radius; an arc exactly for the active or selected segment; the `CC` tint exactly for the selected one; the portfolio page paints the same layout |
| Layout.WedgesContiguous | src/test2/utils.ts:82-118 | the wedges start at 0, each starts where the previous one ends, and the last ends at the angle of the percentage total |
| Layout.HitTestMatchesWedges | src/test2/utils.ts:84-93 | painting and hit testing agree: the hit test returns `k` exactly when the angle is inside the `k`-th painted wedge |
| Layout.WedgeArc | src/test2/utils.ts:101-116 | the arc sits at the highlight radius, centred on its wedge; with `outerArcThickness <= 0.5` it stays inside the wedge; above 0.5 it overhangs both edges of a non-empty wedge |
| Layout.ArcOfPaintedWedge | src/test2/utils.ts:101-116 | the arc of an active or selected wedge in the painted chart is centred on it and stays inside it for thicknesses up to one half |
| Easing.CurveNamed | src/test-3/utils.ts:84-112 | each listed name selects its curve; the curve is the cubic `ease` default exactly when the name is none of the listed ones |
| Easing.Endpoints | src/test-3/utils.ts:83-113 | every curve maps 0 to 0 and 1 to 1 |
| Easing.Monotone | src/test-3/utils.ts:85-94 | linear, ease-in, ease-out, ease-in-out and the cubic default never decrease on `[0, 1]` |
| Easing.BounceDips | src/test-3/utils.ts:95-107 | the bounce falls from 1 at `1/2.75` to 0.75 at `1.5/2.75`, so it is not monotone |
| Easing.InUnitRange | src/test-3/utils.ts:83-113 | every curve maps `[0, 1]` into `[0, 1]` |
| Easing.InOutPiecesMeet | src/test-3/utils.ts:91-94 | the ease-in-out and cubic pieces agree at 0.5 |
| Easing.BounceArchesMeet | src/test-3/utils.ts:96-107 | the bounce arches agree at `1/2.75`, `2/2.75` and `2.5/2.75` |
| Easing.BounceFollowsArch | src/test-3/utils.ts:96-107 | on each closed interval between breakpoints the bounce is a single arch |
| Easing.BounceSlope | src/test-3/utils.ts:95-107 | the bounce changes by at most 5.5 per unit of progress |
| Easing.QuadraticPieces | src/test-3/utils.ts:87-90 | ease-in and ease-out are parabolas about 0 and about 1 |
| Easing.EaseInSlope | src/test-3/utils.ts:87-88 | ease-in changes by at most 2 per unit of progress |
| Easing.EaseOutSlope | src/test-3/utils.ts:89-90 | ease-out changes by at most 2 per unit of progress |
| Easing.InOutPieces | src/test-3/utils.ts:91-94 | both halves of ease-in-out are parabolas, about 0 and about 1 |
| Easing.InOutSlope | src/test-3/utils.ts:91-94 | ease-in-out changes by at most 2 per unit, across the join as well |
| Easing.EasePieces | src/test-3/utils.ts:108-111 | both halves of the cubic default are cubics, about 0 and about 1 |
| Easing.EaseSlope | src/test-3/utils.ts:108-111 | the cubic default changes by at most 3 per unit, across the join as well |
| Easing.Continuous | src/test-3/utils.ts:83-113 | every curve is Lipschitz, so continuous, on `[0, 1]`, with its own slope bound |
| Animation.LinearProgress | src/test-3/utils.ts:72-74 | progress lies in `[0, 1]`; it is 0 until `start + delay` and 1 from `start + delay + duration`; in between, progress times duration is the elapsed time; the delay defaults to 0 |
| Animation.LinearProgressMonotone | src/test-3/utils.ts:73-74 | progress never runs backwards as the clock advances |
| Animation.Progress | src/test-3/utils.ts:68-78 | eased progress lies in `[0, 1]`, is 0 before the delay and 1 after the duration |
| Animation.ProgressMonotone | src/test-3/utils.ts:68-78 | under every curve but the bounce, eased progress never runs backwards |
| Animation.EntranceFrozen | src/test-3/utils.ts:132 | the entrance progress as written is the same at every time, namely the eased `clamp((index * 100 - delay) / duration)` |
| Animation.EntranceProgress | src/test-3/utils.ts:132 | the corrected entrance progress lies in `[0, 1]` and reaches 1 once the delay and the duration have passed since the render started |
| Animation.ProgressShift | src/test-3/utils.ts:68-78 | moving the start time back by `d` gives the progress read `d` later |
| Animation.EntranceStagger | src/test-3/utils.ts:132 | segment `index` is where segment 0 is `index * 100` ms later; consecutive segments are 100 ms apart |
| Animation.EntranceOrder | src/test-3/utils.ts:132 | under a non-bounce curve a higher-index segment is never behind a lower-index one at the same time |
| Animation.EntranceAgreesAtRenderStart | src/test-3/utils.ts:132 | the corrected and the as-written entrance progress agree on the first frame |
| Animation.EntranceOffsets | src/test-3/utils.ts:130-143 | an absent or `'none'` entrance, and every type but scale and rotate, contribute nothing; scale gives a radius offset in `[-0.2, 0]`; rotate gives an angle offset in `[0, 0.2 PI]`; a finished entrance gives nothing |
| Animation.ActiveBump | src/test-3/utils.ts:145-157 | the active segment grows by exactly 0.05 under scale; under pulse it moves within `[-0.03, 0.03]` when the sine is in `[-1, 1]`; otherwise nothing |
| Animation.SelectedBump | src/test-3/utils.ts:159-175 | the selected segment grows by exactly 0.1 under scale, within `[0, 0.1]` under pulse and within `[0, 0.08]` under bounce, for a sine in `[-1, 1]`; otherwise nothing |
| Animation.Transform | src/test-3/utils.ts:118-178 | only a rotate entrance ever turns a segment; a segment neither active nor selected, without an entrance, is not offset |
| Animation.HighlightsAdd | src/test-3/utils.ts:118-178 | for every well-timed configuration the hovered/selected offsets are the entrance-only offsets with the active bump (when active) and the selected bump (when selected) added to the radius, and the same angle |
| Animation.ScalesAdd | src/test-3/utils.ts:118-178 | under the `'scale'` hover and selection animations a hovered and selected segment's radius offset is the entrance-only one plus exactly 0.15, with the same angle, whatever the entrance; with no entrance the offsets are exactly `(0.15, 0)` |
| Animation.EntranceBounds | src/test-3/utils.ts:130-143 | the entrance alone keeps the radius offset in `[-0.2, 0]` (scale) or the angle offset in `[0, 0.2 PI]` (rotate), and gives nothing once it is over |
| Animation.FirstSegmentNeverEnters | src/test-3/utils.ts:132-137 | as written, the first segment's scale entrance is stuck at a radius offset of -0.2 |
| Animation.Phase | src/test-3/utils.ts:202 | the global animation phase lies in `[0, 1)` and is 0 when the chart does not animate |
| Animation.FrameOffsets | src/test-3/utils.ts:212-222 | without animation no segment is offset |
| Animation.FrameFrom | src/test-3/utils.ts:205-270 | the `forEach` paints one animated wedge per remaining segment from its base start angle |
| Animation.DrawFrame | src/test-3/utils.ts:183-277 | one wedge per segment |
| Animation.AnimatedWedgeShape | src/test-3/utils.ts:224-267 | an animated wedge is its sector shifted by the angle offset, of unchanged width, at the radius scaled by `1 + radiusOffset`; without animation it has the plain wedge's angles and radius and an arc over the same angles at width 12; the tints (`EE` for an active wedge) and the selected arc's radius (`outerArcRadius + 0.05 * radius`) differ from the plain chart's |
| Animation.FrameWedgeIsShiftedSector | src/test-3/utils.ts:225-269 | the base start angle advances by the segment angle alone, so each wedge is its own sector shifted by its own offset |
| Animation.StillFrameMatchesLayout | src/test-3/utils.ts:212-269 | without animation each wedge of the frame has the plain chart's angles and radius, and its arc spans the same angles at width 12; the tints and the selected arc's radius (+0.05 of the radius) differ from the plain chart's |
| Animation.FrameHighlights | src/test-3/utils.ts:237-263 | selected gets the `CC` tint, otherwise active gets `EE`; the arc is drawn exactly for active or selected; the selected arc sits `0.05 * radius` further out |
| ArmNavigate.Step | src/test-3/components/PieChartContainer.tsx:101-161 | hover sets only the hover; outside mousedown resets and reports null; a null click clears selection and arming; a segment is reported exactly when the selected segment is clicked while armed with navigation enabled, which keeps the selection and disarms; a repeat click otherwise arms silently; another segment is selected, disarmed and null reported; arming implies a selection is kept; the other container's handlers are identical |
| ArmNavigate.Run | src/test-3/components/PieChartContainer.tsx:122-161 | a sequence of handler runs yields one notice per event |
| ArmNavigate.RunPreservesValid | src/test-3/components/PieChartContainer.tsx:371 | after any sequence of events, navigation is armed only for a selected segment, as the tooltip assumes |
| ArmNavigate.NoNavigationWhenDisabled | src/test-3/components/PieChartContainer.tsx:137-150 | with navigation on double click disabled, no sequence of events ever reports a segment |
| ArmNavigate.ThreeClicks | src/test-3/components/PieChartContainer.tsx:137-160 | from idle, three clicks on one segment report null, nothing, then the segment |
| ToggleSelect.Step | src/test2/components/PieChartContainer.tsx:44-89 | hover sets only the hover; outside mousedown clears both and reports null; a click reports the new selection; clicking the selected segment deselects, any other one is selected |
| ToggleSelect.Run | src/test2/components/PieChartContainer.tsx:64-89 | a sequence of handler runs yields one notice per event |
| ToggleSelect.ParentInSync | src/test2/components/PieChartContainer.tsx:68-89 | after any sequence of events the last value reported is the current selection, or nothing was reported and the selection is unchanged |
| ToggleSelect.DoubleClick | src/test2/components/PieChartContainer.tsx:77-88 | two clicks on one segment restore the state exactly when that segment or nothing was selected |
| Portfolio.Percentages | src/components/investment-portfolio.tsx:9-65 | one percentage per investment, in order; none negative, and together they sum to 100, so the data fill the whole circle |
| Portfolio.DataConsistent | src/components/investment-portfolio.tsx:9-71 | the total investment is 450000 and each amount is its percentage of the total |
| Portfolio.SectorAt | src/components/investment-portfolio.tsx:247-260 | every cursor angle finds an investment, whose sector holds the angle |
| Portfolio.Choose | src/components/investment-portfolio.tsx:294-299 | an investment already selected navigates to its path and leaves the state alone; any other one becomes selected |
| Portfolio.Step | src/components/investment-portfolio.tsx:113-326 | only clicks navigate, only to the selected investment's path, without changing the state; leaving the canvas or a legend row clears only the hover; entering a legend row sets it; outside mousedown clears both |
| Portfolio.MouseMoveHighlights | src/components/investment-portfolio.tsx:227-266 | inside the ring the hover is exactly the investment whose sector holds the angle; outside it is cleared; the selection is untouched |
| Portfolio.CanvasClickChooses | src/components/investment-portfolio.tsx:269-310 | a click in an investment's sector navigates if it is selected and selects it otherwise; a click outside the ring deselects; the hover is untouched |
| Portfolio.LegendClickMatchesCanvas | src/components/investment-portfolio.tsx:317-326 | a legend click does exactly what a click inside that investment's sector does |
| Portfolio.StepPreservesValid | src/components/investment-portfolio.tsx:227-326 | hover and selection only ever name existing investments |
| Portfolio.WedgesFillCircle | src/components/investment-portfolio.tsx:151-212 | the five wedges are contiguous from 0 and close the full turn |

## Left out

- React plumbing is left out: hooks, effects, refs and state batching. Each handler is modelled as one transition on the latest committed state.
- Canvas calls are values, not drawing. Also left out: the white inner disc, canvas sizing by the pixel ratio, resize listeners and the animation-frame loop.
- `Math.atan2` and `Math.sqrt` are replaced by an angle input and by squared distances. `Math.sin` is an unconstrained parameter.
- JavaScript doubles are modelled as exact reals, so rounding near sector boundaries is not modelled.
- Animation.LinearProgress, Animation.Progress and Animation.EntranceProgress require a positive duration. A zero duration yields NaN or Infinity in the source. Animation.Transform asks it only of a `'scale'` or `'rotate'` entrance, the two types that use the entrance progress.
- Easing.Continuous is stated as a change of at most the slope bound times the change of progress, on `[0, 1]` only. Outside `[0, 1]` the curves are not bounded.
- Animation.EntranceBounds and Animation.EntranceOffsets bound the offsets only for progress in `[0, 1]`, which is the only progress the model produces.
- Animation.ActiveBump and Animation.SelectedBump bound the pulse and bounce terms only under the hypothesis that the sine lies in `[-1, 1]`.
- Animation.Transform uses the corrected entrance progress. The as-written one is kept for the finding below.
- Animation.EntranceProgress keeps the source's sign for the stagger: the start time is moved back by `index * 100`, so later segments get a head start and the segments enter in reverse index order (Animation.EntranceOrder). A description of the stagger as a delay that makes the segments enter in sequence would mean adding `index * 100` instead; the model follows the code and replaces only the second clock reading.
- The detail and legend panels are not modelled. Their rendering is CSS and timers, and their handlers call the container handlers modelled here.
- The type, index and page files, and the second portfolio component under `test-3`, hold no logic beyond data and routing.
- The container's animation-type panel state is not modelled: the chart component never reads it. So are the `segmentAnimation` parameter, which `drawPieChart` accepts but never uses, and the unused inner and outer arc animations.
- Whether `onSegmentSelect` is present is not modelled. A notice is the argument it would receive.
- The page's mouse move and click have a no-match branch that does nothing. It is modelled, but it cannot happen with the page's percentages, which fill the full turn (see Portfolio.SectorAt).

## Findings

| source | as written | input that shows it | evidently intended | confidence | as-written member | corrected member |
|---|---|---|---|---|---|---|
| src/test-3/utils.ts:132 | the entrance progress uses `Date.now() - index * 100` as the start time, and `getAnimationProgress` reads `Date.now()` again, so the elapsed time is always `max(0, index * 100 - delay)` and the entrance is frozen | segment 0 under a `'scale'` entrance with no delay: progress is 0 on every frame, so its radius offset stays at -0.2 and it never reaches full size | progress measured from the time rendering started, with segment `index` started `index * 100` ms earlier as the code writes it (consecutive segments 100 ms apart), reaching 1 once the delay and duration have passed | not executed | Animation.EntranceFrozen | Animation.EntranceProgress |
