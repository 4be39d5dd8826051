/** Sector angles and the angular hit test `findHoveredSegment`, shared
    verbatim by the plain, the animated and the portfolio charts. A
    segment's sector sweeps `percentage / 100 * 2 * PI`; sectors are laid
    end to end from angle zero, in declaration order, with no
    renormalisation of the percentages. */
module Sectors {
  import opened Wrappers
  import opened Geometry

  /** The angle a segment of the given percentage sweeps. */
  function SegmentAngle(percentage: real): real {
    percentage / 100.0 * 2.0 * Pi
  }

  /** The angle at which sector `i` starts: the sweeps of the segments
      before it, accumulated from zero. `StartAngle(ps, |ps|)` is where the
      last sector ends. */
  function StartAngle(ps: seq<real>, i: nat): real
    requires i <= |ps|
  {
    if i == 0 then 0.0 else StartAngle(ps, i - 1) + SegmentAngle(ps[i - 1])
  }

  /** Sector `i` covers the half-open interval `[start, end)`. */
  predicate InSector(ps: seq<real>, i: nat, angle: real)
    requires i < |ps|
  {
    StartAngle(ps, i) <= angle < StartAngle(ps, i + 1)
  }

  function Sum(ps: seq<real>): real {
    if |ps| == 0 then 0.0 else Sum(ps[..|ps| - 1]) + ps[|ps| - 1]
  }

  predicate NonNegative(ps: seq<real>) {
    forall i :: 0 <= i < |ps| ==> 0.0 <= ps[i]
  }

  /** The loop of `findHoveredSegment` from index `i` on, with `start` the
      running start angle it carries. */
  function Scan(ps: seq<real>, angle: real, i: nat, start: real): (r: Option<nat>)
    requires i <= |ps| && start == StartAngle(ps, i)
    ensures r.Some? ==> i <= r.value < |ps| && InSector(ps, r.value, angle)
    ensures r.Some? ==> forall j :: i <= j < r.value ==> !InSector(ps, j, angle)
    ensures r.None? ==> forall j :: i <= j < |ps| ==> !InSector(ps, j, angle)
    decreases |ps| - i
  {
    if i == |ps| then None
    else
      var end := start + SegmentAngle(ps[i]);
      if start <= angle < end then Some(i) else Scan(ps, angle, i + 1, end)
  }

  /** The index of the sector under the (normalised) cursor angle: the
      first sector whose interval contains it, or none. */
  function FindSegment(ps: seq<real>, angle: real): (r: Option<nat>)
    ensures r.Some? ==> r.value < |ps| && InSector(ps, r.value, angle)
    ensures r.Some? ==> forall j :: 0 <= j < r.value ==> !InSector(ps, j, angle)
    ensures r.None? <==> forall j :: 0 <= j < |ps| ==> !InSector(ps, j, angle)
  {
    Scan(ps, angle, 0, 0.0)
  }

  /** `findHoveredSegment(x, y, segments, dimensions)`, with `raw` the value
      `Math.atan2(y - centerY, x - centerX)` would return. */
  function HitTest(d: Dimensions, ps: seq<real>, x: real, y: real, raw: real): (r: Option<nat>)
    requires -Pi <= raw <= Pi
    ensures !InRing(d, x, y) ==> r == None
    ensures r.Some? ==> r.value < |ps| && InSector(ps, r.value, NormalizeAngle(raw))
    ensures r.Some? ==> forall j :: 0 <= j < r.value ==> !InSector(ps, j, NormalizeAngle(raw))
    ensures InRing(d, x, y) && r.None? ==>
              forall j :: 0 <= j < |ps| ==> !InSector(ps, j, NormalizeAngle(raw))
  {
    if InRing(d, x, y) then FindSegment(ps, NormalizeAngle(raw)) else None
  }

  // ---------------------------------------------------------------------
  // Properties of the sector layout and the hit test

  /** No renormalisation: the sectors end at the percentage total taken as
      a fraction of 100, whatever that total is. */
  lemma {:induction false} StartAngleIsPrefixSum(ps: seq<real>, n: nat)
    requires n <= |ps|
    ensures StartAngle(ps, n) == SegmentAngle(Sum(ps[..n]))
  {
    if n > 0 {
      StartAngleIsPrefixSum(ps, n - 1);
      assert ps[..n][..n - 1] == ps[..n - 1];
    }
  }

  lemma TotalAngle(ps: seq<real>)
    ensures StartAngle(ps, |ps|) == SegmentAngle(Sum(ps))
  {
    StartAngleIsPrefixSum(ps, |ps|);
    assert ps[..|ps|] == ps;
  }

  /** With non-negative percentages the start angles never decrease. */
  lemma {:induction false} StartAngleMonotone(ps: seq<real>, i: nat, j: nat)
    requires NonNegative(ps) && i <= j <= |ps|
    ensures StartAngle(ps, i) <= StartAngle(ps, j)
  {
    if i < j {
      StartAngleMonotone(ps, i, j - 1);
      assert 0.0 <= ps[j - 1];
    }
  }

  /** A segment of zero (or negative) percentage has an empty interval, so
      the hit test never returns it although it is still drawn. */
  lemma ZeroWidthNeverHit(ps: seq<real>, i: nat, angle: real)
    requires i < |ps| && ps[i] <= 0.0
    ensures FindSegment(ps, angle) != Some(i)
  {
  }

  /** Every angle in `[0, end of sector n)` lies in one of the first `n`
      sectors, for any percentages at all. */
  lemma {:induction false} Covered(ps: seq<real>, angle: real, n: nat)
    requires n <= |ps| && 0.0 <= angle < StartAngle(ps, n)
    ensures exists i :: 0 <= i < n && InSector(ps, i, angle)
  {
    if angle < StartAngle(ps, n - 1) {
      Covered(ps, angle, n - 1);
    } else {
      assert InSector(ps, n - 1, angle);
    }
  }

  /** Percentages that sum to 100 cover the whole turn: every angle in
      `[0, 2 * PI)` finds a sector. */
  lemma FullTurnCovered(ps: seq<real>, angle: real)
    requires Sum(ps) == 100.0 && 0.0 <= angle < TwoPi
    ensures FindSegment(ps, angle).Some?
  {
    TotalAngle(ps);
    Covered(ps, angle, |ps|);
  }

  /** Percentages that sum to less than 100 leave a gap: an angle at or
      past the end of the last sector finds nothing. */
  lemma PastLastSectorMisses(ps: seq<real>, angle: real)
    requires NonNegative(ps) && SegmentAngle(Sum(ps)) <= angle
    ensures FindSegment(ps, angle) == None
  {
    TotalAngle(ps);
    forall j | 0 <= j < |ps|
      ensures !InSector(ps, j, angle)
    {
      StartAngleMonotone(ps, j + 1, |ps|);
    }
  }

  /** With non-negative percentages the sectors are pairwise disjoint. */
  lemma SectorsDisjoint(ps: seq<real>, i: nat, j: nat, angle: real)
    requires NonNegative(ps) && i < |ps| && j < |ps|
    requires InSector(ps, i, angle) && InSector(ps, j, angle)
    ensures i == j
  {
    if i < j {
      StartAngleMonotone(ps, i + 1, j);
    } else if j < i {
      StartAngleMonotone(ps, j + 1, i);
    }
  }

  /** With non-negative percentages the hit test returns `i` exactly when
      the angle lies in sector `i`. */
  lemma FindSegmentExact(ps: seq<real>, i: nat, angle: real)
    requires NonNegative(ps) && i < |ps|
    ensures FindSegment(ps, angle) == Some(i) <==> InSector(ps, i, angle)
  {
    var r := FindSegment(ps, angle);
    if InSector(ps, i, angle) {
      assert r.Some?;
      SectorsDisjoint(ps, r.value, i, angle);
    }
  }

  /** The middle of the start and end of a sector. */
  function MidAngle(ps: seq<real>, i: nat): real
    requires i < |ps|
  {
    StartAngle(ps, i) + SegmentAngle(ps[i]) / 2.0
  }

  /** Round trip: the mid-angle of a segment with positive percentage hits
      that very segment. */
  lemma MidAngleHitsSegment(ps: seq<real>, i: nat)
    requires NonNegative(ps) && i < |ps| && 0.0 < ps[i]
    ensures FindSegment(ps, MidAngle(ps, i)) == Some(i)
  {
    FindSegmentExact(ps, i, MidAngle(ps, i));
  }
}
