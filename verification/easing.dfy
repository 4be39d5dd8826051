/** The easing curves of `applyEasing`: maps from linear progress to eased
    progress, selected by name, with the cubic `ease` curve as the
    fallback for every name the switch does not list. */
module Easing {
  import opened Geometry

  datatype Curve = Linear | EaseIn | EaseOut | EaseInOut | Bounce | Ease

  /** The curve the `switch` on the easing name selects. */
  function CurveNamed(name: string): (c: Curve)
    ensures c == Linear <==> name == "linear"
    ensures c == EaseIn <==> name == "ease-in"
    ensures c == EaseOut <==> name == "ease-out"
    ensures c == EaseInOut <==> name == "ease-in-out"
    ensures c == Bounce <==> name == "bounce"
    // 'ease' itself and every unknown name fall through to the default
    ensures c == Ease <==>
              name != "linear" && name != "ease-in" && name != "ease-out"
              && name != "ease-in-out" && name != "bounce"
  {
    if name == "linear" then Linear
    else if name == "ease-in" then EaseIn
    else if name == "ease-out" then EaseOut
    else if name == "ease-in-out" then EaseInOut
    else if name == "bounce" then Bounce
    else Ease
  }

  function Square(x: real): real { x * x }

  function Cube(x: real): real { x * x * x }

  /** One arch of the bounce curve: a parabola of curvature 7.5625
      (which is 2.75 squared) whose lowest point `lift` lies at `centre`. */
  function BounceArch(centre: real, lift: real, p: real): real {
    7.5625 * Square(p - centre) + lift
  }

  /** The arches of the bounce curve, one per interval between the
      breakpoints 1/2.75, 2/2.75 and 2.5/2.75. */
  function Arch1(p: real): real { BounceArch(0.0, 0.0, p) }
  function Arch2(p: real): real { BounceArch(1.5 / 2.75, 0.75, p) }
  function Arch3(p: real): real { BounceArch(2.25 / 2.75, 0.9375, p) }
  function Arch4(p: real): real { BounceArch(2.625 / 2.75, 0.984375, p) }

  /** `applyEasing(progress, easing)` for the curve the name selects. */
  function Apply(c: Curve, p: real): real {
    match c
    case Linear => p
    case EaseIn => Square(p)
    case EaseOut => 1.0 - Square(1.0 - p)
    case EaseInOut =>
      if p < 0.5 then 2.0 * Square(p) else 1.0 - Square(-2.0 * p + 2.0) / 2.0
    case Bounce =>
      if p < 1.0 / 2.75 then Arch1(p)
      else if p < 2.0 / 2.75 then Arch2(p)
      else if p < 2.5 / 2.75 then Arch3(p)
      else Arch4(p)
    case Ease =>
      if p < 0.5 then 4.0 * Cube(p) else 1.0 - Cube(-2.0 * p + 2.0) / 2.0
  }

  // ---------------------------------------------------------------------
  // Arithmetic helpers

  lemma SquareNonNegative(x: real)
    ensures 0.0 <= x * x
  {
    if x < 0.0 {
      assert x * x == (-x) * (-x);
    }
  }

  lemma MulMonotone(a: real, b: real, c: real)
    requires 0.0 <= a && b <= c
    ensures a * b <= a * c
  {
    assert a * c - a * b == a * (c - b);
  }

  /** A value within `[-b, b]` scaled by a non-negative `w` stays within
      `[-b w, b w]`. */
  lemma ScaleInterval(x: real, b: real, w: real)
    requires -b <= x <= b && 0.0 <= w
    ensures -(b * w) <= x * w <= b * w
  {
    MulMonotone(w, x, b);
    MulMonotone(w, -b, x);
  }

  /** A value within `[-b, b]` scaled by any `k` stays within
      `|k|` times that interval. */
  lemma ScaleBound(k: real, x: real, b: real)
    requires -b <= x <= b
    ensures -(Abs(k) * b) <= k * x <= Abs(k) * b
  {
    if 0.0 <= k {
      ScaleInterval(x, b, k);
    } else {
      ScaleInterval(-x, b, -k);
      assert k * x == (-x) * (-k);
    }
  }

  /** The product of two values within `m` of zero is within `m^2` of
      zero. */
  lemma ProductBound(x: real, y: real, m: real)
    requires -m <= x <= m && -m <= y <= m
    ensures -(m * m) <= x * y <= m * m
  {
    ScaleBound(x, y, m);
    MulMonotone(m, Abs(x), m);
  }

  lemma SquareBound(a: real, m: real)
    requires -m <= a <= m
    ensures 0.0 <= Square(a) <= m * m
  {
    SquareNonNegative(a);
    ProductBound(a, a, m);
  }

  /** The factor `a^2 + ab + b^2` of `a^3 - b^3` is at most `3 m^2` when
      both `a` and `b` are within `m` of zero. */
  lemma CubeFactorBound(a: real, b: real, m: real)
    requires -m <= a <= m && -m <= b <= m
    ensures 0.0 <= a * a + a * b + b * b <= 3.0 * (m * m)
  {
    ProductBound(a, a, m);
    ProductBound(a, b, m);
    ProductBound(b, b, m);
    SquareNonNegative(a);
    SquareNonNegative(b);
    if a * b < 0.0 {
      assert a * a + a * b + b * b == (a + b) * (a + b) - a * b;
      SquareNonNegative(a + b);
    }
  }

  /** Moving by `w` changes a value from `fp` to `fq` by at most `slope`
      per unit. */
  predicate ChangeWithin(fp: real, fq: real, slope: real, w: real) {
    -(slope * w) <= fq - fp <= slope * w
  }

  lemma CubeDifference(a: real, b: real, w: real)
    requires w == a - b
    ensures 4.0 * Cube(a) - 4.0 * Cube(b) == 4.0 * (w * (a * a + a * b + b * b))
  {
  }

  /** A change of exactly `4 d` with `0 <= d <= 3w/4` is a change of at
      most 3 per unit of `w`. */
  lemma QuarterRise(fp: real, fq: real, d: real, w: real)
    requires fq - fp == 4.0 * d && 0.0 <= d <= w * 0.75
    ensures ChangeWithin(fp, fq, 3.0, w)
  {
  }

  /** The cubic `4 x^3` rises by at most 3 per unit while `x` stays
      within 1/2 of zero; `w` is the rise of `x`. */
  lemma CubeStep(a: real, b: real, w: real)
    requires -0.5 <= b <= a <= 0.5 && w == a - b
    ensures ChangeWithin(4.0 * Cube(b), 4.0 * Cube(a), 3.0, w)
  {
    var s := a * a + a * b + b * b;
    CubeFactorBound(a, b, 0.5);
    assert 0.0 <= w * s <= w * 0.75 by {
      MulMonotone(w, 0.0, s);
      MulMonotone(w, s, 0.75);
    }
    CubeDifference(a, b, w);
    QuarterRise(4.0 * Cube(b), 4.0 * Cube(a), w * s, w);
  }

  lemma DifferenceOfSquares(k: real, u: real, v: real, w: real)
    requires w == u - v
    ensures k * Square(u) - k * Square(v) == (k * (u + v)) * w
  {
  }

  /** A parabola `k x^2` between two points within `m` of its centre
      changes by at most `2 |k| m` per unit; `w` is the distance between
      the points. */
  lemma ParabolaRise(k: real, m: real, u: real, v: real, w: real)
    requires -m <= v <= u <= m && w == u - v
    ensures ChangeWithin(k * Square(v), k * Square(u), Abs(k) * (2.0 * m), w)
  {
    DifferenceOfSquares(k, u, v, w);
    ScaleBound(k, u + v, 2.0 * m);
    ScaleInterval(k * (u + v), Abs(k) * (2.0 * m), w);
  }

  /** The rise of `ParabolaRise`, and so of at most `slope` per unit. */
  lemma ParabolaStep(k: real, m: real, slope: real, u: real, v: real, w: real)
    requires -m <= v <= u <= m && w == u - v && Abs(k) * (2.0 * m) <= slope
    ensures ChangeWithin(k * Square(v), k * Square(u), slope, w)
  {
    ParabolaRise(k, m, u, v, w);
    WidenBound(k * Square(v), k * Square(u), Abs(k) * (2.0 * m), slope, w);
  }

  lemma MulMonotoneRight(a: real, b: real, c: real)
    requires a <= b && 0.0 <= c
    ensures a * c <= b * c
  {
    assert b * c - a * c == (b - a) * c;
  }

  /** A change bounded by `a` per unit is bounded by any `slope >= a`. */
  lemma WidenBound(fp: real, fq: real, a: real, slope: real, w: real)
    requires ChangeWithin(fp, fq, a, w) && a <= slope && 0.0 <= w
    ensures ChangeWithin(fp, fq, slope, w)
  {
    MulMonotoneRight(a, slope, w);
    assert a * w <= slope * w;
    assert -(slope * w) <= -(a * w);
  }

  lemma CubeScale(y: real)
    ensures Cube(-2.0 * y) == -8.0 * Cube(y)
  {
  }

  lemma SquareScale(y: real)
    ensures Square(-2.0 * y) == 4.0 * Square(y)
  {
  }

  // ---------------------------------------------------------------------
  // Endpoints, monotonicity and range

  /** Every curve starts at 0 and ends at 1. */
  lemma Endpoints(c: Curve)
    ensures Apply(c, 0.0) == 0.0 && Apply(c, 1.0) == 1.0
  {
  }

  ghost predicate MonotoneOn(c: Curve, lo: real, hi: real) {
    forall p, q :: lo <= p <= q <= hi ==> Apply(c, p) <= Apply(c, q)
  }

  lemma GlueMonotone(c: Curve, a: real, b: real, e: real)
    requires MonotoneOn(c, a, b) && MonotoneOn(c, b, e)
    ensures MonotoneOn(c, a, e)
  {
    forall p, q | a <= p <= q <= e
      ensures Apply(c, p) <= Apply(c, q)
    {
      if p <= b <= q {
        assert Apply(c, p) <= Apply(c, b) <= Apply(c, q);
      }
    }
  }

  lemma SquareMonotone(p: real, q: real)
    requires 0.0 <= p <= q
    ensures Square(p) <= Square(q)
  {
    MulMonotone(p, p, q);
    MulMonotone(q, p, q);
  }

  lemma CubeMonotone(p: real, q: real)
    requires 0.0 <= p <= q
    ensures Cube(p) <= Cube(q)
  {
    SquareMonotone(p, q);
    SquareNonNegative(p);
    MulMonotone(Square(p), p, q);
    MulMonotone(q, Square(p), Square(q));
  }

  /** Every curve but the bounce is non-decreasing on `[0, 1]`. */
  lemma Monotone(c: Curve)
    requires c != Bounce
    ensures MonotoneOn(c, 0.0, 1.0)
  {
    match c
    case Linear =>
    case EaseIn =>
      forall p, q | 0.0 <= p <= q <= 1.0 ensures Apply(c, p) <= Apply(c, q) {
        SquareMonotone(p, q);
      }
    case EaseOut =>
      forall p, q | 0.0 <= p <= q <= 1.0 ensures Apply(c, p) <= Apply(c, q) {
        SquareMonotone(1.0 - q, 1.0 - p);
      }
    case EaseInOut =>
      forall p, q | 0.0 <= p <= q <= 0.5 ensures Apply(c, p) <= Apply(c, q) {
        SquareMonotone(p, q);
      }
      forall p, q | 0.5 <= p <= q <= 1.0 ensures Apply(c, p) <= Apply(c, q) {
        SquareMonotone(-2.0 * q + 2.0, -2.0 * p + 2.0);
      }
      GlueMonotone(c, 0.0, 0.5, 1.0);
    case Ease =>
      forall p, q | 0.0 <= p <= q <= 0.5 ensures Apply(c, p) <= Apply(c, q) {
        CubeMonotone(p, q);
      }
      forall p, q | 0.5 <= p <= q <= 1.0 ensures Apply(c, p) <= Apply(c, q) {
        CubeMonotone(-2.0 * q + 2.0, -2.0 * p + 2.0);
      }
      GlueMonotone(c, 0.0, 0.5, 1.0);
  }

  /** The bounce is not monotone: it falls back from 1 at `1/2.75` to 0.75
      at `1.5/2.75` before rising again. */
  lemma BounceDips()
    ensures Apply(Bounce, 1.0 / 2.75) == 1.0
    ensures Apply(Bounce, 1.5 / 2.75) == 0.75
    ensures !MonotoneOn(Bounce, 0.0, 1.0)
  {
  }

  /** Eased progress stays within `[0, 1]` for every curve. */
  lemma InUnitRange(c: Curve, p: real)
    requires 0.0 <= p <= 1.0
    ensures 0.0 <= Apply(c, p) <= 1.0
  {
    if c == Bounce {
      if p < 1.0 / 2.75 {
        SquareBound(p, 1.0 / 2.75);
      } else if p < 2.0 / 2.75 {
        SquareBound(p - 1.5 / 2.75, 0.5 / 2.75);
      } else if p < 2.5 / 2.75 {
        SquareBound(p - 2.25 / 2.75, 0.25 / 2.75);
      } else {
        SquareBound(p - 2.625 / 2.75, 0.125 / 2.75);
      }
    } else {
      Monotone(c);
      Endpoints(c);
      assert Apply(c, 0.0) <= Apply(c, p) <= Apply(c, 1.0);
    }
  }

  // ---------------------------------------------------------------------
  // Continuity

  /** The pieces of the split curves meet where they are joined: at each
      breakpoint the curve's value is also the value of the piece to its
      left, so no piece jumps. */
  lemma InOutPiecesMeet()
    ensures Apply(EaseInOut, 0.5) == 2.0 * Square(0.5)
    ensures Apply(Ease, 0.5) == 4.0 * Cube(0.5)
  {
  }

  lemma BounceArchesMeet()
    ensures Apply(Bounce, 1.0 / 2.75) == Arch1(1.0 / 2.75)
    ensures Apply(Bounce, 2.0 / 2.75) == Arch2(2.0 / 2.75)
    ensures Apply(Bounce, 2.5 / 2.75) == Arch3(2.5 / 2.75)
  {
  }

  /** The largest slope of each curve on `[0, 1]`. */
  function Steepness(c: Curve): real {
    match c
    case Linear => 1.0
    case EaseIn => 2.0
    case EaseOut => 2.0
    case EaseInOut => 2.0
    case Bounce => 5.5
    case Ease => 3.0
  }

  /** The triangle step that joins two neighbouring pieces: slopes bounded
      on `[p, b]` and on `[b, q]` bound the slope on `[p, q]`. */
  lemma GlueStep(fp: real, fb: real, fq: real, p: real, b: real, q: real, slope: real)
    requires p <= b <= q
    requires ChangeWithin(fp, fb, slope, b - p) && ChangeWithin(fb, fq, slope, q - b)
    ensures ChangeWithin(fp, fq, slope, q - p)
  {
    assert slope * (b - p) + slope * (q - b) == slope * (q - p);
  }

  lemma ShiftChange(fp: real, fq: real, lift: real, slope: real, w: real)
    requires ChangeWithin(fp, fq, slope, w)
    ensures ChangeWithin(fp + lift, fq + lift, slope, w)
  {
    assert (fq + lift) - (fp + lift) == fq - fp;
  }

  /** A parabola `k (x - centre)^2 + lift` on an interval within `m` of
      its centre changes by at most `slope` per unit when
      `2 |k| m <= slope`. */
  lemma ParabolaSlope(k: real, centre: real, lift: real, m: real, slope: real, p: real, q: real)
    requires centre - m <= p <= q <= centre + m && Abs(k) * (2.0 * m) <= slope
    ensures ChangeWithin(k * Square(p - centre) + lift, k * Square(q - centre) + lift, slope, q - p)
  {
    ParabolaStep(k, m, slope, q - centre, p - centre, q - p);
    ShiftChange(k * Square(p - centre), k * Square(q - centre), lift, slope, q - p);
  }

  /** The cubic `4 (x - centre)^3 + lift` changes by at most 3 per unit
      within 1/2 of its centre. */
  lemma CubicSlope(centre: real, lift: real, p: real, q: real)
    requires centre - 0.5 <= p <= q <= centre + 0.5
    ensures ChangeWithin(4.0 * Cube(p - centre) + lift, 4.0 * Cube(q - centre) + lift, 3.0, q - p)
  {
    CubeStep(q - centre, p - centre, q - p);
    ShiftChange(4.0 * Cube(p - centre), 4.0 * Cube(q - centre), lift, 3.0, q - p);
  }

  /** The bounce arches by number: arch `i` covers `[ArchStart(i), ArchEnd(i)]`,
      the breakpoints being 1/2.75, 2/2.75 and 2.5/2.75. */
  function ArchStart(i: nat): real {
    if i == 0 then 0.0 else if i == 1 then 1.0 / 2.75 else if i == 2 then 2.0 / 2.75 else 2.5 / 2.75
  }

  function ArchEnd(i: nat): real {
    if i == 0 then 1.0 / 2.75 else if i == 1 then 2.0 / 2.75 else if i == 2 then 2.5 / 2.75 else 1.0
  }

  function ArchCentre(i: nat): real {
    if i == 0 then 0.0 else if i == 1 then 1.5 / 2.75 else if i == 2 then 2.25 / 2.75 else 2.625 / 2.75
  }

  function ArchLift(i: nat): real {
    if i == 0 then 0.0 else if i == 1 then 0.75 else if i == 2 then 0.9375 else 0.984375
  }

  /** The arch a progress value falls in, as the cascade of `if`s picks it. */
  function ArchOf(p: real): (i: nat)
    ensures i < 4
  {
    if p < 1.0 / 2.75 then 0 else if p < 2.0 / 2.75 then 1 else if p < 2.5 / 2.75 then 2 else 3
  }

  /** Each closed interval between breakpoints follows one arch: at the
      right end the next arch takes over with the same value. */
  lemma BounceFollowsArch(i: nat, x: real)
    requires i < 4 && ArchStart(i) <= x <= ArchEnd(i)
    ensures Apply(Bounce, x) == BounceArch(ArchCentre(i), ArchLift(i), x)
  {
    BounceArchesMeet();
  }

  lemma BounceSlopeWithinArch(i: nat, p: real, q: real)
    requires i < 4 && ArchStart(i) <= p <= q <= ArchEnd(i)
    ensures ChangeWithin(Apply(Bounce, p), Apply(Bounce, q), 5.5, q - p)
  {
    BounceFollowsArch(i, p);
    BounceFollowsArch(i, q);
    var m := if i == 0 then 1.0 / 2.75 else ArchEnd(i) - ArchCentre(i);
    ParabolaSlope(7.5625, ArchCentre(i), ArchLift(i), m, 5.5, p, q);
  }

  lemma BounceSlope(p: real, q: real)
    requires 0.0 <= p <= q <= 1.0
    ensures ChangeWithin(Apply(Bounce, p), Apply(Bounce, q), 5.5, q - p)
    decreases 3 - ArchOf(p)
  {
    var i := ArchOf(p);
    if q <= ArchEnd(i) {
      BounceSlopeWithinArch(i, p, q);
    } else {
      var b := ArchEnd(i);
      BounceSlopeWithinArch(i, p, b);
      BounceSlope(b, q);
      GlueStep(Apply(Bounce, p), Apply(Bounce, b), Apply(Bounce, q), p, b, q, 5.5);
    }
  }

  /** Every curve is Lipschitz, hence continuous, on `[0, 1]`: eased
      progress never changes faster than `Steepness(c)` times the change
      of linear progress. The split curves need their pieces to meet. */
  lemma Continuous(c: Curve, p: real, q: real)
    requires 0.0 <= p <= q <= 1.0
    ensures ChangeWithin(Apply(c, p), Apply(c, q), Steepness(c), q - p)
  {
    match c
    case Linear =>
    case EaseIn =>
      EaseInSlope(p, q);
    case EaseOut =>
      EaseOutSlope(p, q);
    case EaseInOut =>
      InOutSlope(p, q);
    case Ease =>
      EaseSlope(p, q);
    case Bounce =>
      BounceSlope(p, q);
  }

  /** Ease-in and ease-out as parabolas about 0 and about 1. */
  lemma QuadraticPieces(x: real)
    ensures Apply(EaseIn, x) == 1.0 * Square(x - 0.0) + 0.0
    ensures Apply(EaseOut, x) == -1.0 * Square(x - 1.0) + 1.0
  {
    assert x - 0.0 == x;
    assert 1.0 - x == -1.0 * (x - 1.0);
  }

  lemma EaseInSlope(p: real, q: real)
    requires 0.0 <= p <= q <= 1.0
    ensures ChangeWithin(Apply(EaseIn, p), Apply(EaseIn, q), 2.0, q - p)
  {
    QuadraticPieces(p);
    QuadraticPieces(q);
    ParabolaSlope(1.0, 0.0, 0.0, 1.0, 2.0, p, q);
  }

  lemma EaseOutSlope(p: real, q: real)
    requires 0.0 <= p <= q <= 1.0
    ensures ChangeWithin(Apply(EaseOut, p), Apply(EaseOut, q), 2.0, q - p)
  {
    QuadraticPieces(p);
    QuadraticPieces(q);
    ParabolaSlope(-1.0, 1.0, 1.0, 1.0, 2.0, p, q);
  }

  /** The pieces of ease-in-out as parabolas about 0 and about 1. */
  lemma InOutPieces(x: real)
    ensures 0.0 <= x <= 0.5 ==> Apply(EaseInOut, x) == 2.0 * Square(x - 0.0) + 0.0
    ensures 0.5 <= x <= 1.0 ==> Apply(EaseInOut, x) == -2.0 * Square(x - 1.0) + 1.0
  {
    InOutPiecesMeet();
    assert x - 0.0 == x;
    assert -2.0 * x + 2.0 == -2.0 * (x - 1.0);
    SquareScale(x - 1.0);
  }

  lemma InOutSlope(p: real, q: real)
    requires 0.0 <= p <= q <= 1.0
    ensures ChangeWithin(Apply(EaseInOut, p), Apply(EaseInOut, q), 2.0, q - p)
  {
    InOutPieces(p);
    InOutPieces(q);
    if q <= 0.5 {
      ParabolaSlope(2.0, 0.0, 0.0, 0.5, 2.0, p, q);
    } else if 0.5 <= p {
      ParabolaSlope(-2.0, 1.0, 1.0, 0.5, 2.0, p, q);
    } else {
      InOutPieces(0.5);
      ParabolaSlope(2.0, 0.0, 0.0, 0.5, 2.0, p, 0.5);
      ParabolaSlope(-2.0, 1.0, 1.0, 0.5, 2.0, 0.5, q);
      GlueStep(Apply(EaseInOut, p), Apply(EaseInOut, 0.5), Apply(EaseInOut, q), p, 0.5, q, 2.0);
    }
  }

  /** The pieces of the cubic `ease` curve as cubics about 0 and about 1. */
  lemma EasePieces(x: real)
    ensures 0.0 <= x <= 0.5 ==> Apply(Ease, x) == 4.0 * Cube(x - 0.0) + 0.0
    ensures 0.5 <= x <= 1.0 ==> Apply(Ease, x) == 4.0 * Cube(x - 1.0) + 1.0
  {
    InOutPiecesMeet();
    assert x - 0.0 == x;
    assert -2.0 * x + 2.0 == -2.0 * (x - 1.0);
    CubeScale(x - 1.0);
  }

  lemma EaseSlope(p: real, q: real)
    requires 0.0 <= p <= q <= 1.0
    ensures ChangeWithin(Apply(Ease, p), Apply(Ease, q), 3.0, q - p)
  {
    EasePieces(p);
    EasePieces(q);
    if q <= 0.5 {
      CubicSlope(0.0, 0.0, p, q);
    } else if 0.5 <= p {
      CubicSlope(1.0, 1.0, p, q);
    } else {
      EasePieces(0.5);
      CubicSlope(0.0, 0.0, p, 0.5);
      CubicSlope(1.0, 1.0, 0.5, q);
      GlueStep(Apply(Ease, p), Apply(Ease, 0.5), Apply(Ease, q), p, 0.5, q, 3.0);
    }
  }
}
