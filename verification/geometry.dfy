/** Chart geometry shared by every donut variant: the dimensions derived
    from the drawing surface, the open-ring membership test and the
    normalisation of the cursor angle. The square root of the distance
    is never taken; ring membership compares squared distances instead,
    and the raw `atan2` angle is an input. */
module Geometry {

  /** JavaScript's `Math.PI`, written as the decimal the engine prints. */
  const Pi: real := 3.141592653589793

  /** One full turn, `2 * Math.PI`. */
  const TwoPi: real := 2.0 * Pi

  /** What `getChartDimensions` returns, without the bounding rectangle,
      which is only used to clear the canvas. */
  datatype Dimensions = Dimensions(
    dpr: real,
    centerX: real,
    centerY: real,
    radius: real,
    innerRadius: real,
    outerArcRadius: real)

  function Min(a: real, b: real): real {
    if a <= b then a else b
  }

  function Abs(a: real): real {
    if a < 0.0 then -a else a
  }

  /** The chart dimensions of a surface `width` by `height` pixels, with
      `reportedDpr` standing for `window.devicePixelRatio` (zero stands for
      a missing or falsy ratio, which falls back to 1) and `thickness`
      the donut thickness ratio. */
  function ChartDimensions(width: real, height: real, reportedDpr: real, thickness: real): (d: Dimensions)
    ensures d.dpr != 0.0 && (reportedDpr != 0.0 ==> d.dpr == reportedDpr)
    ensures d.centerX * 2.0 == width && d.centerY * 2.0 == height
    // the outer radius is 70% of the half of the shorter side
    ensures d.radius == 0.7 * Min(width, height) / 2.0
    ensures 0.0 <= width && 0.0 <= height ==>
              0.0 <= d.radius && d.radius <= 0.7 * d.centerX && d.radius <= 0.7 * d.centerY
    // the ring is `thickness` of the outer radius wide
    ensures d.radius - d.innerRadius == thickness * d.radius
    ensures 0.0 <= width && 0.0 <= height && 0.0 <= thickness <= 1.0 ==>
              0.0 <= d.innerRadius <= d.radius
    // the highlight arc lies 10% outside the outer radius
    ensures d.outerArcRadius - d.radius == 0.1 * d.radius
    ensures 0.0 <= width && 0.0 <= height ==> d.radius <= d.outerArcRadius
    ensures 0.0 < width && 0.0 < height && 0.0 < thickness < 1.0 ==>
              0.0 < d.innerRadius < d.radius < d.outerArcRadius
  {
    var centerX := width / 2.0;
    var centerY := height / 2.0;
    var radius := Min(centerX, centerY) * 0.7;
    ScaleWithin(radius, 1.0 - thickness);
    ProperFraction(radius, 1.0 - thickness);
    Dimensions(
      if reportedDpr == 0.0 then 1.0 else reportedDpr,
      centerX,
      centerY,
      radius,
      radius * (1.0 - thickness),
      radius * 1.1)
  }

  /** Scaling a non-negative length by a factor in `[0, 1]` keeps it
      between zero and the length. */
  lemma ScaleWithin(r: real, f: real)
    ensures 0.0 <= r && 0.0 <= f <= 1.0 ==> 0.0 <= r * f <= r
  {
    if 0.0 <= r && 0.0 <= f <= 1.0 {
      assert r - r * f == r * (1.0 - f);
    }
  }

  lemma ProperFraction(r: real, f: real)
    ensures 0.0 < r && 0.0 < f < 1.0 ==> 0.0 < r * f < r
  {
    if 0.0 < r && 0.0 < f < 1.0 {
      assert r - r * f == r * (1.0 - f);
      ProductSign(r, 1.0 - f);
      ProductSign(r, f);
    }
  }

  /** Squared distance of the cursor `(x, y)` from the chart centre. */
  function DistanceSquared(d: Dimensions, x: real, y: real): (q: real)
    ensures 0.0 <= q
  {
    (x - d.centerX) * (x - d.centerX) + (y - d.centerY) * (y - d.centerY)
  }

  /** `distance > innerRadius && distance < radius`, decided on the squared
      distance: a negative inner radius is below every distance, and a
      non-positive outer radius is above none. */
  predicate InRing(d: Dimensions, x: real, y: real) {
    var q := DistanceSquared(d, x, y);
    && (d.innerRadius < 0.0 || d.innerRadius * d.innerRadius < q)
    && 0.0 < d.radius
    && q < d.radius * d.radius
  }

  lemma ProductSign(x: real, y: real)
    requires 0.0 <= x && 0.0 <= y
    ensures 0.0 <= x * y
    ensures 0.0 < x && 0.0 < y ==> 0.0 < x * y
  {
  }

  lemma SquareStrictlyMonotone(a: real, b: real)
    requires 0.0 <= a && 0.0 <= b
    ensures a < b <==> a * a < b * b
  {
    var gap, span := b - a, b + a;
    assert b * b - a * a == gap * span;
    if a < b {
      assert 0.0 < gap && 0.0 < span;
      ProductSign(gap, span);
    } else {
      ProductSign(-gap, span);
      assert -gap * span == -(gap * span);
    }
  }

  /** The squared test decides exactly the open ring `(innerRadius, radius)`
      for the true distance `dist` of the cursor from the centre, so both
      ring boundaries are excluded. */
  lemma InRingIsOpenRing(d: Dimensions, x: real, y: real, dist: real)
    requires 0.0 <= dist && dist * dist == DistanceSquared(d, x, y)
    ensures InRing(d, x, y) <==> d.innerRadius < dist < d.radius
  {
    if 0.0 <= d.innerRadius {
      SquareStrictlyMonotone(d.innerRadius, dist);
    }
    if 0.0 <= d.radius {
      SquareStrictlyMonotone(dist, d.radius);
    }
  }

  /** The angle of `Math.atan2`, whose range is `[-Pi, Pi]`, moved into a
      single turn by adding a full turn when it is negative. */
  function NormalizeAngle(raw: real): (a: real)
    requires -Pi <= raw <= Pi
    ensures 0.0 <= a < TwoPi
    // the same direction: the angle moved by zero or one full turn
    ensures a == raw || a == raw + TwoPi
  {
    if raw < 0.0 then raw + TwoPi else raw
  }
}
