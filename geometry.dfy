/** The polar-coordinate helpers of the mindmap (src/mindmap/mod.rs). The
    f32 values are idealised as reals, and the math library (`cos`, `sin`,
    `sqrt`, `atan2`) is a parameter about which only the facts in
    `Math.Valid` are known. */
module Geometry {

  /** The math library functions the mindmap calls. */
  datatype Math = Math(cos: real -> real, sin: real -> real, sqrt: real -> real, atan2: (real, real) -> real)
  {
    /** What the real functions satisfy: cos 0 = 1, sin 0 = 0,
        cos² + sin² = 1, the square root of a non-negative number is its
        non-negative root (that of 0 is 0 and that of 1 is 1), and `atan2(y, x)` is the angle of the point
        (x, y) as seen from the origin. */
    ghost predicate Valid() {
      && cos(0.0) == 1.0 && sin(0.0) == 0.0
      && (forall a {:trigger SumOfSquares(cos(a), sin(a))} :: SumOfSquares(cos(a), sin(a)) == 1.0)
      && sqrt(0.0) == 0.0 && sqrt(1.0) == 1.0
      && (forall x :: 0.0 <= x ==> 0.0 <= sqrt(x) && sqrt(x) * sqrt(x) == x)
      && (forall y, x :: sqrt(SumOfSquares(x, y)) * cos(atan2(y, x)) == x && sqrt(SumOfSquares(x, y)) * sin(atan2(y, x)) == y)
    }
  }

  /** x² + y², the squared length of the vector (x, y). */
  function SumOfSquares(x: real, y: real): (s: real)
    ensures 0.0 <= s
  {
    SquareNonNegative(x);
    SquareNonNegative(y);
    x * x + y * y
  }

  /** `std::f32::consts::PI`, the f32 nearest to π, written out exactly. */
  const Pi: real := 3.1415927410125732421875

  /** `FOOT_LENGTH_R_FRACTION`: a foot is 1.5 times the node radius long. */
  const FootLengthRadiusFraction: real := 1.5

  /** `f32::to_radians`: the angle times π/180. */
  function ToRadians(degrees: real): (radians: real)
    ensures degrees == 180.0 ==> radians == Pi
    ensures degrees == 0.0 ==> radians == 0.0
  {
    degrees * (Pi / 180.0)
  }

  /** `polar_to_cartesian`: the point at `radius` from (cx, cy) in the
      direction `angle` (radians). */
  function PolarToCartesian(m: Math, radius: real, angle: real, cx: real, cy: real): (p: (real, real)) {
    (radius * m.cos(angle) + cx, radius * m.sin(angle) + cy)
  }

  /** `cartesian_to_polar`: the distance and the direction (radians) of
      (px, py) as seen from (cx, cy). */
  function CartesianToPolar(m: Math, cx: real, cy: real, px: real, py: real): (rt: (real, real)) {
    var dx := px - cx;
    var dy := py - cy;
    (m.sqrt(SumOfSquares(dx, dy)), m.atan2(dy, dx))
  }

  /** The square of the distance between two points. */
  function SquaredDistance(p: (real, real), q: (real, real)): real {
    SumOfSquares(p.0 - q.0, p.1 - q.1)
  }

  /** A polar point lies on the circle of its radius about the centre. */
  lemma PolarDistance(m: Math, radius: real, angle: real, cx: real, cy: real)
    requires m.Valid()
    ensures SquaredDistance(PolarToCartesian(m, radius, angle, cx, cy), (cx, cy)) == radius * radius
  {
    var c := m.cos(angle);
    var s := m.sin(angle);
    var p := PolarToCartesian(m, radius, angle, cx, cy);
    assert p.0 - cx == radius * c && p.1 - cy == radius * s;
    ScaledUnit(radius, c, s);
  }

  /** A unit vector scaled by `k` has squared length k². */
  lemma ScaledUnit(k: real, c: real, s: real)
    requires SumOfSquares(c, s) == 1.0
    ensures SumOfSquares(k * c, k * s) == k * k
  {
    calc {
      SumOfSquares(k * c, k * s);
      (k * c) * (k * c) + (k * s) * (k * s);
      k * k * (c * c + s * s);
      k * k;
    }
  }

  /** Direction 0 points along the x axis. */
  lemma PolarAlongX(m: Math, radius: real, cx: real, cy: real)
    requires m.Valid()
    ensures PolarToCartesian(m, radius, 0.0, cx, cy) == (cx + radius, cy)
  {
  }

  /** The distance found is the non-negative root of the squared distance. */
  lemma CartesianDistance(m: Math, cx: real, cy: real, px: real, py: real)
    requires m.Valid()
    ensures CartesianToPolar(m, cx, cy, px, py).0 >= 0.0
    ensures CartesianToPolar(m, cx, cy, px, py).0 * CartesianToPolar(m, cx, cy, px, py).0
      == SquaredDistance((px, py), (cx, cy))
  {
    var d := SumOfSquares(px - cx, py - cy);
    assert CartesianToPolar(m, cx, cy, px, py).0 == m.sqrt(d);
    assert SquaredDistance((px, py), (cx, cy)) == d;
  }

  /** Going back from polar to Cartesian coordinates gives the point again. */
  lemma CartesianRoundTrip(m: Math, cx: real, cy: real, px: real, py: real)
    requires m.Valid()
    ensures PolarToCartesian(m, CartesianToPolar(m, cx, cy, px, py).0, CartesianToPolar(m, cx, cy, px, py).1, cx, cy)
      == (px, py)
  {
    var dx := px - cx;
    var dy := py - cy;
    AngleOf(m, dx, dy);
    RoundTripStep(m, cx, cy, px, py, m.sqrt(SumOfSquares(dx, dy)), m.atan2(dy, dx));
  }

  /** The instance of the `atan2` fact for the vector (x, y). */
  lemma AngleOf(m: Math, x: real, y: real)
    requires m.Valid()
    ensures m.sqrt(SumOfSquares(x, y)) * m.cos(m.atan2(y, x)) == x
    ensures m.sqrt(SumOfSquares(x, y)) * m.sin(m.atan2(y, x)) == y
  {
  }

  lemma RoundTripStep(m: Math, cx: real, cy: real, px: real, py: real, r: real, theta: real)
    requires CartesianToPolar(m, cx, cy, px, py) == (r, theta)
    requires r * m.cos(theta) == px - cx && r * m.sin(theta) == py - cy
    ensures PolarToCartesian(m, r, theta, cx, cy) == (px, py)
  {
    var p := PolarToCartesian(m, r, theta, cx, cy);
    assert p.0 == px;
    assert p.1 == py;
  }

  lemma SquareNonNegative(x: real)
    ensures 0.0 <= x * x
  {
    if x < 0.0 {
      assert x * x == (-x) * (-x);
    }
  }
}
