/**
 * Waypoint-to-motion conversion (geometry.py).
 *
 * The square root, arctangent and radians-to-degrees conversion come from the
 * firmware's `umath` module. They are passed in as a record of functions; the
 * lemmas state the few laws they rely on (`Laws`) as preconditions, over exact
 * reals, so floating-point rounding is not modelled.
 */
module Geometry {

  /** The `umath` functions the geometry calls, and the value of pi they agree on. */
  datatype Umath = Umath(sqrt: real -> real, atan2: (real, real) -> real, degrees: real -> real, pi: real)

  /**
   * The laws assumed of `umath`: `sqrt` is the non-negative square root,
   * `atan2(y, x)` lies in (-pi, pi] and takes its textbook values on the axes,
   * and `degrees` scales radians by 180 / pi.
   */
  ghost predicate Laws(m: Umath)
  {
    && 3.14 < m.pi < 3.15
    && (forall v :: 0.0 <= v ==> 0.0 <= m.sqrt(v) && m.sqrt(v) * m.sqrt(v) == v)
    && (forall d :: 0.0 <= d ==> m.sqrt(Square(d)) == d)
    && (forall y, x :: -m.pi < m.atan2(y, x) <= m.pi)
    && (forall x :: 0.0 < x ==> m.atan2(0.0, x) == 0.0)
    && (forall x :: x < 0.0 ==> m.atan2(0.0, x) == m.pi)
    && (forall y :: 0.0 < y ==> m.atan2(y, 0.0) == m.pi / 2.0)
    && (forall y :: y < 0.0 ==> m.atan2(y, 0.0) == -m.pi / 2.0)
    && (forall r :: m.degrees(r) == r * 180.0 / m.pi)
  }

  /** `v ** 2`. */
  function Square(v: real): (r: real)
  {
    v * v
  }

  /** A motion command in polar form: the heading to face and the distance to drive. */
  datatype Trajectory = Trajectory(heading: real, distance: real)

  /**
   * `compute_trajectory`: the heading and distance that take the robot from
   * (x0, y0) to (x1, y1). The arguments of `atan2` are (dx, dy), in that order,
   * so the heading is measured from the +y axis. Under the `umath` laws the
   * distance is the Euclidean length of the offset and the heading an angle in
   * (-180, 180].
   */
  function ComputeTrajectory(m: Umath, x0: real, y0: real, x1: real, y1: real): (t: Trajectory)
    ensures Laws(m) ==> t.distance >= 0.0
    ensures Laws(m) ==> t.distance * t.distance == Square(x1 - x0) + Square(y1 - y0)
    ensures Laws(m) ==> -180.0 < t.heading <= 180.0
  {
    var a := x1 - x0;
    var b := y1 - y0;
    var t := Trajectory(m.degrees(m.atan2(a, b)), m.sqrt(Square(a) + Square(b)));
    assert Laws(m) ==> t.distance >= 0.0 && t.distance * t.distance == Square(a) + Square(b) by {
      if Laws(m) {
        SquareNonNegative(a);
        SquareNonNegative(b);
      }
    }
    assert Laws(m) ==> -180.0 < t.heading <= 180.0 by {
      if Laws(m) {
        var r := m.atan2(a, b);
        assert -m.pi < r <= m.pi;
        assert m.degrees(r) == r * (180.0 / m.pi);
        assert 180.0 / m.pi > 0.0;
        assert -m.pi * (180.0 / m.pi) == -180.0;
        assert m.pi * (180.0 / m.pi) == 180.0;
      }
    }
    t
  }

  function Abs(v: real): (r: real)
    ensures r >= 0.0 && (r == v || r == -v)
  {
    if v < 0.0 then -v else v
  }

  lemma SquareNonNegative(v: real)
    ensures Square(v) >= 0.0
  {
  }

  lemma SquareOfNegation(v: real)
    ensures Square(-v) == Square(v)
  {
  }

  /** The distance is the Euclidean length of the offset: never negative, and its square is dx² + dy². */
  lemma DistanceIsLength(m: Umath, x0: real, y0: real, x1: real, y1: real)
    requires Laws(m)
    ensures var t := ComputeTrajectory(m, x0, y0, x1, y1);
      && t.distance >= 0.0
      && t.distance * t.distance == Square(x1 - x0) + Square(y1 - y0)
  {
  }

  /** Driving to the point the robot is already at is a distance of zero. */
  lemma DistanceZeroAtStart(m: Umath, x: real, y: real)
    requires Laws(m)
    ensures ComputeTrajectory(m, x, y, x, y).distance == 0.0
  {
    assert Square(0.0) == 0.0;
    assert m.sqrt(Square(0.0)) == 0.0;
  }

  /** Only the offset matters: moving both points by the same amount changes nothing. */
  lemma TranslationInvariant(m: Umath, x0: real, y0: real, x1: real, y1: real, dx: real, dy: real)
    ensures ComputeTrajectory(m, x0 + dx, y0 + dy, x1 + dx, y1 + dy) == ComputeTrajectory(m, x0, y0, x1, y1)
  {
    assert (x1 + dx) - (x0 + dx) == x1 - x0;
    assert (y1 + dy) - (y0 + dy) == y1 - y0;
  }

  /** Going back from the target to the start covers the same distance. */
  lemma SwapKeepsDistance(m: Umath, x0: real, y0: real, x1: real, y1: real)
    ensures ComputeTrajectory(m, x1, y1, x0, y0).distance == ComputeTrajectory(m, x0, y0, x1, y1).distance
  {
    SquareOfNegation(x1 - x0);
    SquareOfNegation(y1 - y0);
    assert x0 - x1 == -(x1 - x0) && y0 - y1 == -(y1 - y0);
  }

  /** The heading is an angle in (-180, 180]. */
  lemma HeadingRange(m: Umath, x0: real, y0: real, x1: real, y1: real)
    requires Laws(m)
    ensures -180.0 < ComputeTrajectory(m, x0, y0, x1, y1).heading <= 180.0
  {
  }

  /**
   * Headings along the axes: straight up the field (+y) is 0, +x is 90,
   * -y is 180 and -x is -90, because `atan2` is given (dx, dy).
   */
  lemma HeadingOnAxes(m: Umath, x0: real, y0: real, x1: real, y1: real)
    requires Laws(m)
    ensures x1 == x0 && y1 > y0 ==> ComputeTrajectory(m, x0, y0, x1, y1).heading == 0.0
    ensures x1 > x0 && y1 == y0 ==> ComputeTrajectory(m, x0, y0, x1, y1).heading == 90.0
    ensures x1 == x0 && y1 < y0 ==> ComputeTrajectory(m, x0, y0, x1, y1).heading == 180.0
    ensures x1 < x0 && y1 == y0 ==> ComputeTrajectory(m, x0, y0, x1, y1).heading == -90.0
  {
    assert m.pi / 2.0 * 180.0 / m.pi == 90.0;
    assert -m.pi / 2.0 * 180.0 / m.pi == -90.0;
    assert m.pi * 180.0 / m.pi == 180.0;
  }

  /** Along an axis the distance is the length of the move. */
  lemma DistanceOnAxes(m: Umath, x0: real, y0: real, x1: real, y1: real)
    requires Laws(m)
    ensures x1 == x0 ==> ComputeTrajectory(m, x0, y0, x1, y1).distance == Abs(y1 - y0)
    ensures y1 == y0 ==> ComputeTrajectory(m, x0, y0, x1, y1).distance == Abs(x1 - x0)
  {
    assert Square(0.0) == 0.0;
    SquareOfNegation(x1 - x0);
    SquareOfNegation(y1 - y0);
    assert Square(Abs(x1 - x0)) == Square(x1 - x0);
    assert Square(Abs(y1 - y0)) == Square(y1 - y0);
  }
}
