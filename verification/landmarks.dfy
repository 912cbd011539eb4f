/**
 Shared geometry of the aiming pipeline: normalised landmarks as the hand and
 pose estimators report them, integer pixel points, and Python's `int()`
 conversion from a real coordinate to a pixel.
 */
module Landmarks {

  /** A normalised keypoint; (0, 0) is the top-left corner of the frame and y grows downward. */
  datatype Landmark = Landmark(x: real, y: real)

  /** An integer pixel position, or a difference of two of them. */
  datatype Point = Point(x: int, y: int)

  /** The estimator's nominal range: both coordinates inside the unit square. */
  predicate Normalised(l: Landmark)
  {
    0.0 <= l.x <= 1.0 && 0.0 <= l.y <= 1.0
  }

  /** Python's `int(v)` on a float: truncation toward zero, for either sign. */
  function Trunc(v: real): (n: int)
    ensures 0.0 <= v ==> n as real <= v < n as real + 1.0
    ensures v < 0.0 ==> n as real - 1.0 < v <= n as real
  {
    if v >= 0.0 then v.Floor else -((-v).Floor)
  }

  /** `(int(l.x * width), int(l.y * height))`: a landmark de-normalised to a pixel. */
  function ToPixel(l: Landmark, width: nat, height: nat): (p: Point)
    ensures 0.0 <= l.x ==> p.x as real <= l.x * width as real < p.x as real + 1.0
    ensures 0.0 <= l.y ==> p.y as real <= l.y * height as real < p.y as real + 1.0
    ensures l.x < 0.0 ==> p.x as real - 1.0 < l.x * width as real <= p.x as real
    ensures l.y < 0.0 ==> p.y as real - 1.0 < l.y * height as real <= p.y as real
  {
    Point(Trunc(l.x * width as real), Trunc(l.y * height as real))
  }

  /** A coordinate in [0, 1] scaled by a frame dimension truncates into [0, dimension]. */
  lemma ScaledCoordinateInRange(v: real, size: nat)
    requires 0.0 <= v <= 1.0
    ensures 0 <= Trunc(v * size as real) <= size
  {
    var s := size as real;
    ProductNonNegative(v, s);
    ProductNonNegative(1.0 - v, s);
    assert (1.0 - v) * s == s - v * s;
  }

  /** The product of two non-negative reals is non-negative. */
  lemma ProductNonNegative(a: real, b: real)
    requires 0.0 <= a && 0.0 <= b
    ensures 0.0 <= a * b
  {
  }

  /** A normalised landmark lands inside the frame once de-normalised. */
  lemma ToPixelInFrame(l: Landmark, width: nat, height: nat)
    requires Normalised(l)
    ensures 0 <= ToPixel(l, width, height).x <= width
    ensures 0 <= ToPixel(l, width, height).y <= height
  {
    ScaledCoordinateInRange(l.x, width);
    ScaledCoordinateInRange(l.y, height);
  }
}
