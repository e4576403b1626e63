/**
 * Geometry of the angle chart: points in domain units, the viewport
 * [0, AxisRange] x [0, YMax], and the clamp of a ray from the origin to the
 * edge of that viewport.
 */
module Geometry {

  /** A point in domain (data) coordinates. */
  datatype Point = Point(x: real, y: real)

  const Origin: Point := Point(0.0, 0.0)

  /** The component's `axisRange`: the right edge of the viewport, and the
      largest x the curve's control point may reach. */
  const AxisRange: int := 6

  /** The top edge of the viewport used by the end-point clamp. */
  const YMax: real := 12.0

  /** Upper ends of the domains of the two linear scales (x: [0, 6], y: [0, 12]). */
  const XDomainMax: real := 6.0
  const YDomainMax: real := 12.0

  predicate InViewport(p: Point) {
    0.0 <= p.x <= AxisRange as real && 0.0 <= p.y <= YMax
  }

  /** `p` lies on the ray from the origin through the direction `(x, y)`. */
  predicate OnRay(p: Point, x: real, y: real) {
    p.y * x == p.x * y
  }

  /**
   * `calculateLineEndPoint`: the point where the ray from the origin in the
   * direction (x, y) leaves the viewport, found on the right edge when the
   * ray crosses it at or below the top, and on the top edge otherwise.
   */
  function LineEndPoint(x: real, y: real): (r: Point)
    requires x > 0.0
    ensures OnRay(r, x, y) && r.x > 0.0
    ensures (r.x == AxisRange as real && r.y <= YMax) || (r.y == YMax && r.x < AxisRange as real)
    ensures y >= 0.0 ==> InViewport(r)
    ensures y > 0.0 ==> r.y > 0.0
  {
    var slope := y / x;
    var xMax := AxisRange as real;
    var yAtXMax := slope * xMax;
    if yAtXMax <= YMax then
      Point(xMax, yAtXMax)
    else
      assert slope > 0.0;
      var xAtYMax := YMax / slope;
      assert xAtYMax * slope == YMax;
      Point(xAtYMax, YMax)
  }

  /** The result depends only on the direction of (x, y), not on its length. */
  lemma LineEndPointScaleInvariant(x: real, y: real, k: real)
    requires x > 0.0 && k > 0.0
    ensures LineEndPoint(k * x, k * y) == LineEndPoint(x, y)
  {
    assert (k * y) / (k * x) == y / x by {
      assert (y / x) * (k * x) == k * y;
    }
  }

  /** Clamping a point that is already the exit point of its own ray gives it back. */
  lemma LineEndPointIdempotent(x: real, y: real)
    requires x > 0.0
    ensures var r := LineEndPoint(x, y); LineEndPoint(r.x, r.y) == r
  {
    var r := LineEndPoint(x, y);
    var k := r.x / x;
    assert r.x == k * x;
    assert r.y == k * y by {
      assert r.y * x == (k * y) * x;
    }
    LineEndPointScaleInvariant(x, y, k);
  }

  /**
   * For a direction in the first quadrant, the exit point is the farthest
   * point of the ray inside the viewport: every point t * (x, y) of the ray
   * that is still inside lies between the origin and the exit point.
   */
  lemma LineEndPointIsFarthest(x: real, y: real, t: real)
    requires x > 0.0 && y >= 0.0 && t >= 0.0
    requires InViewport(Point(t * x, t * y))
    ensures var r := LineEndPoint(x, y); t * x <= r.x && t * y <= r.y
  {
    var r := LineEndPoint(x, y);
    var k := r.x / x;
    assert r.x == k * x;
    assert r.y == k * y by {
      assert r.y * x == (k * y) * x;
    }
    if r.x == AxisRange as real {
      assert t <= k;
    } else {
      assert t * y <= k * y;
    }
  }

  /** `Math.max(lo, Math.min(hi, v))`. */
  function Clamp(lo: real, hi: real, v: real): (r: real)
    requires lo <= hi
    ensures lo <= r <= hi
    ensures lo <= v <= hi ==> r == v
    ensures v < lo ==> r == lo
    ensures v > hi ==> r == hi
  {
    if lo > (if hi < v then hi else v) then lo else if hi < v then hi else v
  }

  /**
   * The candidate end point of a dragged ray: the raw end point
   * (start + length * (cos, sin) of the pointer direction) clamped to the
   * domains of the two scales, then clamped to the viewport edge.
   */
  function CandidateEnd(raw: Point): (r: Point)
    requires raw.x > 0.0
    ensures InViewport(r)
    ensures (r.x == AxisRange as real && r.y <= YMax) || (r.y == YMax && r.x < AxisRange as real)
    ensures OnRay(r, Clamp(0.0, XDomainMax, raw.x), Clamp(0.0, YDomainMax, raw.y))
  {
    var newEndX := Clamp(0.0, XDomainMax, raw.x);
    var newEndY := Clamp(0.0, YDomainMax, raw.y);
    LineEndPoint(newEndX, newEndY)
  }
}
