/**
 * The chart component's mutable state: the four rays (`lineData`), updated
 * in place by their drag handlers, and the curve (`curveData`), updated by
 * its own handler. Rendering, hit regions and label formatting are not part
 * of this model.
 */
module ChartComponent {
  import opened Geometry
  import opened Rays
  import opened Curves

  const RayNames: seq<string> := ["Homozygous Max", "Heterozygous Min", "Heterozygous Max", "Homozygous Min"]
  const RayDegrees: seq<real> := [30.0, 50.0, 54.0, 65.0]

  /**
   * The rays `buildAngleInputs` creates, given the unit direction
   * (cos, sin) of each initial angle: each starts at the origin and ends
   * where its direction leaves the viewport.
   */
  function InitialRays(directions: seq<Point>): seq<Segment>
    requires |directions| == RayCount
    requires forall i :: 0 <= i < RayCount ==> directions[i].x > 0.0
  {
    seq(RayCount, i requires 0 <= i < RayCount => InitialRay(i, directions[i]))
  }

  /** Ray `i` as `buildAngleInputs` creates it from the direction of its initial angle. */
  function InitialRay(i: nat, direction: Point): Segment
    requires i < RayCount && direction.x > 0.0
  {
    Segment(RayNames[i], RayDegrees[i], Origin, LineEndPoint(direction.x, direction.y))
  }

  class Chart {
    /** `calculateAngle`: the angle of the segment from its start to its end. */
    const angleOf: (Point, Point) -> real
    const lineData: array<Segment>
    var curveData: Curve

    /** The component's invariant: four rays in strictly increasing angle order, and a reachable curve. */
    ghost predicate Valid()
      reads this, lineData
    {
      && lineData.Length == RayCount
      && StrictlyIncreasing(Angles(angleOf, lineData[..]))
      && CurveShaped(curveData)
    }

    /**
     * Builds the rays from the directions of their initial angles and the
     * initial curve. The initial angles must already be in increasing order.
     */
    constructor (angleOf: (Point, Point) -> real, directions: seq<Point>)
      requires |directions| == RayCount
      requires forall i :: 0 <= i < RayCount ==> directions[i].x > 0.0
      requires StrictlyIncreasing(Angles(angleOf, InitialRays(directions)))
      ensures Valid() && fresh(lineData)
      ensures this.angleOf == angleOf
      ensures lineData[..] == InitialRays(directions)
      ensures curveData == InitialCurve
    {
      var rays := new Segment[RayCount];
      for i := 0 to RayCount
        invariant forall k :: 0 <= k < i ==> rays[k] == InitialRay(k, directions[k])
      {
        rays[i] := InitialRay(i, directions[i]);
      }
      assert rays[..] == InitialRays(directions);
      this.angleOf := angleOf;
      lineData := rays;
      curveData := InitialCurve;
      assert InitialCurve == CurveAt(4);
    }

    /**
     * The `drag` callback of ray `index`, given the raw end point computed
     * from the pointer. Commits the clamped candidate end point into
     * `lineData[index]` only when the four angles stay strictly increasing;
     * otherwise nothing changes.
     */
    method DragLine(index: nat, raw: Point) returns (accepted: bool)
      requires Valid()
      requires index < RayCount && raw.x > 0.0
      modifies lineData
      ensures Valid()
      ensures accepted == DragStep(angleOf, old(lineData[..]), index, raw).accepted
      ensures lineData[..] == DragStep(angleOf, old(lineData[..]), index, raw).segments
      ensures accepted ==> lineData[..] == old(lineData[..])[index := old(lineData[index]).(end := CandidateEnd(raw))]
      ensures !accepted ==> lineData[..] == old(lineData[..])
    {
      ghost var step := DragStep(angleOf, lineData[..], index, raw);
      var line := lineData[index];
      var newEndX := Clamp(0.0, XDomainMax, raw.x);
      var newEndY := Clamp(0.0, YDomainMax, raw.y);
      var angleResult := LineEndPoint(newEndX, newEndY);
      assert angleResult == CandidateEnd(raw);
      var newAngles := CandidateAngles(angleOf, lineData[..], index, angleResult);
      accepted := CheckBoundaries(newAngles);
      assert accepted == step.accepted;
      if accepted {
        lineData[index] := line.(end := angleResult);
      }
      assert lineData[..] == step.segments;
    }

    /**
     * The `drag` callback of the curve's hit region, given the pointer's
     * vertical offset `dy` from the control point in domain units.
     */
    method DragCurve(dy: real)
      requires Valid()
      modifies this`curveData
      ensures Valid()
      ensures curveData == CurveStep(old(curveData), dy)
    {
      if dy > DeadZone && curveData.controlPoint.x < AxisRange {
        curveData := curveData.(
          controlPoint := GridPoint(curveData.controlPoint.x + 1, curveData.controlPoint.y + 1),
          start := curveData.start.(y := curveData.start.y + 1),
          end := curveData.end.(x := curveData.end.x + 1));
      } else if dy < -DeadZone && curveData.controlPoint.x > 0 {
        curveData := curveData.(
          controlPoint := GridPoint(curveData.controlPoint.x - 1, curveData.controlPoint.y - 1),
          start := curveData.start.(y := curveData.start.y - 1),
          end := curveData.end.(x := curveData.end.x - 1));
      }
    }
  }
}
