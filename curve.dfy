/**
 * The draggable quadratic curve: its three points in whole domain units and
 * the discrete step `curveDragHandler` applies on each pointer move.
 */
module Curves {
  import opened Geometry

  /** A curve point; every coordinate starts whole and moves by whole steps. */
  datatype GridPoint = GridPoint(x: int, y: int)

  /** `curveData`: the two ends and the control point of the curve. */
  datatype Curve = Curve(start: GridPoint, end: GridPoint, controlPoint: GridPoint)

  const InitialCurve: Curve := Curve(GridPoint(0, 4), GridPoint(4, 0), GridPoint(4, 4))

  /** Vertical pointer offsets within [-DeadZone, DeadZone] domain units move nothing. */
  const DeadZone: real := 0.1

  /** The curve the handler keeps when the control point is at x = k. */
  function CurveAt(k: int): Curve {
    Curve(GridPoint(0, k), GridPoint(k, 0), GridPoint(k, k))
  }

  /** The shape every reachable curve has: of the form CurveAt(k) with 0 <= k <= AxisRange. */
  predicate CurveShaped(c: Curve) {
    0 <= c.controlPoint.x <= AxisRange && c == CurveAt(c.controlPoint.x)
  }

  /** Moves the control point's x and y, the start's y and the end's x by d. */
  function Shift(c: Curve, d: int): Curve {
    Curve(GridPoint(c.start.x, c.start.y + d),
          GridPoint(c.end.x + d, c.end.y),
          GridPoint(c.controlPoint.x + d, c.controlPoint.y + d))
  }

  /**
   * One drag frame of `curveDragHandler`, with `dy` the pointer's vertical
   * offset from the control point in domain units: step up when above the
   * dead zone and the control point is left of the right edge, step down
   * when below it and the control point is right of the origin.
   */
  function CurveStep(c: Curve, dy: real): (r: Curve)
    ensures r.start.x == c.start.x && r.end.y == c.end.y
    ensures var d := r.controlPoint.x - c.controlPoint.x;
      && (d == 1 || d == 0 || d == -1)
      && r.controlPoint.y - c.controlPoint.y == d
      && r.start.y - c.start.y == d
      && r.end.x - c.end.x == d
    ensures r.controlPoint.x == c.controlPoint.x + 1 <==> dy > DeadZone && c.controlPoint.x < AxisRange
    ensures r.controlPoint.x == c.controlPoint.x - 1 <==>
              !(dy > DeadZone && c.controlPoint.x < AxisRange) && dy < -DeadZone && c.controlPoint.x > 0
    ensures -DeadZone <= dy <= DeadZone ==> r == c
    ensures 0 <= c.controlPoint.x <= AxisRange ==> 0 <= r.controlPoint.x <= AxisRange
  {
    if dy > DeadZone && c.controlPoint.x < AxisRange then
      Shift(c, 1)
    else if dy < -DeadZone && c.controlPoint.x > 0 then
      Shift(c, -1)
    else
      c
  }

  /** A step keeps a reachable curve reachable. */
  lemma CurveStepKeepsShape(c: Curve, dy: real)
    requires CurveShaped(c)
    ensures CurveShaped(CurveStep(c, dy))
  {
  }

  /** The curve after a sequence of drag frames, applied in order. */
  function RunCurve(c: Curve, dys: seq<real>): (r: Curve)
    ensures r.start.x == c.start.x && r.end.y == c.end.y
    ensures r.controlPoint.y - c.controlPoint.y == r.controlPoint.x - c.controlPoint.x
    ensures r.start.y - c.start.y == r.controlPoint.x - c.controlPoint.x
    ensures r.end.x - c.end.x == r.controlPoint.x - c.controlPoint.x
    ensures -|dys| <= r.controlPoint.x - c.controlPoint.x <= |dys|
    ensures 0 <= c.controlPoint.x <= AxisRange ==> 0 <= r.controlPoint.x <= AxisRange
    decreases |dys|
  {
    if dys == [] then c else RunCurve(CurveStep(c, dys[0]), dys[1..])
  }

  /** From the initial curve, every sequence of drag frames yields a reachable curve. */
  lemma RunCurveFromInitial(dys: seq<real>)
    ensures CurveShaped(RunCurve(InitialCurve, dys))
  {
  }
}
