/**
 * The four draggable rays of the chart, the ordering rule on their angles
 * (`checkBoundaries`) and the accept-or-reject drag step of each ray.
 *
 * The angle of a segment (`calculateAngle`, atan2 in degrees) is not
 * modelled: every function here takes it as a parameter `angleOf`, about
 * which nothing is assumed.
 */
module Rays {
  import opened Geometry

  /** One ray: its label, its initial angle in degrees, and its two end points. */
  datatype Segment = Segment(name: string, angle: real, start: Point, end: Point)

  /** Number of rays the component builds. */
  const RayCount: nat := 4

  /** The angle of every segment, in index order (what the angle inputs display). */
  function Angles(angleOf: (Point, Point) -> real, segs: seq<Segment>): seq<real> {
    seq(|segs|, i requires 0 <= i < |segs| => angleOf(segs[i].start, segs[i].end))
  }

  /** Reference definition of the ordering rule: every earlier angle is below every later one. */
  ghost predicate StrictlyIncreasing(a: seq<real>) {
    forall i, j :: 0 <= i < j < |a| ==> a[i] < a[j]
  }

  /** `checkBoundaries`: the three adjacent comparisons of the four angles. */
  function CheckBoundaries(newAngles: seq<real>): (ok: bool)
    requires |newAngles| == RayCount
    ensures ok <==> StrictlyIncreasing(newAngles)
  {
    newAngles[0] < newAngles[1] &&
    newAngles[1] < newAngles[2] &&
    newAngles[2] < newAngles[3]
  }

  /**
   * `newAngles`: the angles of all rays, with the dragged one measured to its
   * candidate end point. They are exactly the angles the rays would have if
   * the candidate were committed.
   */
  function CandidateAngles(angleOf: (Point, Point) -> real, segs: seq<Segment>, index: nat, newEnd: Point): (r: seq<real>)
    requires index < |segs|
    ensures r == Angles(angleOf, segs[index := segs[index].(end := newEnd)])
  {
    seq(|segs|, idx requires 0 <= idx < |segs| =>
      if idx == index then angleOf(segs[index].start, newEnd) else angleOf(segs[idx].start, segs[idx].end))
  }

  /** The rays after a drag step, and whether the candidate was committed. */
  datatype DragOutcome = DragOutcome(segments: seq<Segment>, accepted: bool)

  /**
   * The `drag` callback of ray `index`, with the pointer-derived raw end
   * point `raw` (start + length * direction) as input: clamp, compute the
   * candidate angles, and commit the candidate end point only if the
   * angles stay strictly increasing.
   */
  function DragStep(angleOf: (Point, Point) -> real, segs: seq<Segment>, index: nat, raw: Point): (r: DragOutcome)
    requires |segs| == RayCount && index < RayCount && raw.x > 0.0
    ensures |r.segments| == RayCount
    ensures forall i :: 0 <= i < RayCount && i != index ==> r.segments[i] == segs[i]
    ensures r.segments[index] == segs[index].(end := r.segments[index].end)
    ensures r.accepted <==> StrictlyIncreasing(Angles(angleOf, segs[index := segs[index].(end := CandidateEnd(raw))]))
    ensures r.accepted ==> r.segments[index].end == CandidateEnd(raw) && InViewport(r.segments[index].end)
    ensures !r.accepted ==> r.segments == segs
    ensures r.accepted ==> StrictlyIncreasing(Angles(angleOf, r.segments))
    ensures StrictlyIncreasing(Angles(angleOf, segs)) ==> StrictlyIncreasing(Angles(angleOf, r.segments))
  {
    var angleResult := CandidateEnd(raw);
    var newAngles := CandidateAngles(angleOf, segs, index, angleResult);
    if CheckBoundaries(newAngles) then
      DragOutcome(segs[index := segs[index].(end := angleResult)], true)
    else
      DragOutcome(segs, false)
  }

  /** One pointer move on one ray's hit region. */
  datatype LineDrag = LineDrag(index: nat, raw: Point)

  predicate ValidDrag(d: LineDrag) {
    d.index < RayCount && d.raw.x > 0.0
  }

  /** The rays after a sequence of drag steps, applied in order. */
  function RunDrags(angleOf: (Point, Point) -> real, segs: seq<Segment>, drags: seq<LineDrag>): (r: seq<Segment>)
    requires |segs| == RayCount
    requires forall k :: 0 <= k < |drags| ==> ValidDrag(drags[k])
    ensures |r| == RayCount
    ensures forall i :: 0 <= i < RayCount ==> r[i] == segs[i].(end := r[i].end)
    decreases |drags|
  {
    if drags == [] then segs
    else
      assert ValidDrag(drags[0]);
      RunDrags(angleOf, DragStep(angleOf, segs, drags[0].index, drags[0].raw).segments, drags[1..])
  }

  /** The ordering of the four angles, once established, survives any sequence of drags. */
  lemma {:induction false} RunDragsKeepsOrder(angleOf: (Point, Point) -> real, segs: seq<Segment>, drags: seq<LineDrag>)
    requires |segs| == RayCount
    requires forall k :: 0 <= k < |drags| ==> ValidDrag(drags[k])
    requires StrictlyIncreasing(Angles(angleOf, segs))
    ensures StrictlyIncreasing(Angles(angleOf, RunDrags(angleOf, segs, drags)))
    decreases |drags|
  {
    if drags != [] {
      assert ValidDrag(drags[0]);
      var next := DragStep(angleOf, segs, drags[0].index, drags[0].raw).segments;
      RunDragsKeepsOrder(angleOf, next, drags[1..]);
    }
  }

  /**
   * With the initial angles 30, 50, 54 and 65 degrees, dragging ray 1 to a
   * candidate measured at 52 degrees is committed, and to 55 degrees
   * (beyond ray 2) is discarded.
   */
  lemma DragRayOneExample(angleOf: (Point, Point) -> real, segs: seq<Segment>, raw: Point)
    requires |segs| == RayCount && raw.x > 0.0
    requires Angles(angleOf, segs) == [30.0, 50.0, 54.0, 65.0]
    ensures angleOf(segs[1].start, CandidateEnd(raw)) == 52.0 ==> DragStep(angleOf, segs, 1, raw).accepted
    ensures angleOf(segs[1].start, CandidateEnd(raw)) == 55.0 ==>
              !DragStep(angleOf, segs, 1, raw).accepted && DragStep(angleOf, segs, 1, raw).segments == segs
  {
    var a := Angles(angleOf, segs);
    assert a[0] == 30.0 && a[2] == 54.0 && a[3] == 65.0;
    var c := Angles(angleOf, segs[1 := segs[1].(end := CandidateEnd(raw))]);
    assert c[0] == a[0] && c[2] == a[2] && c[3] == a[3];
    assert c[1] == angleOf(segs[1].start, CandidateEnd(raw));
    assert c[1] == 52.0 ==> CheckBoundaries(c);
    assert c[1] == 55.0 ==> !CheckBoundaries(c);
  }
}
