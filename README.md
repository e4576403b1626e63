# Angle chart: verified model of the drag logic

This project models the interactive core of the `ChartComponent` of
Chart-Integration. The component is an Angular widget that draws four rays from the
origin and a quadratic curve, and lets the user drag them. It models three rules:

- **The viewport clamp** (`calculateLineEndPoint`). A ray from the origin in a
  direction `(x, y)` ends where it leaves the rectangle
  `[0, axisRange] x [0, 12]`. That is the right edge when the ray crosses it at or
  below the top, and the top edge otherwise (module `Geometry`, file `geometry.dfy`).
- **The ordering-guarded ray drag** (the `drag` callback of each ray and
  `checkBoundaries`). Each drag step computes a candidate end point. It measures
  the angles of all four rays with the dragged ray at that candidate. It commits
  the candidate only if the four angles stay strictly increasing; otherwise nothing
  changes (module `Rays`, file `rays.dfy`).
- **The curve stepper** (`curveDragHandler`). A drag frame moves the control
  point's x and y, the start's y and the end's x together by +1 or -1. The
  direction depends on the pointer's vertical offset, outside a dead zone of 0.1
  domain units. The control point's x stays within `[0, axisRange]`
  (module `Curves`, file `curve.dfy`).

The component's mutable state is the class `ChartComponent.Chart` (file
`chart.dfy`). It holds `lineData`, an array of four segments that `DragLine`
updates in place, and `curveData`, which `DragCurve` updates. Its invariant
`Valid()` says three things: there are four rays, their angles are strictly
increasing, and the curve has the shape every reachable curve has.

`calculateAngle` (atan2 in degrees) is not given a definition. It appears as the
function-valued constant `angleOf` of the class, and as a parameter of every pure
function that needs it. Nothing is assumed about it. So the ordering results hold
for any angle function, and the strictly increasing initial angles are a
precondition of the constructor.

Coordinates of the rays are exact `real`s. Curve coordinates are `int`s: they
start whole (`(0, 4)`, `(4, 0)`, `(4, 4)`) and only ever move by 1.

The drag handler passes the clamped absolute end point to
`calculateLineEndPoint`. Every ray starts at the origin, so this is also the
offset from the ray's start, and the model does the same.

## Model

| member | source | states |
|---|---|---|
| `Geometry.LineEndPoint` | src/app/chart/chart.component.ts:92-104 | for `x > 0` the result lies on the ray through `(x, y)` with positive x, either on the right edge at or below the top or on the top edge left of the right edge; for `y >= 0` it lies inside the viewport, and for `y > 0` above the x-axis |
| `Geometry.LineEndPointScaleInvariant` | src/app/chart/chart.component.ts:92-98 | the exit point depends only on the direction: scaling `(x, y)` by any `k > 0` gives the same point |
| `Geometry.LineEndPointIdempotent` | src/app/chart/chart.component.ts:92-104 | clamping an exit point again returns it unchanged |
| `Geometry.LineEndPointIsFarthest` | src/app/chart/chart.component.ts:99-103 | for a first-quadrant direction, every point `t * (x, y)` of the ray inside the viewport lies no farther than the exit point in either coordinate |
| `Geometry.Clamp` | src/app/chart/chart.component.ts:247-248 | `max(lo, min(hi, v))` lies in `[lo, hi]`, equals `v` inside the range and the nearer bound outside it |
| `Geometry.CandidateEnd` | src/app/chart/chart.component.ts:247-250 | the candidate end point of a drag lies inside the viewport, on the right or the top edge, and on the ray through the clamped coordinates |
| `Rays.CheckBoundaries` | src/app/chart/chart.component.ts:215-221 | the three adjacent comparisons hold exactly when the four angles are strictly increasing (every earlier angle below every later one) |
| `Rays.CandidateAngles` | src/app/chart/chart.component.ts:252-259 | the candidate angles are exactly the angles the rays would have with the dragged ray's end replaced by the candidate |
| `Rays.DragStep` | src/app/chart/chart.component.ts:231-265 | a drag step is accepted exactly when the candidate state's angles are strictly increasing; only the dragged ray's end can change; if accepted it becomes the candidate end point, inside the viewport; if rejected all four rays are unchanged; increasing angles before imply increasing angles after |
| `Rays.RunDrags` | src/app/chart/chart.component.ts:225-265 | any sequence of drag steps leaves four rays whose names, initial angles and start points are unchanged |
| `Rays.RunDragsKeepsOrder` | src/app/chart/chart.component.ts:255-265 | strictly increasing angles before a sequence of drag steps stay strictly increasing after it |
| `Rays.DragRayOneExample` | src/app/chart/chart.component.ts:252-265 | with angles 30, 50, 54 and 65 degrees, a candidate for ray 1 at 52 degrees is committed and one at 55 degrees is rejected, leaving the rays unchanged |
| `Curves.CurveStep` | src/app/chart/chart.component.ts:339-355 | one curve step moves the control point's x and y, the start's y and the end's x by the same amount in {-1, 0, +1}; it steps up exactly when `dy > 0.1` and the control point's x is below `axisRange`, and down exactly when that fails, `dy < -0.1` and the x is above 0; start x and end y never change; inside the dead zone nothing changes; `0 <= controlPoint.x <= axisRange` is kept |
| `Curves.CurveStepKeepsShape` | src/app/chart/chart.component.ts:343-355 | a step keeps a curve of the reachable shape (start `(0, k)`, end `(k, 0)`, control point `(k, k)`, `0 <= k <= axisRange`) of that shape |
| `Curves.RunCurve` | src/app/chart/chart.component.ts:339-355 | after any sequence of steps the four moving coordinates have moved by the same amount, at most one per step; the fixed ones are unchanged; the bound on the control point's x is kept |
| `Curves.RunCurveFromInitial` | src/app/chart/chart.component.ts:23-27 | from the initial curve, every sequence of steps gives a curve of the reachable shape |
| `ChartComponent.Chart.constructor` | src/app/chart/chart.component.ts:65-73 | builds the four rays from the origin to the exit points of their initial directions and the initial curve, establishing the invariant |
| `ChartComponent.Chart.DragLine` | src/app/chart/chart.component.ts:231-265 | updates `lineData` in place exactly as `DragStep` says, reporting whether the candidate was committed, and keeps the invariant |
| `ChartComponent.Chart.DragCurve` | src/app/chart/chart.component.ts:339-355 | updates `curveData` exactly as `CurveStep` says and keeps the invariant |

## Left out

- `Geometry.LineEndPoint`: requires `x > 0`. The code divides by `x` without a guard. For `x = 0` and `y > 0` the slope is infinite and the result is `(0, 12)`; for `y = 0` the slope is `0/0 = NaN` and the result is `(NaN, 12)`; for `y < 0` it is `(6, -Infinity)`. No caller passes `x < 0`. None of these cases is modelled.
- `Rays.DragStep` and `ChartComponent.Chart.DragLine`: require the raw candidate's x to be positive, which rules out the divide-by-zero case above. This is the case where the pointer moves to or left of the y-axis and the clamp sets the x coordinate to 0. The code then gets `(0, 12)` from `calculateLineEndPoint` when the clamped y is positive; `calculateAngle` gives 90 degrees, which passes `checkBoundaries` for ray 3, so that drag commits a vertical end point. When the clamped y is 0 the end point is `(NaN, 12)`, its angle is NaN and the drag is rejected. Neither outcome is modelled.
- `calculateAngle` (`Math.atan2` in degrees) is not defined. It is an arbitrary function `angleOf`. Its values, such as 0 degrees for `(1, 0)` and 90 degrees for `(0, 1)`, are not modelled.
- The candidate's raw end point `start + length * (cos, sin)` of the pointer direction is an input. `Math.atan2`, `Math.sqrt`, `Math.cos` and `Math.sin` are transcendental floating-point functions.
- The initial end points from the initial degrees (`cos`/`sin`) are inputs of the constructor. The constructor requires their angles to be strictly increasing.
- The linear scales (`d3.scaleLinear` and `invert`) are not modelled. The pointer's position in domain units, and so the curve handler's `dy`, are inputs. Only the scales' domains `[0, 6]` and `[0, 12]` appear, as the clamp bounds.
- Reals are exact. Floating-point rounding, infinities and NaN are not modelled.
- `plotGraph` and `Plotly.restyle` are rendering through a foreign charting library.
- Hit-region construction, `d3.drag`/`d3.pointer` event plumbing, and removing and re-attaching the hit regions after every frame are DOM work.
- `initializeDOMElements` is DOM element lookup.
- `buildAngleInputs` label and input creation is DOM work. So is `updateAngleInputs`, with its `toFixed(2)` and degree-sign formatting. The angles these inputs display are the model's `Rays.Angles`.
- `start`/`end` callbacks of the drags only change cursor and colour styling.
