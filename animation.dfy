/** The state the animation hook keeps between frames and events: the
    dragging flag, the view rotation `rotation.current` and the stored point
    set `pointsRef.current`; the drag handlers, the point generator and the
    frame callback act on it. */
module Animation {
  import opened JsMath
  import opened Types
  import opened Generator
  import opened Interaction
  import opened Pipeline

  class TorusAnimation {
    /** The `Math` functions the engine calls. */
    const math: MathLib
    /** d3.interpolateViridis, from [0, 1] to a colour. */
    const colorScale: real -> Color

    var isDragging: bool
    var rotation: ViewRotation
    var points: seq<TorusPoint>

    /** The pitch stays in [-π/2, π/2] and every stored point lies on the
        Clifford torus. */
    ghost predicate Valid()
      reads this
    {
      && math.Valid()
      && PitchInRange(math, rotation.x)
      && forall i :: 0 <= i < |points| ==> OnCliffordTorus(points[i].original)
    }

    /** The drag controller's part of the state. */
    function State(): DragState
      reads this
    {
      DragState(isDragging, rotation)
    }

    /** A freshly mounted hook: not dragging, pitch and yaw π/4, no points. */
    constructor (math: MathLib, colorScale: real -> Color)
      requires math.Valid()
      ensures Valid()
      ensures this.math == math && this.colorScale == colorScale
      ensures State() == InitialState(math) && points == []
    {
      this.math := math;
      this.colorScale := colorScale;
      isDragging := false;
      rotation := ViewRotation(math.pi / 4.0, math.pi / 4.0);
      points := [];
    }

    /** generatePoints(count), with the random angles given: the stored set is
        replaced wholesale by `count` new points with ids 0 .. count - 1. */
    method GeneratePoints(count: nat, thetas: seq<real>, phis: seq<real>)
      requires Valid()
      requires |thetas| == count && |phis| == count
      modifies this`points
      ensures Valid()
      ensures points == Generator.GeneratePoints(math, colorScale, count, thetas, phis)
      ensures |points| == count && forall i :: 0 <= i < count ==> points[i].id == i
    {
      var newPoints := Generator.GeneratePoints(math, colorScale, count, thetas, phis);
      points := newPoints;
    }

    /** The 'start' handler. */
    method DragStart()
      requires Valid()
      modifies this`isDragging
      ensures Valid()
      ensures State() == Handle(math, old(State()), Start)
    {
      isDragging := true;
    }

    /** The 'drag' handler: yaw += dx·0.005, pitch -= dy·0.005, then the
        pitch is clamped. */
    method OnDrag(dx: real, dy: real)
      requires Valid()
      modifies this`rotation
      ensures Valid()
      ensures State() == Handle(math, old(State()), Drag(dx, dy))
    {
      rotation := rotation.(y := rotation.y + dx * DRAG_SENSITIVITY);
      rotation := rotation.(x := rotation.x - dy * DRAG_SENSITIVITY);
      rotation := rotation.(x := Max(-math.pi / 2.0, Min(math.pi / 2.0, rotation.x)));
    }

    /** The 'end' handler. */
    method DragEnd()
      requires Valid()
      modifies this`isDragging
      ensures Valid()
      ensures State() == Handle(math, old(State()), End)
    {
      isDragging := false;
    }

    /** The body of the frame callback at `elapsed` milliseconds on a surface
        of the given size: map every stored point through the pipeline, sort
        the result by depth, and give each point its circle. The result
        holds exactly the mapped points, in painter's order. */
    method RenderFrame(elapsed: real, params: TorusParameters, width: real, height: real)
      returns (frame: seq<ProjectedPoint>, circles: seq<Circle>)
      requires Valid()
      requires FrameDefined(math, points, FrameAngles(elapsed, params), rotation)
      ensures multiset(frame) == multiset(MapFrame(math, points, FrameAngles(elapsed, params), rotation, width, height))
      ensures SortedByDepth(frame)
      ensures |circles| == |frame| == |points|
      ensures circles == Circles(frame)
      ensures multiset(Ids(frame)) == multiset(StoredIds(points))
    {
      var angles := FrameAngles(elapsed, params);
      var mapped := MapFrame(math, points, angles, rotation, width, height);
      var projectedPoints := new ProjectedPoint[|mapped|](i requires 0 <= i < |mapped| => mapped[i]);
      assert projectedPoints[..] == mapped;
      SortByDepth(projectedPoints);
      frame := projectedPoints[..];
      circles := Circles(frame);
      SamePointsSameIds(frame, mapped);
      MapFrameKeepsIds(math, points, angles, rotation, width, height);
    }
  }
}
