/** The drag controller as a state machine over pointer events: 'start'
    and 'end' set the dragging flag, each 'drag' turns the yaw by dx and the
    pitch by -dy, and the pitch is clamped to [-π/2, π/2] after every move. */
module Interaction {
  import opened JsMath
  import opened Types

  /** Radians of view rotation per pixel of pointer movement. */
  const DRAG_SENSITIVITY: real := 0.005

  /** The events of the drag behaviour. */
  datatype DragEvent = Start | Drag(dx: real, dy: real) | End

  /** What the drag controller owns: the dragging flag and `rotation.current`. */
  datatype DragState = DragState(isDragging: bool, rotation: ViewRotation)

  /** The state the hook starts in: not dragging, pitch and yaw both π/4. */
  function InitialState(m: MathLib): (r: DragState)
    requires m.Valid()
    ensures !r.isDragging
    ensures r.rotation.x == r.rotation.y == m.pi / 4.0
    ensures PitchInRange(m, r.rotation.x)
  {
    DragState(false, ViewRotation(m.pi / 4.0, m.pi / 4.0))
  }

  /** The pitch lies in [-π/2, π/2]. */
  predicate PitchInRange(m: MathLib, pitch: real)
  {
    -m.pi / 2.0 <= pitch <= m.pi / 2.0
  }

  /** Math.max(-π/2, Math.min(π/2, pitch)): the nearest pitch in range. */
  function ClampPitch(m: MathLib, pitch: real): (r: real)
    requires m.Valid()
    ensures PitchInRange(m, r)
    ensures PitchInRange(m, pitch) ==> r == pitch
    ensures pitch > m.pi / 2.0 ==> r == m.pi / 2.0
    ensures pitch < -m.pi / 2.0 ==> r == -m.pi / 2.0
  {
    Max(-m.pi / 2.0, Min(m.pi / 2.0, pitch))
  }

  /** One event. A drag moves the yaw by dx·0.005 and the pitch by -dy·0.005,
      then clamps the pitch; the yaw is never wrapped. */
  function Handle(m: MathLib, s: DragState, e: DragEvent): (r: DragState)
    requires m.Valid()
    ensures e.Start? ==> r == s.(isDragging := true)
    ensures e.End? ==> r == s.(isDragging := false)
    ensures e.Drag? ==> r.isDragging == s.isDragging
    ensures e.Drag? ==> r.rotation.y == s.rotation.y + e.dx * DRAG_SENSITIVITY
    ensures e.Drag? ==> PitchInRange(m, r.rotation.x)
  {
    match e
    case Start => s.(isDragging := true)
    case End => s.(isDragging := false)
    case Drag(dx, dy) =>
      var yaw := s.rotation.y + dx * DRAG_SENSITIVITY;
      var pitch := s.rotation.x - dy * DRAG_SENSITIVITY;
      s.(rotation := ViewRotation(ClampPitch(m, pitch), yaw))
  }

  /** The state after a sequence of events, first event first. */
  function Replay(m: MathLib, s: DragState, events: seq<DragEvent>): DragState
    requires m.Valid()
    decreases |events|
  {
    if events == [] then s else Replay(m, Handle(m, s, events[0]), events[1..])
  }

  /** The sum of the horizontal deltas of the drag events. */
  function SumDx(events: seq<DragEvent>): real
  {
    if events == [] then 0.0
    else (if events[0].Drag? then events[0].dx else 0.0) + SumDx(events[1..])
  }

  /** The sum of the vertical deltas of the drag events. */
  function SumDy(events: seq<DragEvent>): real
  {
    if events == [] then 0.0
    else (if events[0].Drag? then events[0].dy else 0.0) + SumDy(events[1..])
  }

  /** Whatever the events, the pitch stays in [-π/2, π/2] once it starts
      there. */
  lemma {:induction false} ReplayKeepsPitchInRange(m: MathLib, s: DragState, events: seq<DragEvent>)
    requires m.Valid() && PitchInRange(m, s.rotation.x)
    ensures PitchInRange(m, Replay(m, s, events).rotation.x)
    decreases |events|
  {
    if events != [] {
      ReplayKeepsPitchInRange(m, Handle(m, s, events[0]), events[1..]);
    }
  }

  /** The yaw accumulates exactly 0.005 times the total horizontal movement:
      it is neither clamped nor wrapped. */
  lemma {:induction false} ReplayYaw(m: MathLib, s: DragState, events: seq<DragEvent>)
    requires m.Valid()
    ensures Replay(m, s, events).rotation.y == s.rotation.y + SumDx(events) * DRAG_SENSITIVITY
    decreases |events|
  {
    if events != [] {
      ReplayYaw(m, Handle(m, s, events[0]), events[1..]);
    }
  }

  /** All drag events move the pointer up or not at all. */
  predicate AllUpward(events: seq<DragEvent>)
  {
    forall i :: 0 <= i < |events| && events[i].Drag? ==> events[i].dy <= 0.0
  }

  /** Moving only upwards, the pitch is the unclamped pitch cut off at π/2:
      clamping after every move gives the same as clamping once at the end. */
  lemma {:induction false} ReplayUpwardPitch(m: MathLib, s: DragState, events: seq<DragEvent>)
    requires m.Valid() && PitchInRange(m, s.rotation.x) && AllUpward(events)
    ensures SumDy(events) <= 0.0
    ensures Replay(m, s, events).rotation.x == Min(m.pi / 2.0, s.rotation.x - SumDy(events) * DRAG_SENSITIVITY)
    decreases |events|
  {
    if events != [] {
      var s1 := Handle(m, s, events[0]);
      assert AllUpward(events[1..]) by {
        forall i | 0 <= i < |events[1..]| && events[1..][i].Drag?
          ensures events[1..][i].dy <= 0.0
        {
          assert events[1..][i] == events[i + 1];
        }
      }
      ReplayUpwardPitch(m, s1, events[1..]);
    }
  }

  /** A drag sequence that would push the pitch past π/2 leaves it exactly at
      π/2. */
  lemma PitchPinnedAtTop(m: MathLib, s: DragState, events: seq<DragEvent>)
    requires m.Valid() && PitchInRange(m, s.rotation.x) && AllUpward(events)
    requires s.rotation.x - SumDy(events) * DRAG_SENSITIVITY >= m.pi / 2.0
    ensures Replay(m, s, events).rotation.x == m.pi / 2.0
  {
    ReplayUpwardPitch(m, s, events);
  }

  /** All drag events move the pointer down or not at all. */
  predicate AllDownward(events: seq<DragEvent>)
  {
    forall i :: 0 <= i < |events| && events[i].Drag? ==> events[i].dy >= 0.0
  }

  /** Moving only downwards, the pitch is the unclamped pitch cut off at
      -π/2. */
  lemma {:induction false} ReplayDownwardPitch(m: MathLib, s: DragState, events: seq<DragEvent>)
    requires m.Valid() && PitchInRange(m, s.rotation.x) && AllDownward(events)
    ensures SumDy(events) >= 0.0
    ensures Replay(m, s, events).rotation.x == Max(-m.pi / 2.0, s.rotation.x - SumDy(events) * DRAG_SENSITIVITY)
    decreases |events|
  {
    if events != [] {
      var s1 := Handle(m, s, events[0]);
      assert AllDownward(events[1..]) by {
        forall i | 0 <= i < |events[1..]| && events[1..][i].Drag?
          ensures events[1..][i].dy >= 0.0
        {
          assert events[1..][i] == events[i + 1];
        }
      }
      ReplayDownwardPitch(m, s1, events[1..]);
    }
  }

  /** A drag sequence that would push the pitch below -π/2 leaves it exactly
      at -π/2. */
  lemma PitchPinnedAtBottom(m: MathLib, s: DragState, events: seq<DragEvent>)
    requires m.Valid() && PitchInRange(m, s.rotation.x) && AllDownward(events)
    requires s.rotation.x - SumDy(events) * DRAG_SENSITIVITY <= -m.pi / 2.0
    ensures Replay(m, s, events).rotation.x == -m.pi / 2.0
  {
    ReplayDownwardPitch(m, s, events);
  }
}
