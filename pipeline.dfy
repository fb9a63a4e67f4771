/** One animation frame: plane angles from the elapsed time, each stored
    point rotated in 4-space, projected to 3-space, turned by the view
    rotation and mapped to the screen with perspective; then the frame is
    sorted by depth (painter's order) and each point gets a radius and an
    opacity that grow with its depth. */
module Pipeline {
  import opened JsMath
  import opened Types
  import opened Geometry
  import opened Generator

  /** The fixed focal parameter of the perspective divide. */
  const FOCAL: real := 1.5

  /** The plane angles at `elapsed` milliseconds: each speed is in radians
      per second, so a thousand times each angle is the elapsed time times
      that plane's speed. */
  function FrameAngles(elapsed: real, params: TorusParameters): (r: PlaneAngles)
    ensures r.xy * 1000.0 == elapsed * params.rotationSpeedXY && r.xz * 1000.0 == elapsed * params.rotationSpeedXZ
    ensures r.xw * 1000.0 == elapsed * params.rotationSpeedXW && r.yz * 1000.0 == elapsed * params.rotationSpeedYZ
    ensures r.yw * 1000.0 == elapsed * params.rotationSpeedYW && r.zw * 1000.0 == elapsed * params.rotationSpeedZW
  {
    var t := elapsed * 0.001;
    PlaneAngles(
      t * params.rotationSpeedXY, t * params.rotationSpeedXZ, t * params.rotationSpeedXW,
      t * params.rotationSpeedYZ, t * params.rotationSpeedYW, t * params.rotationSpeedZW)
  }

  /** The plane angles add up over time: the angles after e1 + e2 are those
      after e1 plus those after e2, with no wrapping to a period. */
  lemma FrameAnglesAccumulate(e1: real, e2: real, params: TorusParameters)
    ensures var a, a1, a2 := FrameAngles(e1 + e2, params), FrameAngles(e1, params), FrameAngles(e2, params);
      && a.xy == a1.xy + a2.xy && a.xz == a1.xz + a2.xz && a.xw == a1.xw + a2.xw
      && a.yz == a1.yz + a2.yz && a.yw == a1.yw + a2.yw && a.zw == a1.zw + a2.zw
  {
  }

  /** At elapsed time 0 the 4D rotation leaves every point where it is. */
  lemma FrameAnglesAtStart(m: MathLib, params: TorusParameters, p: Point4D)
    requires m.Valid()
    ensures Rotate4D(m, p, FrameAngles(0.0, params)) == p
  {
    assert FrameAngles(0.0, params) == PlaneAngles(0.0, 0.0, 0.0, 0.0, 0.0, 0.0);
    Rotate4DAtZeroIsIdentity(m, p);
  }

  /** A point in view space: rotate4D, then stereographicProjection, then
      rotate3D with the current view rotation. A point near the pole is
      collapsed to the origin and stays there; otherwise the view rotation
      keeps its distance from the origin. */
  function ViewPoint(m: MathLib, original: Point4D, angles: PlaneAngles, view: ViewRotation): (r: Point3D)
    ensures NearPole(Rotate4D(m, original, angles)) ==> r == Point3D(0.0, 0.0, 0.0)
    ensures m.Valid() ==> r.NormSq() == Stereographic(Rotate4D(m, original, angles)).NormSq()
  {
    var s := Stereographic(Rotate4D(m, original, angles));
    var v := Rotate3D(m, s, view);
    assert NearPole(Rotate4D(m, original, angles)) ==> v == Point3D(0.0, 0.0, 0.0) by {
      if NearPole(Rotate4D(m, original, angles)) {
        Rotate3DFixesOrigin(m, view);
      }
    }
    assert m.Valid() ==> v.NormSq() == s.NormSq() by {
      if m.Valid() {
        Rotate3DKeepsNorm(m, s, view);
      }
    }
    v
  }

  /** The scale is 0.4 of the smaller viewport side: it is one of the two
      and bounded by both. */
  function Scale(width: real, height: real): (r: real)
    ensures r <= width * 0.4 && r <= height * 0.4
    ensures r == width * 0.4 || r == height * 0.4
  {
    Min(width, height) * 0.4
  }

  /** The screen position of a view-space point: the offset from the
      viewport centre, multiplied back by (1.5 + z), is the view position
      scaled by 1.5·scale, with x keeping its sign and y flipped. */
  function Screen(v: Point3D, width: real, height: real): (r: (real, real))
    requires FOCAL + v.z != 0.0
    ensures (r.0 - width / 2.0) * (FOCAL + v.z) == v.x * Scale(width, height) * FOCAL
    ensures (height / 2.0 - r.1) * (FOCAL + v.z) == v.y * Scale(width, height) * FOCAL
  {
    var k := FOCAL + v.z;
    var perspective := FOCAL / k;
    var scale := Scale(width, height);
    assert perspective * k == FOCAL;
    assert (v.x * scale * perspective) * k == v.x * scale * (perspective * k);
    assert (v.y * scale * perspective) * k == v.y * scale * (perspective * k);
    (width / 2.0 + v.x * scale * perspective, height / 2.0 - v.y * scale * perspective)
  }

  /** A point on the line of sight (x = y = 0) is drawn at the centre of the
      viewport, at any depth. */
  lemma ScreenCentre(z: real, width: real, height: real)
    requires FOCAL + z != 0.0
    ensures Screen(Point3D(0.0, 0.0, z), width, height).0 == width / 2.0
    ensures Screen(Point3D(0.0, 0.0, z), width, height).1 == height / 2.0
  {
    ScreenOnHorizontalPlane(0.0, z, width, height);
    assert 0.0 * Scale(width, height) * (FOCAL / (FOCAL + z)) == 0.0;
  }

  /** The perspective divide is defined for this view-space point. */
  predicate PerspectiveDefined(v: Point3D)
  {
    FOCAL + v.z != 0.0
  }

  /** The perspective divide is defined for every stored point in this frame. */
  predicate FrameDefined(m: MathLib, points: seq<TorusPoint>, angles: PlaneAngles, view: ViewRotation)
  {
    forall i :: 0 <= i < |points| ==> PerspectiveDefined(ViewPoint(m, points[i].original, angles, view))
  }

  /** One stored point as drawn this frame. */
  function Project(m: MathLib, p: TorusPoint, angles: PlaneAngles, view: ViewRotation, width: real, height: real)
    : (r: ProjectedPoint)
    requires PerspectiveDefined(ViewPoint(m, p.original, angles, view))
    ensures r.id == p.id && r.color == p.color
    ensures r.z == ViewPoint(m, p.original, angles, view).z
    ensures r.x == Screen(ViewPoint(m, p.original, angles, view), width, height).0
    ensures r.y == Screen(ViewPoint(m, p.original, angles, view), width, height).1
  {
    var v := ViewPoint(m, p.original, angles, view);
    var (x, y) := Screen(v, width, height);
    ProjectedPoint(p.id, x, y, v.z, p.color)
  }

  /** The mapping over the stored points: one projected point per stored
      point, in the stored order, each with its stored id and colour. */
  function MapFrame(m: MathLib, points: seq<TorusPoint>, angles: PlaneAngles, view: ViewRotation, width: real, height: real)
    : (r: seq<ProjectedPoint>)
    requires FrameDefined(m, points, angles, view)
    ensures |r| == |points|
    ensures forall i :: 0 <= i < |r| ==> r[i].id == points[i].id && r[i].color == points[i].color
    ensures forall i :: 0 <= i < |r| ==> r[i].z == ViewPoint(m, points[i].original, angles, view).z
    ensures forall i :: 0 <= i < |r| ==> r[i] == Project(m, points[i], angles, view, width, height)
  {
    seq(|points|, i requires 0 <= i < |points| => Project(m, points[i], angles, view, width, height))
  }

  /** Painter's order: depth never decreases along the sequence. */
  predicate SortedByDepth(s: seq<ProjectedPoint>)
  {
    forall i, j :: 0 <= i < j < |s| ==> s[i].z <= s[j].z
  }

  /** Each entry is no deeper than the next. */
  predicate AdjacentByDepth(s: seq<ProjectedPoint>)
  {
    forall i :: 0 < i < |s| ==> s[i - 1].z <= s[i].z
  }

  /** Painter's order is exactly the comparator's promise about neighbours:
      each of the two follows from the other. */
  lemma {:induction false} SortedIffAdjacent(s: seq<ProjectedPoint>)
    ensures SortedByDepth(s) <==> AdjacentByDepth(s)
  {
    if AdjacentByDepth(s) {
      forall i, j | 0 <= i < j < |s|
        ensures s[i].z <= s[j].z
      {
        AdjacentChain(s, i, j);
      }
    }
  }

  /** Along a sequence ordered neighbour by neighbour, depth does not
      decrease from i to j. */
  lemma {:induction false} AdjacentChain(s: seq<ProjectedPoint>, i: nat, j: nat)
    requires AdjacentByDepth(s) && i <= j < |s|
    ensures s[i].z <= s[j].z
    decreases j - i
  {
    if i < j {
      AdjacentChain(s, i, j - 1);
    }
  }

  /** The in-place depth sort of the frame callback, ascending in z: an
      insertion sort that leaves the array in painter's order and holds the
      same points. */
  method SortByDepth(a: array<ProjectedPoint>)
    modifies a
    ensures SortedByDepth(a[..])
    ensures multiset(a[..]) == old(multiset(a[..]))
  {
    var i := 0;
    while i < a.Length
      invariant 0 <= i <= a.Length
      invariant SortedByDepth(a[..i])
      invariant multiset(a[..]) == old(multiset(a[..]))
    {
      SinkIntoPlace(a, i);
      i := i + 1;
    }
    assert a[..a.Length] == a[..];
  }

  /** One pass of the insertion sort: moves a[i] down past every deeper
      entry of the sorted prefix a[..i]; a[i + 1..] is left alone. */
  method SinkIntoPlace(a: array<ProjectedPoint>, i: nat)
    requires i < a.Length && SortedByDepth(a[..i])
    modifies a
    ensures SortedByDepth(a[..i + 1])
    ensures multiset(a[..]) == old(multiset(a[..]))
    ensures forall k :: i < k < a.Length ==> a[k] == old(a[k])
  {
    var j := i;
    while j > 0 && a[j - 1].z > a[j].z
      invariant 0 <= j <= i
      invariant forall k, l :: 0 <= k < l <= i && k != j && l != j ==> a[k].z <= a[l].z
      invariant forall l :: j < l <= i ==> a[j].z < a[l].z
      invariant 0 < j < i ==> a[j - 1].z <= a[j + 1].z
      invariant multiset(a[..]) == old(multiset(a[..]))
      invariant forall k :: i < k < a.Length ==> a[k] == old(a[k])
    {
      SwapDown(a, j);
      j := j - 1;
    }
  }

  /** Exchanges a[j - 1] and a[j]. */
  method SwapDown(a: array<ProjectedPoint>, j: nat)
    requires 0 < j < a.Length
    modifies a
    ensures a[j - 1] == old(a[j]) && a[j] == old(a[j - 1])
    ensures forall k :: 0 <= k < a.Length && k != j - 1 && k != j ==> a[k] == old(a[k])
    ensures multiset(a[..]) == old(multiset(a[..]))
  {
    a[j - 1], a[j] := a[j], a[j - 1];
  }

  /** Circle radius `max(0.1, (z + 1.5)·0.8)`: never below 0.1, the floor
      0.1 wherever the affine depth cue is smaller, and the cue elsewhere. */
  function Radius(z: real): (r: real)
    ensures r >= 0.1 && r >= (z + FOCAL) * 0.8
    ensures (z + FOCAL) * 0.8 >= 0.1 ==> r == (z + FOCAL) * 0.8
    ensures (z + FOCAL) * 0.8 < 0.1 ==> r == 0.1
  {
    Max(0.1, (z + 1.5) * 0.8)
  }

  /** Fill opacity `max(0.1, (z + 1.5)·0.5)`: never below 0.1, the floor
      0.1 wherever the affine depth cue is smaller, and the cue elsewhere. */
  function Opacity(z: real): (r: real)
    ensures r >= 0.1 && r >= (z + FOCAL) * 0.5
    ensures (z + FOCAL) * 0.5 >= 0.1 ==> r == (z + FOCAL) * 0.5
    ensures (z + FOCAL) * 0.5 < 0.1 ==> r == 0.1
  {
    Max(0.1, (z + 1.5) * 0.5)
  }

  /** Nearer points (larger z) are drawn no smaller and no fainter. */
  lemma DepthCuesMonotone(z1: real, z2: real)
    requires z1 <= z2
    ensures Radius(z1) <= Radius(z2) && Opacity(z1) <= Opacity(z2)
  {
  }

  /** The attributes of one circle as bound to the drawing surface, keyed by
      the point's id. */
  datatype Circle = Circle(key: nat, cx: real, cy: real, r: real, fill: Color, fillOpacity: real)

  /** The attributes d3 sets on the circle of one projected point. */
  function Draw(p: ProjectedPoint): (c: Circle)
    ensures c.key == p.id && c.fill == p.color
    ensures c.cx == p.x && c.cy == p.y
    ensures c.r == Radius(p.z) && c.fillOpacity == Opacity(p.z)
    ensures c.r >= 0.1 && c.fillOpacity >= 0.1
  {
    Circle(p.id, p.x, p.y, Radius(p.z), p.color, Opacity(p.z))
  }

  /** The circles of a frame, in drawing order. */
  function Circles(frame: seq<ProjectedPoint>): (r: seq<Circle>)
    ensures |r| == |frame|
    ensures forall i :: 0 <= i < |r| ==> r[i].key == frame[i].id && r[i].r >= 0.1 && r[i].fillOpacity >= 0.1
    ensures forall i :: 0 <= i < |r| ==> r[i] == Draw(frame[i])
  {
    seq(|frame|, i requires 0 <= i < |frame| => Draw(frame[i]))
  }

  /** In painter's order the circles are drawn from the smallest and faintest
      to the largest and most opaque. */
  lemma PaintersOrderGrowsCircles(frame: seq<ProjectedPoint>)
    requires SortedByDepth(frame)
    ensures forall i, j :: 0 <= i < j < |frame| ==>
      Circles(frame)[i].r <= Circles(frame)[j].r && Circles(frame)[i].fillOpacity <= Circles(frame)[j].fillOpacity
  {
    var c := Circles(frame);
    forall i, j | 0 <= i < j < |frame|
      ensures c[i].r <= c[j].r && c[i].fillOpacity <= c[j].fillOpacity
    {
      DepthCuesMonotone(frame[i].z, frame[j].z);
    }
  }

  /** A generated point stays on the unit 3-sphere under every 4D rotation,
      and off the pole its stereographic image determines it. */
  lemma RotatedTorusPointOnSphere(m: MathLib, p: Point4D, angles: PlaneAngles)
    requires m.Valid() && OnCliffordTorus(p)
    ensures Rotate4D(m, p, angles).NormSq() == 1.0
    ensures !NearPole(Rotate4D(m, p, angles))
      ==> InverseStereographic(Stereographic(Rotate4D(m, p, angles))) == Rotate4D(m, p, angles)
  {
    TorusOnUnitSphere(p);
    Rotate4DKeepsNorm(m, p, angles);
    if !NearPole(Rotate4D(m, p, angles)) {
      StereographicRoundTrip(Rotate4D(m, p, angles));
    }
  }

  /** With every speed zero and the view unturned, the point drawn with
      θ = φ = 0 is (SQRT1_2, 0, SQRT1_2, 0); it projects to
      (SQRT1_2, 0, SQRT1_2) and lands on the horizontal centre line at
      x = width/2 + SQRT1_2·scale·1.5 / (1.5 + SQRT1_2). */
  lemma AtRestEndToEnd(m: MathLib, colorScale: real -> Color, i: nat, elapsed: real, params: TorusParameters,
                       width: real, height: real)
    requires m.Valid()
    requires params.rotationSpeedXY == params.rotationSpeedXZ == params.rotationSpeedXW == 0.0
    requires params.rotationSpeedYZ == params.rotationSpeedYW == params.rotationSpeedZW == 0.0
    ensures var p := TorusPointAt(m, colorScale, i, 0.0, 0.0);
      var s := m.Sqrt1_2();
      var angles := FrameAngles(elapsed, params);
      && p.original == Point4D(s, 0.0, s, 0.0)
      && ViewPoint(m, p.original, angles, ViewRotation(0.0, 0.0)) == Point3D(s, 0.0, s)
      && PerspectiveDefined(ViewPoint(m, p.original, angles, ViewRotation(0.0, 0.0)))
      && Project(m, p, angles, ViewRotation(0.0, 0.0), width, height)
         == ProjectedPoint(i, width / 2.0 + s * Scale(width, height) * (FOCAL / (FOCAL + s)), height / 2.0, s, p.color)
  {
    var p := TorusPointAt(m, colorScale, i, 0.0, 0.0);
    var s := m.Sqrt1_2();
    var angles := FrameAngles(elapsed, params);
    var view := ViewRotation(0.0, 0.0);
    assert 0.0 <= 0.5;
    assert s >= 0.0;
    assert m.cos(0.0) == 1.0 && m.sin(0.0) == 0.0;
    assert p.original == Point4D(s, 0.0, s, 0.0);
    assert angles == PlaneAngles(0.0, 0.0, 0.0, 0.0, 0.0, 0.0);
    Rotate4DAtZeroIsIdentity(m, p.original);
    StereographicFixesEquator(s, 0.0, s);
    Rotate3DAtZeroIsIdentity(m, Point3D(s, 0.0, s));
    var v := ViewPoint(m, p.original, angles, view);
    assert v == Point3D(s, 0.0, s);
    assert FOCAL + v.z != 0.0;
    var q := Project(m, p, angles, view, width, height);
    ScreenOnHorizontalPlane(s, s, width, height);
  }

  /** A view point with y = 0 is drawn on the horizontal centre line. */
  lemma ScreenOnHorizontalPlane(x: real, z: real, width: real, height: real)
    requires FOCAL + z != 0.0
    ensures Screen(Point3D(x, 0.0, z), width, height).0 == width / 2.0 + x * Scale(width, height) * (FOCAL / (FOCAL + z))
    ensures Screen(Point3D(x, 0.0, z), width, height).1 == height / 2.0
  {
    var perspective := FOCAL / (FOCAL + z);
    assert 0.0 * Scale(width, height) * perspective == 0.0;
  }

  /** The ids of a frame, in order. */
  function Ids(s: seq<ProjectedPoint>): (r: seq<nat>)
    ensures |r| == |s| && forall i :: 0 <= i < |s| ==> r[i] == s[i].id
  {
    seq(|s|, i requires 0 <= i < |s| => s[i].id)
  }

  /** The ids of the stored points, in order. */
  function StoredIds(points: seq<TorusPoint>): seq<nat>
  {
    seq(|points|, i requires 0 <= i < |points| => points[i].id)
  }

  /** The mapping keeps the stored ids, in the stored order. */
  lemma MapFrameKeepsIds(m: MathLib, points: seq<TorusPoint>, angles: PlaneAngles, view: ViewRotation,
                         width: real, height: real)
    requires FrameDefined(m, points, angles, view)
    ensures Ids(MapFrame(m, points, angles, view, width, height)) == StoredIds(points)
  {
    var mapped := MapFrame(m, points, angles, view, width, height);
    assert |Ids(mapped)| == |StoredIds(points)|;
    forall i | 0 <= i < |points|
      ensures Ids(mapped)[i] == StoredIds(points)[i]
    {
      assert mapped[i].id == points[i].id;
    }
  }

  /** The ids of a concatenation are the concatenated ids. */
  lemma IdsAppend(a: seq<ProjectedPoint>, b: seq<ProjectedPoint>)
    ensures Ids(a + b) == Ids(a) + Ids(b)
  {
  }

  /** Removing the entry at k removes one copy of it from the multiset. */
  lemma RemoveAt(t: seq<ProjectedPoint>, k: nat)
    requires k < |t|
    ensures t == t[..k] + [t[k]] + t[k + 1..]
    ensures multiset(t[..k] + t[k + 1..]) == multiset(t) - multiset{t[k]}
  {
    assert t == t[..k] + [t[k]] + t[k + 1..];
  }

  /** Two frames holding the same points hold the same ids, with the same
      multiplicities: sorting neither loses nor duplicates a key. */
  lemma {:induction false} SamePointsSameIds(s: seq<ProjectedPoint>, t: seq<ProjectedPoint>)
    requires multiset(s) == multiset(t)
    ensures multiset(Ids(s)) == multiset(Ids(t))
    decreases |s|
  {
    if s == [] {
      assert |multiset(t)| == 0;
    } else {
      var x := s[0];
      assert x in multiset(t);
      var k :| 0 <= k < |t| && t[k] == x;
      var rest := t[..k] + t[k + 1..];
      RemoveAt(t, k);
      assert s == [x] + s[1..];
      SamePointsSameIds(s[1..], rest);
      IdsAppend([x], s[1..]);
      IdsAppend(t[..k] + [x], t[k + 1..]);
      IdsAppend(t[..k], [x]);
      IdsAppend(t[..k], t[k + 1..]);
    }
  }
}
