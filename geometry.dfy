/** The three geometric transforms of the engine: the time-driven rotation
    of 4-space in six coordinate planes, the stereographic projection from
    the 3-sphere to 3-space, and the interactive viewing rotation of 3-space. */
module Geometry {
  import opened JsMath
  import opened Types

  /** The six rotation planes, named by the pair of coordinates each turns. */
  datatype Plane = XY | XZ | XW | YZ | YW | ZW
  {
    /** Index of the coordinate a rotation in this plane turns first. */
    function First(): nat
    {
      match this
      case XY | XZ | XW => 0
      case YZ | YW => 1
      case ZW => 2
    }

    /** Index of the coordinate a rotation in this plane turns second. */
    function Second(): nat
    {
      match this
      case XY => 1
      case XZ | YZ => 2
      case XW | YW | ZW => 3
    }
  }

  /** One angle per plane, the array [a_xy, a_xz, a_xw, a_yz, a_yw, a_zw]. */
  datatype PlaneAngles = PlaneAngles(xy: real, xz: real, xw: real, yz: real, yw: real, zw: real)

  /** A 2D rotation keeps the squared length of the pair it turns whenever its
      cosine/sine pair lies on the unit circle. */
  lemma RotationKeepsLength(c: real, s: real, u: real, v: real, u': real, v': real)
    requires c * c + s * s == 1.0
    requires u' == u * c - v * s && v' == u * s + v * c
    ensures u' * u' + v' * v' == u * u + v * v
  {
    calc {
      u' * u' + v' * v';
      == (u * c - v * s) * (u * c - v * s) + (u * s + v * c) * (u * s + v * c);
      == u * u * (c * c + s * s) + v * v * (c * c + s * s);
      == u * u + v * v;
    }
  }

  /** The rotation by `angle` in one plane, applied to the coordinate pair of
      that plane and to nothing else. */
  function RotatePlane(m: MathLib, plane: Plane, angle: real, p: Point4D): (r: Point4D)
    ensures forall k :: 0 <= k < 4 && k != plane.First() && k != plane.Second() ==> r.At(k) == p.At(k)
  {
    var i, j := plane.First(), plane.Second();
    var c, s := m.cos(angle), m.sin(angle);
    p.With(i, p.At(i) * c - p.At(j) * s).With(j, p.At(i) * s + p.At(j) * c)
  }

  /** Two points that agree outside the coordinate pair (i, j) and whose
      pairs have the same squared length have the same squared norm. */
  lemma SamePairLengthSameNorm(p: Point4D, r: Point4D, i: nat, j: nat)
    requires i < j < 4
    requires forall k :: 0 <= k < 4 && k != i && k != j ==> r.At(k) == p.At(k)
    requires r.At(i) * r.At(i) + r.At(j) * r.At(j) == p.At(i) * p.At(i) + p.At(j) * p.At(j)
    ensures r.NormSq() == p.NormSq()
  {
    assert r.At(0) == r.x && r.At(1) == r.y && r.At(2) == r.z && r.At(3) == r.w;
    assert p.At(0) == p.x && p.At(1) == p.y && p.At(2) == p.z && p.At(3) == p.w;
  }

  /** Every plane rotation is orthogonal: it keeps x² + y² + z² + w². */
  lemma RotatePlaneKeepsNorm(m: MathLib, plane: Plane, angle: real, p: Point4D)
    requires m.Valid()
    ensures RotatePlane(m, plane, angle, p).NormSq() == p.NormSq()
  {
    UnitCircleRotationKeepsNorm(m, plane, angle, p);
  }

  /** A plane rotation whose cosine/sine pair lies on the unit circle keeps
      x² + y² + z² + w². */
  lemma UnitCircleRotationKeepsNorm(m: MathLib, plane: Plane, angle: real, p: Point4D)
    requires m.cos(angle) * m.cos(angle) + m.sin(angle) * m.sin(angle) == 1.0
    ensures RotatePlane(m, plane, angle, p).NormSq() == p.NormSq()
  {
    var i, j := plane.First(), plane.Second();
    var r := RotatePlane(m, plane, angle, p);
    RotationKeepsLength(m.cos(angle), m.sin(angle), p.At(i), p.At(j), r.At(i), r.At(j));
    SamePairLengthSameNorm(p, r, i, j);
  }

  /** rotate4D: the six plane rotations in the order XY, XZ, XW, YZ, YW, ZW,
      each step reading the coordinates left by the step before, so the
      result is their sequential composition, XY first and ZW last. */
  function Rotate4D(m: MathLib, p: Point4D, a: PlaneAngles): (r: Point4D)
    ensures r == RotatePlane(m, ZW, a.zw, RotatePlane(m, YW, a.yw, RotatePlane(m, YZ, a.yz,
                   RotatePlane(m, XW, a.xw, RotatePlane(m, XZ, a.xz, RotatePlane(m, XY, a.xy, p))))))
  {
    // xy plane
    var x1 := p.x * m.cos(a.xy) - p.y * m.sin(a.xy);
    var y1 := p.x * m.sin(a.xy) + p.y * m.cos(a.xy);
    // xz plane
    var x2 := x1 * m.cos(a.xz) - p.z * m.sin(a.xz);
    var z1 := x1 * m.sin(a.xz) + p.z * m.cos(a.xz);
    // xw plane
    var x3 := x2 * m.cos(a.xw) - p.w * m.sin(a.xw);
    var w1 := x2 * m.sin(a.xw) + p.w * m.cos(a.xw);
    // yz plane
    var y2 := y1 * m.cos(a.yz) - z1 * m.sin(a.yz);
    var z2 := y1 * m.sin(a.yz) + z1 * m.cos(a.yz);
    // yw plane
    var y3 := y2 * m.cos(a.yw) - w1 * m.sin(a.yw);
    var w2 := y2 * m.sin(a.yw) + w1 * m.cos(a.yw);
    // zw plane
    var z3 := z2 * m.cos(a.zw) - w2 * m.sin(a.zw);
    var w3 := z2 * m.sin(a.zw) + w2 * m.cos(a.zw);
    Point4D(x3, y3, z3, w3)
  }

  /** rotate4D keeps x² + y² + z² + w²: it maps the unit 3-sphere to itself. */
  lemma Rotate4DKeepsNorm(m: MathLib, p: Point4D, a: PlaneAngles)
    requires m.Valid()
    ensures Rotate4D(m, p, a).NormSq() == p.NormSq()
  {
    var p1 := RotatePlane(m, XY, a.xy, p);
    var p2 := RotatePlane(m, XZ, a.xz, p1);
    var p3 := RotatePlane(m, XW, a.xw, p2);
    var p4 := RotatePlane(m, YZ, a.yz, p3);
    var p5 := RotatePlane(m, YW, a.yw, p4);
    RotatePlaneKeepsNorm(m, XY, a.xy, p);
    RotatePlaneKeepsNorm(m, XZ, a.xz, p1);
    RotatePlaneKeepsNorm(m, XW, a.xw, p2);
    RotatePlaneKeepsNorm(m, YZ, a.yz, p3);
    RotatePlaneKeepsNorm(m, YW, a.yw, p4);
    RotatePlaneKeepsNorm(m, ZW, a.zw, p5);
  }

  /** With all six angles zero rotate4D returns its input. */
  lemma Rotate4DAtZeroIsIdentity(m: MathLib, p: Point4D)
    requires m.Valid()
    ensures Rotate4D(m, p, PlaneAngles(0.0, 0.0, 0.0, 0.0, 0.0, 0.0)) == p
  {
  }

  /** Below this distance of 1 - w from zero the projection gives up. */
  const POLE_EPSILON: real := 0.000001

  /** The point is at or near the projection pole w = 1. */
  predicate NearPole(p: Point4D)
  {
    Abs(1.0 - p.w) < POLE_EPSILON
  }

  /** stereographicProjection: (x, y, z, w) to (x, y, z) / (1 - w), and the
      origin near the pole. */
  function Stereographic(p: Point4D): (r: Point3D)
    ensures NearPole(p) ==> r == Point3D(0.0, 0.0, 0.0)
    ensures !NearPole(p) ==> r.x * (1.0 - p.w) == p.x && r.y * (1.0 - p.w) == p.y && r.z * (1.0 - p.w) == p.z
  {
    var den := 1.0 - p.w;
    if Abs(den) < POLE_EPSILON then Point3D(0.0, 0.0, 0.0)
    else Point3D(p.x / den, p.y / den, p.z / den)
  }

  /** On the hyperplane w = 0 the projection is the identity on (x, y, z). */
  lemma StereographicFixesEquator(x: real, y: real, z: real)
    ensures Stereographic(Point4D(x, y, z, 0.0)) == Point3D(x, y, z)
  {
  }

  /** The inverse of stereographic projection, from 3-space onto the unit
      3-sphere minus the pole. */
  function InverseStereographic(q: Point3D): (r: Point4D)
  {
    var n := q.NormSq();
    Point4D(2.0 * q.x / (n + 1.0), 2.0 * q.y / (n + 1.0), 2.0 * q.z / (n + 1.0), (n - 1.0) / (n + 1.0))
  }

  /** a / k is b as soon as a is b times a non-zero k. */
  lemma DivideBack(a: real, b: real, k: real)
    requires k != 0.0 && a == b * k
    ensures a / k == b
  {
  }

  /** A non-zero factor cancels on both sides of an equation. */
  lemma CancelFactor(a: real, b: real, d: real)
    requires d != 0.0 && a * d == b * d
    ensures a == b
  {
    assert (a - b) * d == 0.0;
  }

  /** Scaling three numbers by d scales their sum of squares by d². */
  lemma ScaledSquares(a: real, b: real, c: real, d: real, x: real, y: real, z: real)
    requires a * d == x && b * d == y && c * d == z
    ensures (a * a + b * b + c * c) * (d * d) == x * x + y * y + z * z
  {
    calc {
      (a * a + b * b + c * c) * (d * d);
      == (a * d) * (a * d) + (b * d) * (b * d) + (c * d) * (c * d);
      == x * x + y * y + z * z;
    }
  }

  /** The arithmetic core of the round trip: if n d² = (2 - d) d with d
      non-zero then (n + 1) d = 2. */
  lemma ProjectedNormScale(n: real, d: real, sum: real)
    requires d != 0.0 && n * (d * d) == sum && sum == (2.0 - d) * d
    ensures (n + 1.0) * d == 2.0
  {
    assert (n * d) * d == (2.0 - d) * d;
    CancelFactor(n * d, 2.0 - d, d);
  }

  /** Projecting a point of the unit 3-sphere away from the pole and lifting
      it back gives the point again: off the pole the projection loses
      nothing. */
  lemma StereographicRoundTrip(p: Point4D)
    requires p.NormSq() == 1.0 && !NearPole(p)
    ensures InverseStereographic(Stereographic(p)) == p
  {
    var d := 1.0 - p.w;
    var q := Stereographic(p);
    var n := q.NormSq();
    assert d != 0.0;
    assert n == q.x * q.x + q.y * q.y + q.z * q.z;
    ScaledSquares(q.x, q.y, q.z, d, p.x, p.y, p.z);
    // x² + y² + z² = 1 - w² = (2 - d) d on the sphere
    assert p.x * p.x + p.y * p.y + p.z * p.z == 1.0 - p.w * p.w;
    assert 1.0 - p.w * p.w == (2.0 - d) * d by {
      assert p.w == 1.0 - d;
    }
    var sum := p.x * p.x + p.y * p.y + p.z * p.z;
    assert n * (d * d) == sum;
    assert sum == (2.0 - d) * d;
    var k := n + 1.0;
    ProjectedNormScale(n, d, sum);
    DivideBack(2.0 * q.x, p.x, k);
    DivideBack(2.0 * q.y, p.y, k);
    DivideBack(2.0 * q.z, p.z, k);
    DivideBack(n - 1.0, p.w, k);
  }

  /** Every lifted point lies on the unit 3-sphere. */
  lemma InverseStereographicOnSphere(q: Point3D)
    ensures InverseStereographic(q).NormSq() == 1.0
  {
    var n := q.NormSq();
    var k := n + 1.0;
    var r := InverseStereographic(q);
    assert n == q.x * q.x + q.y * q.y + q.z * q.z;
    assert n >= 0.0;
    DivideTimes(2.0 * q.x, k);
    DivideTimes(2.0 * q.y, k);
    DivideTimes(2.0 * q.z, k);
    DivideTimes(n - 1.0, k);
    LiftedNormScale(r, n, k, q.x, q.y, q.z);
    CancelFactor(r.NormSq(), 1.0, k * k);
  }

  /** (a / k)·k = a for non-zero k. */
  lemma DivideTimes(a: real, k: real)
    requires k != 0.0
    ensures (a / k) * k == a
  {
  }

  /** The arithmetic core of InverseStereographicOnSphere: with
      n = a² + b² + c² and k = n + 1, a point whose coordinates times k are
      (2a, 2b, 2c, n - 1) has squared norm times k² equal to k². */
  lemma LiftedNormScale(r: Point4D, n: real, k: real, a: real, b: real, c: real)
    requires n == a * a + b * b + c * c && k == n + 1.0
    requires r.x * k == 2.0 * a && r.y * k == 2.0 * b && r.z * k == 2.0 * c && r.w * k == n - 1.0
    ensures r.NormSq() * (k * k) == k * k
  {
    ScaledSquares(r.x, r.y, r.z, k, 2.0 * a, 2.0 * b, 2.0 * c);
    var s := r.x * r.x + r.y * r.y + r.z * r.z;
    assert s * (k * k) == 4.0 * n;
    assert (r.w * r.w) * (k * k) == (n - 1.0) * (n - 1.0) by {
      assert (r.w * r.w) * (k * k) == (r.w * k) * (r.w * k);
    }
    assert 4.0 * n + (n - 1.0) * (n - 1.0) == k * k;
    assert r.NormSq() == s + r.w * r.w;
  }

  /** Lifting a point of 3-space to the sphere and projecting it again gives
      the point back, unless the lifted point falls inside the pole guard. */
  lemma StereographicOfInverse(q: Point3D)
    requires !NearPole(InverseStereographic(q))
    ensures Stereographic(InverseStereographic(q)) == q
  {
    var n := q.NormSq();
    var k := n + 1.0;
    var r := InverseStereographic(q);
    assert n >= 0.0;
    var d := 1.0 - r.w;
    assert r.w * k == n - 1.0;
    assert d * k == 2.0;
    assert r.x * k == 2.0 * q.x && r.y * k == 2.0 * q.y && r.z * k == 2.0 * q.z;
    assert d != 0.0;
    LiftedCoordinate(r.x, q.x, d, k);
    LiftedCoordinate(r.y, q.y, d, k);
    LiftedCoordinate(r.z, q.z, d, k);
  }

  /** If u k = 2 c and d k = 2 with d non-zero then u / d = c. */
  lemma LiftedCoordinate(u: real, c: real, d: real, k: real)
    requires d != 0.0 && u * k == 2.0 * c && d * k == 2.0
    ensures u / d == c
  {
    assert (c * d) * k == c * 2.0;
    assert k != 0.0;
    CancelFactor(u, c * d, k);
    DivideBack(u, c, d);
  }

  /** The yaw step of rotate3D: a turn about the vertical (y) axis. */
  function Yaw(m: MathLib, angle: real, p: Point3D): (r: Point3D)
    ensures r.y == p.y
  {
    Point3D(p.x * m.cos(angle) + p.z * m.sin(angle), p.y, -p.x * m.sin(angle) + p.z * m.cos(angle))
  }

  /** The pitch step of rotate3D: a turn about the horizontal (x) axis. */
  function Pitch(m: MathLib, angle: real, p: Point3D): (r: Point3D)
    ensures r.x == p.x
  {
    Point3D(p.x, p.y * m.cos(angle) - p.z * m.sin(angle), p.y * m.sin(angle) + p.z * m.cos(angle))
  }

  /** rotate3D: the yaw by angles.y, then the pitch by angles.x on the
      coordinates the yaw left. */
  function Rotate3D(m: MathLib, p: Point3D, angles: ViewRotation): (r: Point3D)
    ensures r == Pitch(m, angles.x, Yaw(m, angles.y, p))
  {
    // Y-axis rotation
    var x1 := p.x * m.cos(angles.y) + p.z * m.sin(angles.y);
    var z1 := -p.x * m.sin(angles.y) + p.z * m.cos(angles.y);
    // X-axis rotation
    var y1 := p.y * m.cos(angles.x) - z1 * m.sin(angles.x);
    var z2 := p.y * m.sin(angles.x) + z1 * m.cos(angles.x);
    Point3D(x1, y1, z2)
  }

  /** rotate3D leaves the origin where it is, whatever the view angles. */
  lemma Rotate3DFixesOrigin(m: MathLib, angles: ViewRotation)
    ensures Rotate3D(m, Point3D(0.0, 0.0, 0.0), angles) == Point3D(0.0, 0.0, 0.0)
  {
    var cy, sy, cx, sx := m.cos(angles.y), m.sin(angles.y), m.cos(angles.x), m.sin(angles.x);
    assert 0.0 * cy + 0.0 * sy == 0.0 && -0.0 * sy + 0.0 * cy == 0.0;
    assert 0.0 * cx - 0.0 * sx == 0.0 && 0.0 * sx + 0.0 * cx == 0.0;
  }

  /** The yaw keeps x² + y² + z². */
  lemma YawKeepsNorm(m: MathLib, angle: real, p: Point3D)
    requires m.Valid()
    ensures Yaw(m, angle, p).NormSq() == p.NormSq()
  {
    var c, s := m.cos(angle), m.sin(angle);
    var r := Yaw(m, angle, p);
    assert c * c + (-s) * (-s) == 1.0;
    RotationKeepsLength(c, -s, p.x, p.z, r.x, r.z);
  }

  /** The pitch keeps x² + y² + z². */
  lemma PitchKeepsNorm(m: MathLib, angle: real, p: Point3D)
    requires m.Valid()
    ensures Pitch(m, angle, p).NormSq() == p.NormSq()
  {
    var r := Pitch(m, angle, p);
    RotationKeepsLength(m.cos(angle), m.sin(angle), p.y, p.z, r.y, r.z);
  }

  /** rotate3D keeps x² + y² + z²: the view rotation does not move points
      towards or away from the origin. */
  lemma Rotate3DKeepsNorm(m: MathLib, p: Point3D, angles: ViewRotation)
    requires m.Valid()
    ensures Rotate3D(m, p, angles).NormSq() == p.NormSq()
  {
    YawKeepsNorm(m, angles.y, p);
    PitchKeepsNorm(m, angles.x, Yaw(m, angles.y, p));
  }

  /** With pitch and yaw both zero rotate3D returns its input. */
  lemma Rotate3DAtZeroIsIdentity(m: MathLib, p: Point3D)
    requires m.Valid()
    ensures Rotate3D(m, p, ViewRotation(0.0, 0.0)) == p
  {
  }
}
