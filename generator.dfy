/** The point generator: `count` points on the Clifford torus
    x² + y² = z² + w² = 1/2, with sequential ids and a colour taken from the
    second angle. The random angles are inputs here. */
module Generator {
  import opened JsMath
  import opened Types

  /** The flat Clifford-torus constraint. */
  predicate OnCliffordTorus(p: Point4D)
  {
    p.x * p.x + p.y * p.y == 0.5 && p.z * p.z + p.w * p.w == 0.5
  }

  /** Point i, drawn with angles theta and phi: (SQRT1_2 cos θ, SQRT1_2 sin θ,
      SQRT1_2 cos φ, SQRT1_2 sin φ), coloured by φ / 2π. */
  function TorusPointAt(m: MathLib, colorScale: real -> Color, i: nat, theta: real, phi: real): (r: TorusPoint)
    requires m.Valid()
    ensures r.id == i
    ensures OnCliffordTorus(r.original)
    ensures r.color == colorScale(phi / (2.0 * m.pi))
  {
    var h := m.Sqrt1_2();
    assert m.cos(theta) * m.cos(theta) + m.sin(theta) * m.sin(theta) == 1.0;
    assert m.cos(phi) * m.cos(phi) + m.sin(phi) * m.sin(phi) == 1.0;
    ScaledUnitPair(h, m.cos(theta), m.sin(theta), h * m.cos(theta), h * m.sin(theta));
    ScaledUnitPair(h, m.cos(phi), m.sin(phi), h * m.cos(phi), h * m.sin(phi));
    var point := Point4D(
      m.Sqrt1_2() * m.cos(theta),
      m.Sqrt1_2() * m.sin(theta),
      m.Sqrt1_2() * m.cos(phi),
      m.Sqrt1_2() * m.sin(phi));
    TorusPoint(i, point, colorScale(phi / (2.0 * m.pi)))
  }

  /** generatePoints: one point per pair of angles, ids 0, 1, ..., count - 1
      in order, each point's colour a function of its own φ alone. */
  function GeneratePoints(m: MathLib, colorScale: real -> Color, count: nat, thetas: seq<real>, phis: seq<real>)
    : (r: seq<TorusPoint>)
    requires m.Valid()
    requires |thetas| == count && |phis| == count
    ensures |r| == count
    ensures forall i :: 0 <= i < count ==> r[i].id == i
    ensures forall i :: 0 <= i < count ==> r[i].color == colorScale(phis[i] / (2.0 * m.pi))
    ensures forall i :: 0 <= i < count ==> OnCliffordTorus(r[i].original)
  {
    seq(count, i requires 0 <= i < count => TorusPointAt(m, colorScale, i, thetas[i], phis[i]))
  }

  /** A point of the unit circle scaled by a number whose square is 1/2
      lies on the circle of squared radius 1/2. */
  lemma ScaledUnitPair(h: real, c: real, s: real, u: real, v: real)
    requires h * h == 0.5 && c * c + s * s == 1.0
    requires u == h * c && v == h * s
    ensures u * u + v * v == 0.5
  {
    calc {
      u * u + v * v;
      == (h * h) * (c * c + s * s);
      == 0.5;
    }
  }

  /** A point of the Clifford torus lies on the unit 3-sphere. */
  lemma TorusOnUnitSphere(p: Point4D)
    requires OnCliffordTorus(p)
    ensures p.NormSq() == 1.0
  {
  }
}
