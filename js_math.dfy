/** The few members of JavaScript's `Math` object the animation engine uses,
    over idealised real numbers. `abs`, `min` and `max` are defined outright;
    `cos`, `sin`, `sqrt` and `PI` cannot be written as exact real functions, so
    they are carried as a value whose `Valid()` states the identities the
    engine relies on. */
module JsMath {

  /** Math.abs */
  function Abs(v: real): (r: real)
    ensures r >= 0.0 && (r == v || r == -v)
  {
    if v < 0.0 then -v else v
  }

  /** Math.min of two arguments */
  function Min(a: real, b: real): (r: real)
    ensures r <= a && r <= b && (r == a || r == b)
  {
    if a <= b then a else b
  }

  /** Math.max of two arguments */
  function Max(a: real, b: real): (r: real)
    ensures r >= a && r >= b && (r == a || r == b)
  {
    if a >= b then a else b
  }

  /** Math.cos, Math.sin, Math.sqrt and Math.PI. */
  datatype MathLib = MathLib(cos: real -> real, sin: real -> real, sqrt: real -> real, pi: real)
  {
    /** The facts about the transcendental functions the engine depends on:
        every (cos a, sin a) lies on the unit circle, the angle 0 gives
        (1, 0), a square root squares back to its argument, and PI is positive. */
    ghost predicate Valid()
    {
      && pi > 0.0
      && cos(0.0) == 1.0
      && sin(0.0) == 0.0
      && (forall a: real :: cos(a) * cos(a) + sin(a) * sin(a) == 1.0)
      && (forall v: real :: 0.0 <= v ==> 0.0 <= sqrt(v) && sqrt(v) * sqrt(v) == v)
    }

    /** SQRT1_2, the module constant `Math.sqrt(0.5)`: the positive number
        whose square is 1/2. */
    function Sqrt1_2(): (r: real)
      ensures Valid() ==> r > 0.0 && r * r == 0.5
    {
      sqrt(0.5)
    }
  }
}
