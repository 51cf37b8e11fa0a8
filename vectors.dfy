/** Two-dimensional vectors over the reals, standing for pyglet's `Vec2`.
    Floating point is not modelled; distances are compared through squared lengths. */
module Vectors {

  datatype Vec = Vec(x: real, y: real)

  const Zero := Vec(0.0, 0.0)

  function Add(a: Vec, b: Vec): Vec { Vec(a.x + b.x, a.y + b.y) }

  function Sub(a: Vec, b: Vec): Vec { Vec(a.x - b.x, a.y - b.y) }

  function Neg(a: Vec): Vec { Vec(-a.x, -a.y) }

  function Dot(a: Vec, b: Vec): real { a.x * b.x + a.y * b.y }

  /** Zero exactly when `a` and `b` are parallel (or one of them is zero). */
  function Cross(a: Vec, b: Vec): real { a.x * b.y - a.y * b.x }

  /** The squared length |a|^2. */
  function SqMag(a: Vec): (r: real)
    ensures r >= 0.0
  {
    a.x * a.x + a.y * a.y
  }

  /** The squared Euclidean distance between two points, as `math.dist` squared. */
  function SqDist(a: Vec, b: Vec): (r: real)
    ensures r >= 0.0
  {
    SqMag(Sub(a, b))
  }

  /** `math.dist(a, b) < range`, compared through squares (a distance is never negative). */
  predicate Within(a: Vec, b: Vec, range: real) {
    range > 0.0 && SqDist(a, b) < range * range
  }

  /** `math.dist(a, b) > range`, compared through squares. */
  predicate Beyond(a: Vec, b: Vec, range: real) {
    range < 0.0 || SqDist(a, b) > range * range
  }

  /** The sum of a list of vectors, accumulated from the front as the loop
      `net = Vec2(); for f in forces: net += f` does. */
  function Sum(vs: seq<Vec>): Vec
    decreases |vs|
  {
    if |vs| == 0 then Zero else Add(Sum(vs[..|vs| - 1]), vs[|vs| - 1])
  }

  /** The two pyglet operations whose bodies are not part of this model:
      `Vec2.from_magnitude(m)` and `Vec2.limit(m)`. Both RETURN a new vector. */
  datatype Vec2Ops = Vec2Ops(fromMagnitude: (Vec, real) -> Vec, limit: (Vec, real) -> Vec)

  /** `from_magnitude` normalises, then scales: the zero vector stays zero; any other
      vector keeps its line, has length |m|, and points along `v` for m > 0 and
      against it for m < 0. */
  ghost predicate FromMagnitudeLaw(v: Vec, m: real, r: Vec) {
    && (v == Zero ==> r == Zero)
    && (v != Zero ==> SqMag(r) == m * m && Cross(v, r) == 0.0 && Dot(v, r) * m >= 0.0)
  }

  /** `limit` bounds the length by a non-negative maximum, leaves a short vector
      as it is and never turns a vector around. */
  ghost predicate LimitLaw(v: Vec, m: real, r: Vec) {
    m >= 0.0 ==>
      && SqMag(r) <= m * m
      && (SqMag(v) <= m * m ==> r == v)
      && Cross(v, r) == 0.0 && Dot(v, r) >= 0.0
  }

  ghost predicate Lawful(ops: Vec2Ops) {
    && (forall v, m :: FromMagnitudeLaw(v, m, ops.fromMagnitude(v, m)))
    && (forall v, m :: LimitLaw(v, m, ops.limit(v, m)))
  }

  lemma PositiveProduct(a: real, b: real)
    requires a > 0.0 && b > 0.0
    ensures a * b > 0.0
  {
  }

  lemma NonNegativeProduct(a: real, b: real)
    requires a >= 0.0 && b >= 0.0
    ensures a * b >= 0.0
  {
  }

  /** For non-negative `dist` and `r`, comparing the squares orders them as the
      numbers themselves. */
  lemma SquaresOrderLikeDistances(dist: real, r: real)
    requires dist >= 0.0 && r >= 0.0
    ensures dist < r <==> dist * dist < r * r
  {
    if dist < r {
      PositiveProduct(r - dist, r + dist);
      assert r * r - dist * dist == (r - dist) * (r + dist);
    } else {
      NonNegativeProduct(dist - r, dist + r);
      assert dist * dist - r * r == (dist - r) * (dist + r);
    }
  }

  /** `Within` is the strict comparison of the Euclidean distance `dist` with the range. */
  lemma WithinIsStrictDistance(a: Vec, b: Vec, range: real, dist: real)
    requires dist >= 0.0 && dist * dist == SqDist(a, b)
    ensures Within(a, b, range) <==> dist < range
  {
    if range > 0.0 {
      SquaresOrderLikeDistances(dist, range);
    }
  }

  /** `Beyond` is the strict comparison of the Euclidean distance `dist` with the range. */
  lemma BeyondIsStrictDistance(a: Vec, b: Vec, range: real, dist: real)
    requires dist >= 0.0 && dist * dist == SqDist(a, b)
    ensures Beyond(a, b, range) <==> dist > range
  {
    if range >= 0.0 {
      SquaresOrderLikeDistances(range, dist);
      if dist == range {
        assert dist * dist == range * range;
      }
    }
  }
}
