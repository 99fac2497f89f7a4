/**
 * Vector arithmetic shared by the spline, traveler and mesh models.
 *
 * Unity's `Vector3` is a triple of reals here; `float` rounding is not modelled.
 * The Euclidean norm (`magnitude`, `Vector3.Distance`) and `normalized` need a
 * square root, which has no exact real-arithmetic definition, so they are supplied
 * by the caller as a `Geometry`; the only fact the model relies on is that a norm is
 * never negative.
 */
module Geometry {

  datatype Vec3 = Vec3(x: real, y: real, z: real)

  datatype Vec2 = Vec2(u: real, v: real)

  const Zero: Vec3 := Vec3(0.0, 0.0, 0.0)
  const Up: Vec3 := Vec3(0.0, 1.0, 0.0)

  /** `float.MaxValue`, the initial "best so far" of `SplineTraveler`'s nearest-point searches. */
  const FloatMax: real := 340282346638528859811704183484516925440.0

  function Add(a: Vec3, b: Vec3): Vec3 { Vec3(a.x + b.x, a.y + b.y, a.z + b.z) }

  function Sub(a: Vec3, b: Vec3): Vec3 { Vec3(a.x - b.x, a.y - b.y, a.z - b.z) }

  function Scale(c: real, a: Vec3): Vec3 { Vec3(c * a.x, c * a.y, c * a.z) }

  function Neg(a: Vec3): Vec3 { Vec3(-a.x, -a.y, -a.z) }

  function Cross(a: Vec3, b: Vec3): Vec3 {
    Vec3(a.y * b.z - a.z * b.y, a.z * b.x - a.x * b.z, a.x * b.y - a.y * b.x)
  }

  /** `Mathf.Clamp(v, lo, hi)`: the lower bound is tested first. */
  function Clamp(v: real, lo: real, hi: real): (r: real)
    ensures lo <= hi ==> lo <= r <= hi
    ensures lo <= v <= hi ==> r == v
  {
    if v < lo then lo else if v > hi then hi else v
  }

  function Clamp01(v: real): (r: real)
    ensures 0.0 <= r <= 1.0
    ensures 0.0 <= v <= 1.0 ==> r == v
  {
    Clamp(v, 0.0, 1.0)
  }

  function Min(a: real, b: real): real { if a < b then a else b }

  function Max(a: real, b: real): real { if a > b then a else b }

  /** `Vector3.Lerp`, which clamps its parameter into [0, 1]. */
  function Lerp(a: Vec3, b: Vec3, t: real): (r: Vec3)
    ensures t <= 0.0 ==> r == a
    ensures t >= 1.0 ==> r == b
  {
    var s := Clamp01(t);
    Add(a, Scale(s, Sub(b, a)))
  }

  /** The two engine operations that need a square root. */
  datatype GeometryOps = GeometryOps(norm: Vec3 -> real, normalize: Vec3 -> Vec3)

  /** A `GeometryOps` whose norm is never negative, as a Euclidean magnitude is. */
  type Geometry = g: GeometryOps | forall v :: g.norm(v) >= 0.0
    witness GeometryOps((v: Vec3) => 0.0, (v: Vec3) => v)

  /** `Vector3.Distance(a, b)`, the magnitude of `a - b`. */
  function Distance(g: Geometry, a: Vec3, b: Vec3): (r: real)
    ensures r >= 0.0
  {
    g.norm(Sub(a, b))
  }

  /** `(end - start).normalized` */
  function DirectionBetween(g: Geometry, start: Vec3, end: Vec3): Vec3 {
    g.normalize(Sub(end, start))
  }
}
