/**
 * Homogeneous 4-component vectors (vector3.c).
 *
 * A `Vector3` carries x, y, z and the homogeneous weight w: w = 1 marks a
 * point, w = 0 a direction. Every operation returns a new value.
 * Arithmetic is over `real`; the source's `float` rounding is not modelled.
 */
module Vectors {

  datatype Vector3 = Vector3(x: real, y: real, z: real, w: real)

  /** The point (x, y, z): weight 1. */
  function CreatePoint(x: real, y: real, z: real): (r: Vector3)
    ensures r.w == 1.0
    ensures r.x == x && r.y == y && r.z == z
  {
    Vector3(x, y, z, 1.0)
  }

  /** The direction (x, y, z): weight 0, a point at infinity. */
  function CreateDirection(x: real, y: real, z: real): (r: Vector3)
    ensures r.w == 0.0
    ensures r.x == x && r.y == y && r.z == z
  {
    Vector3(x, y, z, 0.0)
  }

  /** Component-wise sum, the weight included. */
  function Add(a: Vector3, b: Vector3): Vector3
  {
    Vector3(a.x + b.x, a.y + b.y, a.z + b.z, a.w + b.w)
  }

  /** Component-wise difference, the weight included. */
  function Sub(a: Vector3, b: Vector3): Vector3
  {
    Vector3(a.x - b.x, a.y - b.y, a.z - b.z, a.w - b.w)
  }

  /** Scales all four components, the weight included. */
  function SMul(v: Vector3, s: real): Vector3
  {
    Vector3(s * v.x, s * v.y, s * v.z, s * v.w)
  }

  /** The 3-dimensional dot product; the weight takes no part. */
  function Dot(a: Vector3, b: Vector3): real
  {
    a.x * b.x + a.y * b.y + a.z * b.z
  }

  /** The cross product of the xyz parts, returned as a direction. */
  function Cross(a: Vector3, b: Vector3): Vector3
  {
    Vector3(a.y * b.z - a.z * b.y,
            a.z * b.x - a.x * b.z,
            a.x * b.y - a.y * b.x,
            0.0)
  }

  /** The squared length of the xyz part. */
  function NormSquared(v: Vector3): (r: real)
    ensures r == Dot(v, v)
    ensures r >= 0.0
  {
    v.x * v.x + v.y * v.y + v.z * v.z
  }

  /** The cross product is a direction perpendicular to both factors. */
  lemma CrossOrthogonal(a: Vector3, b: Vector3)
    ensures Cross(a, b).w == 0.0
    ensures Dot(Cross(a, b), a) == 0.0 && Dot(Cross(a, b), b) == 0.0
  {
  }

  /** `Sub` undoes `Add` in all four components. */
  lemma SubAddInverse(a: Vector3, b: Vector3)
    ensures Sub(Add(a, b), b) == a
    ensures Add(Sub(a, b), b) == a
  {
  }

  /** `Dot` is symmetric and blind to the weight. */
  lemma DotSymmetric(a: Vector3, b: Vector3)
    ensures Dot(a, b) == Dot(b, a)
    ensures Dot(a, b) == Dot(a.(w := 0.0), b.(w := 1.0))
  {
  }

  /** `Cross` is anti-commutative, and a vector crossed with itself is the zero direction. */
  lemma CrossAntiCommutative(a: Vector3, b: Vector3)
    ensures Cross(a, b) == SMul(Cross(b, a), -1.0)
    ensures Cross(a, a) == CreateDirection(0.0, 0.0, 0.0)
  {
  }

  /** Adding a point and a direction gives a point; the difference of two points is a direction. */
  lemma WeightArithmetic(p: Vector3, q: Vector3, d: Vector3)
    requires p.w == 1.0 && q.w == 1.0 && d.w == 0.0
    ensures Add(p, d).w == 1.0
    ensures Sub(p, q).w == 0.0
  {
  }

  /** `Dot` is linear in its first argument's scale. */
  lemma DotScales(a: Vector3, b: Vector3, k: real)
    ensures Dot(SMul(a, k), b) == k * Dot(a, b)
    ensures Dot(b, SMul(a, k)) == k * Dot(a, b)
  {
  }

  /** `Dot` distributes over a difference. */
  lemma DotSub(a: Vector3, p: Vector3, q: Vector3)
    ensures Dot(a, Sub(p, q)) == Dot(a, p) - Dot(a, q)
  {
  }
}
