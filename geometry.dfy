/** Plain vector records and the C# `(int)` cast on floating-point values. */
module Geometry {

  datatype Vec2 = Vec2(x: real, y: real)

  datatype Vec3 = Vec3(x: real, y: real, z: real)

  /** C#'s `(int)f`: truncation toward zero (values out of the int range are not modelled). */
  function Trunc(r: real): (n: int)
    ensures n as real <= r < n as real + 1.0 || n as real - 1.0 < r <= n as real
    ensures 0.0 <= r ==> 0 <= n && n as real <= r < n as real + 1.0
    ensures r <= 0.0 ==> n <= 0 && n as real - 1.0 < r <= n as real
  {
    if r >= 0.0 then r.Floor else -((-r).Floor)
  }

  /** Truncation leaves whole numbers alone. */
  lemma TruncOfInt(n: int)
    ensures Trunc(n as real) == n
  {
  }

  /** Truncation moves a value by strictly less than one. */
  lemma TruncError(r: real)
    ensures -1.0 < Trunc(r) as real - r < 1.0
  {
  }

  function Abs(r: real): (a: real)
    ensures a >= 0.0 && (a == r || a == -r)
  {
    if r < 0.0 then -r else r
  }

  function Min(a: real, b: real): (m: real)
    ensures m <= a && m <= b && (m == a || m == b)
  {
    if a <= b then a else b
  }

  function Max(a: real, b: real): (m: real)
    ensures m >= a && m >= b && (m == a || m == b)
  {
    if a >= b then a else b
  }

  /** The square of Unity's `Vector3.Distance(p, q)`. */
  function SquaredDistance(p: Vec3, q: Vec3): (d: real)
    ensures d >= 0.0
  {
    SquaresNonNegative(p.x - q.x, p.y - q.y, p.z - q.z);
    (p.x - q.x) * (p.x - q.x) + (p.y - q.y) * (p.y - q.y) + (p.z - q.z) * (p.z - q.z)
  }

  lemma SquaredDistanceToSelf(p: Vec3)
    ensures SquaredDistance(p, p) == 0.0
  {
  }

  lemma SquaresNonNegative(a: real, b: real, c: real)
    ensures a * a >= 0.0 && b * b >= 0.0 && c * c >= 0.0
  {
  }
}
