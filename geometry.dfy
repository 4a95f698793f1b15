/** Exact 3-vectors over `real`, the opaque 4x4 matrix value, and the foreign
    linear-algebra and trigonometry library the camera calls (glm, libm).
    The library is a record of total functions supplied by the caller, so every
    camera property proved here holds whatever those functions compute. */
module Geometry {

  datatype Vec3 = Vec3(x: real, y: real, z: real)

  function Add(a: Vec3, b: Vec3): Vec3 { Vec3(a.x + b.x, a.y + b.y, a.z + b.z) }

  function Sub(a: Vec3, b: Vec3): Vec3 { Vec3(a.x - b.x, a.y - b.y, a.z - b.z) }

  function Neg(a: Vec3): Vec3 { Vec3(-a.x, -a.y, -a.z) }

  function Scale(a: Vec3, k: real): Vec3 { Vec3(a.x * k, a.y * k, a.z * k) }

  function Dot(a: Vec3, b: Vec3): real { a.x * b.x + a.y * b.y + a.z * b.z }

  function Cross(a: Vec3, b: Vec3): Vec3
  {
    Vec3(a.y * b.z - a.z * b.y, a.z * b.x - a.x * b.z, a.x * b.y - a.y * b.x)
  }

  /** `TVec3::isZero`: every component is exactly zero. */
  predicate IsZero(a: Vec3) { a.x == 0.0 && a.y == 0.0 && a.z == 0.0 }

  /** Four of a 4x4 matrix's constructor arguments, in the order written. */
  datatype Row4 = Row4(a: real, b: real, c: real, d: real)

  /** A 4x4 matrix, kept as its sixteen constructor arguments in the order written. */
  datatype Mat44 = Mat44(r0: Row4, r1: Row4, r2: Row4, r3: Row4)

  /** What a default-constructed glm matrix holds. */
  const IDENTITY: Mat44 := Mat44(Row4(1.0, 0.0, 0.0, 0.0),
                                 Row4(0.0, 1.0, 0.0, 0.0),
                                 Row4(0.0, 0.0, 1.0, 0.0),
                                 Row4(0.0, 0.0, 0.0, 1.0))

  /** The foreign numerics: `normalized`, `length`, `std::atan2`, `std::asin`,
      `sinf`, `cosf`, `glm::angleAxis(angle, axis) * v`, `glm::translate`, the
      matrix product, `glm::ortho`, `glm::perspective`, and what a float division
      by zero yields. */
  datatype MathLib = MathLib(
    normalize: Vec3 -> Vec3,
    length: Vec3 -> real,
    atan2: (real, real) -> real,
    asin: real -> real,
    sin: real -> real,
    cos: real -> real,
    rotate: (real, Vec3, Vec3) -> Vec3,
    translate: Vec3 -> Mat44,
    mul: (Mat44, Mat44) -> Mat44,
    ortho: (real, real, real, real, real, real) -> Mat44,
    perspective: (real, real, real, real) -> Mat44,
    divByZero: real -> real)

  /** Float division: exact when the divisor is non-zero, foreign otherwise. */
  function Div(lib: MathLib, a: real, b: real): real
  {
    if b != 0.0 then a / b else lib.divByZero(a)
  }

  /** Adding the same offset to two points keeps the vector between them. */
  lemma SubAddCancel(a: Vec3, b: Vec3, d: Vec3)
    ensures Sub(Add(a, d), Add(b, d)) == Sub(a, b)
  {
  }

  /** The zero vector's dot product with itself is zero, and the cross
      product with the zero vector is zero. */
  lemma ZeroVectorFacts(v: Vec3, w: Vec3)
    requires IsZero(v)
    ensures Dot(v, v) == 0.0
    ensures IsZero(Cross(v, w)) && IsZero(Cross(w, v))
  {
  }

  /** The unit axes +x, +y and -z have length one. */
  lemma AxisLength(v: Vec3)
    requires v == Vec3(1.0, 0.0, 0.0) || v == Vec3(0.0, 1.0, 0.0) || v == Vec3(0.0, 0.0, -1.0)
    ensures Dot(v, v) == 1.0
  {
  }

  /** -z cross +y is +x: a right-handed camera looking down -z has +x on its
      right. */
  lemma RightOfForward()
    ensures Cross(Vec3(0.0, 0.0, -1.0), Vec3(0.0, 1.0, 0.0)) == Vec3(1.0, 0.0, 0.0)
  {
  }

  /** +x cross -z is +y. */
  lemma UpOfRightForward()
    ensures Cross(Vec3(1.0, 0.0, 0.0), Vec3(0.0, 0.0, -1.0)) == Vec3(0.0, 1.0, 0.0)
  {
  }
}
