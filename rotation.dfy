/** 3x3 rotation matrices over the reals, row by row, with the three
    operations the head tracker and the listener update use: product,
    transpose and negation. */
module Rotation {

  datatype Vec3 = Vec3(x: real, y: real, z: real)

  /** A matrix given by its rows, as numpy indexes `m[0]`, `m[1]`, `m[2]`. */
  datatype Mat3 = Mat3(r0: Vec3, r1: Vec3, r2: Vec3)

  function Dot(a: Vec3, b: Vec3): real
  {
    a.x * b.x + a.y * b.y + a.z * b.z
  }

  function NegVec(a: Vec3): Vec3
  {
    Vec3(-a.x, -a.y, -a.z)
  }

  function Col0(m: Mat3): Vec3 { Vec3(m.r0.x, m.r1.x, m.r2.x) }
  function Col1(m: Mat3): Vec3 { Vec3(m.r0.y, m.r1.y, m.r2.y) }
  function Col2(m: Mat3): Vec3 { Vec3(m.r0.z, m.r1.z, m.r2.z) }

  function Row(a: Vec3, b: Mat3): Vec3
  {
    Vec3(Dot(a, Col0(b)), Dot(a, Col1(b)), Dot(a, Col2(b)))
  }

  /** The matrix product `a @ b`. */
  function Mul(a: Mat3, b: Mat3): Mat3
  {
    Mat3(Row(a.r0, b), Row(a.r1, b), Row(a.r2, b))
  }

  /** `m.T` */
  function Transpose(m: Mat3): Mat3
  {
    Mat3(Col0(m), Col1(m), Col2(m))
  }

  /** `m * (-1)` */
  function Neg(m: Mat3): Mat3
  {
    Mat3(NegVec(m.r0), NegVec(m.r1), NegVec(m.r2))
  }

  /** `np.identity(3)` */
  const Identity := Mat3(Vec3(1.0, 0.0, 0.0), Vec3(0.0, 1.0, 0.0), Vec3(0.0, 0.0, 1.0))

  /** The tracker's forward-facing matrix diag(1, -1, -1). */
  const DefaultRotation := Mat3(Vec3(1.0, 0.0, 0.0), Vec3(0.0, -1.0, 0.0), Vec3(0.0, 0.0, -1.0))

  /** A rotation: its transpose is its inverse. */
  ghost predicate Orthonormal(m: Mat3)
  {
    Mul(Transpose(m), m) == Identity
  }

  lemma MulIdentityLeft(m: Mat3)
    ensures Mul(Identity, m) == m
  {
  }

  lemma MulNegLeft(a: Mat3, b: Mat3)
    ensures Mul(Neg(a), b) == Neg(Mul(a, b))
  {
  }
}
