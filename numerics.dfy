/** Three-vectors, 3x3 matrices and the real functions the descriptor engine
    borrows from its numeric libraries. */
module Numerics {

  datatype Vec3 = Vec3(x: real, y: real, z: real)

  /** A 3x3 matrix stored by rows. */
  datatype Mat3 = Mat3(r0: Vec3, r1: Vec3, r2: Vec3)

  function Add(u: Vec3, v: Vec3): Vec3 {
    Vec3(u.x + v.x, u.y + v.y, u.z + v.z)
  }

  function Sub(u: Vec3, v: Vec3): Vec3 {
    Vec3(u.x - v.x, u.y - v.y, u.z - v.z)
  }

  function Neg(v: Vec3): Vec3 {
    Vec3(-v.x, -v.y, -v.z)
  }

  function Dot(u: Vec3, v: Vec3): real {
    u.x * v.x + u.y * v.y + u.z * v.z
  }

  /** The matrix product `m @ v`; the origin stays at the origin. */
  function MatVec(m: Mat3, v: Vec3): (r: Vec3)
    ensures v == Vec3(0.0, 0.0, 0.0) ==> r == v
  {
    Vec3(Dot(m.r0, v), Dot(m.r1, v), Dot(m.r2, v))
  }

  /** The determinant, by cofactor expansion along the first row. */
  function Det(m: Mat3): real {
    m.r0.x * (m.r1.y * m.r2.z - m.r1.z * m.r2.y)
    - m.r0.y * (m.r1.x * m.r2.z - m.r1.z * m.r2.x)
    + m.r0.z * (m.r1.x * m.r2.y - m.r1.y * m.r2.x)
  }

  function Sq(r: real): real { r * r }

  /** The floating-point functions of `math` and `numpy` the engine calls,
      taken as parameters: the model assumes nothing of them beyond `Sound`. */
  datatype Math = Math(exp: real -> real, sqrt: real -> real,
                       sin: real -> real, cos: real -> real, pi: real)

  /** The only facts the model relies on: exp is positive and the square
      root of a non-negative number is non-negative. */
  ghost predicate Sound(m: Math) {
    (forall t :: m.exp(t) > 0.0) && (forall t :: t >= 0.0 ==> m.sqrt(t) >= 0.0)
  }

  /** `np.deg2rad`: a straight angle is π, and the map is linear. */
  function Radians(m: Math, degrees: real): (r: real)
    ensures degrees == 180.0 ==> r == m.pi
    ensures degrees == 0.0 ==> r == 0.0
  {
    degrees * m.pi / 180.0
  }

  /** `np.deg2rad` is additive: converting a sum of angles is summing the
      converted angles. */
  lemma RadiansAdditive(m: Math, x: real, y: real)
    ensures Radians(m, x + y) == Radians(m, x) + Radians(m, y)
  {
  }

  function SqNorm(v: Vec3): real {
    Sq(v.x) + Sq(v.y) + Sq(v.z)
  }

  /** `np.linalg.norm` of a 3-vector: the square root of its squared length,
      never negative under sound numerics. */
  function Norm(m: Math, v: Vec3): (r: real)
    ensures Sound(m) ==> r >= 0.0
  {
    assert SqNorm(v) >= 0.0;
    m.sqrt(SqNorm(v))
  }

  lemma NormOfNeg(m: Math, v: Vec3)
    ensures Norm(m, Neg(v)) == Norm(m, v)
  {
    assert SqNorm(Neg(v)) == SqNorm(v);
  }

  /** Matrix-vector multiplication distributes over vector addition. */
  lemma MatVecAdd(m: Mat3, u: Vec3, v: Vec3)
    ensures MatVec(m, Add(u, v)) == Add(MatVec(m, u), MatVec(m, v))
  {
  }

  /** The image of a difference is the difference of the images. */
  lemma MatVecSub(m: Mat3, u: Vec3, v: Vec3)
    ensures MatVec(m, Sub(u, v)) == Sub(MatVec(m, u), MatVec(m, v))
  {
  }
}
