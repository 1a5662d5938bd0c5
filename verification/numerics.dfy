/** Exact-real stand-ins for the glm vector types and std::complex<double>,
    and the math library the source calls into (sqrt, exp, sin, cos), which
    is not modelled: its functions are parameters of every member that uses them. */
module Numerics {

  datatype Vec2 = Vec2(x: real, y: real)
  datatype Vec3 = Vec3(x: real, y: real, z: real)
  datatype Vec4 = Vec4(x: real, y: real, z: real, w: real)
  datatype Complex = Complex(re: real, im: real)

  /** The C math library: `sqrt`/`sqrtf`, `exp`/`expf`, `sin`, `cos`. */
  datatype Libm = Libm(sqrt: real -> real, exp: real -> real, sin: real -> real, cos: real -> real)

  // ---- Scalars ----

  function Sq(a: real): real { a * a }

  function Mul(a: real, b: real): real { a * b }

  lemma MulPositive(a: real, b: real)
    requires (a > 0.0 && b > 0.0) || (a < 0.0 && b < 0.0)
    ensures Mul(a, b) > 0.0
  {
    assert Mul(a, b) == a * b;
  }

  /** The square of a non-zero real is positive. */
  lemma SqPositive(a: real)
    requires a != 0.0
    ensures Sq(a) > 0.0
  {
    assert Sq(a) == Mul(a, a);
    MulPositive(a, a);
  }

  // ---- Vec2 ----

  function Dot2(a: Vec2, b: Vec2): real { a.x * b.x + a.y * b.y }

  function Neg2(a: Vec2): Vec2 { Vec2(-a.x, -a.y) }

  /** glm::length: the square root of the dot product with itself. */
  function Length2(lib: Libm, v: Vec2): real { lib.sqrt(Dot2(v, v)) }

  /** glm::normalize: v times the inverse square root of its dot product. */
  function Normalize2(lib: Libm, v: Vec2): Vec2
    requires Length2(lib, v) != 0.0
  {
    var inv := 1.0 / Length2(lib, v);
    Vec2(v.x * inv, v.y * inv)
  }

  // ---- Vec3 ----

  function Add3(a: Vec3, b: Vec3): Vec3 { Vec3(a.x + b.x, a.y + b.y, a.z + b.z) }

  function Scale3(k: real, a: Vec3): Vec3 { Vec3(k * a.x, k * a.y, k * a.z) }

  function Dot3(a: Vec3, b: Vec3): real { a.x * b.x + a.y * b.y + a.z * b.z }

  function Length3(lib: Libm, v: Vec3): real { lib.sqrt(Dot3(v, v)) }

  function Normalize3(lib: Libm, v: Vec3): Vec3
    requires Length3(lib, v) != 0.0
  {
    Scale3(1.0 / Length3(lib, v), v)
  }

  /** glm::vec3(v4.x, v4.y, v4.z) */
  function Xyz(v: Vec4): Vec3 { Vec3(v.x, v.y, v.z) }

  /** glm::vec4(v3, w) */
  function Extend(v: Vec3, w: real): Vec4 { Vec4(v.x, v.y, v.z, w) }

  // ---- Complex ----

  function CAdd(a: Complex, b: Complex): Complex { Complex(a.re + b.re, a.im + b.im) }

  function CMul(a: Complex, b: Complex): Complex
  {
    Complex(a.re * b.re - a.im * b.im, a.re * b.im + a.im * b.re)
  }

  function Conj(a: Complex): Complex { Complex(a.re, -a.im) }

  /** A complex number times a real scalar (`complex *= int`, `complex * double`). */
  function CScale(k: real, a: Complex): Complex { Complex(k * a.re, k * a.im) }

  /** The conjugate of a product is the product of the conjugates. */
  lemma ConjMul(a: Complex, b: Complex)
    ensures Conj(CMul(a, b)) == CMul(Conj(a), Conj(b))
  {
  }
}
