/**
 * Exact real-valued stand-ins for the Three.js vector types the camera uses.
 * Floating-point rounding is not modelled: every operation here is exact.
 */
module Geometry {

  /** `Math.PI`, as the shortest decimal that rounds to that double (not its exact binary value). */
  const PI: real := 3.141592653589793

  /** A `Vector3`. */
  datatype Vec3 = Vec3(x: real, y: real, z: real)

  const ORIGIN: Vec3 := Vec3(0.0, 0.0, 0.0)

  function Add(a: Vec3, b: Vec3): Vec3 {
    Vec3(a.x + b.x, a.y + b.y, a.z + b.z)
  }

  function Scale(v: Vec3, s: real): Vec3 {
    Vec3(v.x * s, v.y * s, v.z * s)
  }

  /** `Vector3.negate`. */
  function Negate(v: Vec3): Vec3 {
    Vec3(-v.x, -v.y, -v.z)
  }

  /** `Vector3.addScaledVector(v, s)`: the point moved by `s` times `v`. */
  function AddScaled(p: Vec3, v: Vec3, s: real): Vec3 {
    Add(p, Scale(v, s))
  }

  /** `k` copies of `x` added up; `TimesIsProduct` shows this is `k * x`. */
  function Times(k: nat, x: real): real {
    if k == 0 then 0.0 else Times(k - 1, x) + x
  }

  lemma TimesStep(k: nat, x: real)
    requires k > 0
    ensures Times(k, x) == Times(k - 1, x) + x
  {
  }

  lemma {:induction false} TimesIsProduct(k: nat, x: real)
    ensures Times(k, x) == (k as real) * x
  {
    if k > 0 {
      TimesIsProduct(k - 1, x);
      assert (k as real) * x == ((k - 1) as real) * x + x;
    }
  }

  /** Two translations by the same factor add up. */
  lemma AddScaledTwice(p: Vec3, u: Vec3, v: Vec3, s: real)
    ensures AddScaled(AddScaled(p, u, s), v, s) == AddScaled(p, Add(u, v), s)
  {
  }

  /** Scaling by one more, or one less, adds, or takes away, one copy of the vector. */
  lemma ScaleShift(v: Vec3, s: real)
    ensures Scale(v, s + 1.0) == Add(v, Scale(v, s))
    ensures Scale(v, s - 1.0) == Add(Negate(v), Scale(v, s))
  {
  }

  /** Scaling the reversed vector is scaling by the negated factor. */
  lemma ScaleNegate(v: Vec3, s: real)
    ensures Scale(Negate(v), s) == Scale(v, -s)
    ensures Scale(Negate(v), -s) == Scale(v, s)
  {
  }

  /**
   * The three basis columns of `camera.matrix` (the upper-left 3x3 block read by
   * `Vector3.setFromMatrixColumn`). They are left uninterpreted: the renderer
   * recomputes them from the orientation, and nothing here relies on their values.
   */
  datatype Basis = Basis(col0: Vec3, col1: Vec3, col2: Vec3)

  /** A fresh `Matrix4` is the identity. */
  const IDENTITY: Basis := Basis(Vec3(1.0, 0.0, 0.0), Vec3(0.0, 1.0, 0.0), Vec3(0.0, 0.0, 1.0))
}
