/** Real 3-vectors, 3x3 matrices and rigid placements (rotate, then add the
    base), the arithmetic FreeCAD's Vector, Rotation and Placement perform.
    Rotations are carried as matrices; building them from an axis and an
    angle (trigonometry) is not part of this model. */
module Vectors {

  datatype Vec3 = Vec3(x: real, y: real, z: real)

  const Zero := Vec3(0.0, 0.0, 0.0)

  function Add(a: Vec3, b: Vec3): Vec3 { Vec3(a.x + b.x, a.y + b.y, a.z + b.z) }

  function Sub(a: Vec3, b: Vec3): Vec3 { Vec3(a.x - b.x, a.y - b.y, a.z - b.z) }

  function Neg(a: Vec3): Vec3 { Vec3(-a.x, -a.y, -a.z) }

  function Scale(a: Vec3, k: real): Vec3 { Vec3(a.x * k, a.y * k, a.z * k) }

  function Dot(a: Vec3, b: Vec3): real { a.x * b.x + a.y * b.y + a.z * b.z }

  predicate IsUnit(v: Vec3) { Dot(v, v) == 1.0 }

  /** A matrix by rows. */
  datatype Mat3 = Mat3(r0: Vec3, r1: Vec3, r2: Vec3)

  const Identity := Mat3(Vec3(1.0, 0.0, 0.0), Vec3(0.0, 1.0, 0.0), Vec3(0.0, 0.0, 1.0))

  function MatVec(m: Mat3, v: Vec3): Vec3
  {
    Vec3(Dot(m.r0, v), Dot(m.r1, v), Dot(m.r2, v))
  }

  function Transpose(m: Mat3): Mat3
  {
    Mat3(Vec3(m.r0.x, m.r1.x, m.r2.x),
         Vec3(m.r0.y, m.r1.y, m.r2.y),
         Vec3(m.r0.z, m.r1.z, m.r2.z))
  }

  /** Matrix product a * b: apply b first, then a (FreeCAD's a.multiply(b)). */
  function MatMul(a: Mat3, b: Mat3): Mat3
  {
    var bt := Transpose(b);
    Mat3(MatVec(bt, a.r0), MatVec(bt, a.r1), MatVec(bt, a.r2))
  }

  /** The half-turn about the unit axis u: 2 u u^T - I. */
  function Flip(u: Vec3): Mat3
  {
    Mat3(Vec3(2.0 * u.x * u.x - 1.0, 2.0 * u.x * u.y, 2.0 * u.x * u.z),
         Vec3(2.0 * u.y * u.x, 2.0 * u.y * u.y - 1.0, 2.0 * u.y * u.z),
         Vec3(2.0 * u.z * u.x, 2.0 * u.z * u.y, 2.0 * u.z * u.z - 1.0))
  }

  lemma MatVecAdd(m: Mat3, a: Vec3, b: Vec3)
    ensures MatVec(m, Add(a, b)) == Add(MatVec(m, a), MatVec(m, b))
  {
  }

  lemma MatVecSub(m: Mat3, a: Vec3, b: Vec3)
    ensures MatVec(m, Sub(a, b)) == Sub(MatVec(m, a), MatVec(m, b))
  {
  }

  lemma MatVecScale(m: Mat3, a: Vec3, k: real)
    ensures MatVec(m, Scale(a, k)) == Scale(MatVec(m, a), k)
  {
  }

  lemma MatVecNeg(m: Mat3, a: Vec3)
    ensures MatVec(m, Neg(a)) == Neg(MatVec(m, a))
  {
  }

  /** Two moves along the same direction add up. */
  lemma ScaleSteps(b: Vec3, d: Vec3, s: real, t: real)
    ensures Add(Add(b, Scale(d, s)), Scale(d, t)) == Add(b, Scale(d, s + t))
  {
  }

  /** The step between two points on one line through b along d. */
  lemma ScaleBetween(b: Vec3, d: Vec3, s: real, t: real)
    ensures Sub(Add(b, Scale(d, t)), Add(b, Scale(d, s))) == Scale(d, t - s)
  {
  }

  lemma DotSubLeft(a: Vec3, b: Vec3, c: Vec3)
    ensures Dot(Sub(a, b), c) == Dot(a, c) - Dot(b, c)
  {
  }

  lemma DotScaleRight(a: Vec3, b: Vec3, s: real)
    ensures Dot(a, Scale(b, s)) == s * Dot(a, b)
  {
  }

  lemma DotScaleLeft(a: Vec3, b: Vec3, s: real)
    ensures Dot(Scale(a, s), b) == s * Dot(a, b)
  {
  }

  lemma ScaleZero(b: Vec3, d: Vec3)
    ensures Add(b, Scale(d, 0.0)) == b
  {
  }

  lemma MatVecIdentity(v: Vec3)
    ensures MatVec(Identity, v) == v
  {
  }

  /** Applying a product is applying its factors in turn. */
  lemma MatMulApply(a: Mat3, b: Mat3, v: Vec3)
    ensures MatVec(MatMul(a, b), v) == MatVec(a, MatVec(b, v))
  {
  }

  lemma MatMulIdentityLeft(m: Mat3)
    ensures MatMul(Identity, m) == m
  {
  }

  /** The half-turn about u leaves u where it is and sends -u to -u. */
  lemma {:induction false} FlipFixesAxis(u: Vec3)
    requires IsUnit(u)
    ensures MatVec(Flip(u), u) == u
    ensures MatVec(Flip(u), Neg(u)) == Neg(u)
  {
    var f := MatVec(Flip(u), u);
    var d := Dot(u, u);
    assert f.x == 2.0 * u.x * d - u.x;
    assert f.y == 2.0 * u.y * d - u.y;
    assert f.z == 2.0 * u.z * d - u.z;
    MatVecNeg(Flip(u), u);
  }

  /** A rigid placement: rotate by `rot`, then translate by `base`. */
  datatype Placement = Placement(rot: Mat3, base: Vec3)

  const IdentityPlacement := Placement(Identity, Zero)

  function Apply(p: Placement, v: Vec3): Vec3
  {
    Add(p.base, MatVec(p.rot, v))
  }

  /** outer * inner: the placement of a child `inner` inside a parent `outer`. */
  function Compose(outer: Placement, inner: Placement): Placement
  {
    Placement(MatMul(outer.rot, inner.rot), Apply(outer, inner.base))
  }

  lemma ComposeApply(outer: Placement, inner: Placement, v: Vec3)
    ensures Apply(Compose(outer, inner), v) == Apply(outer, Apply(inner, v))
  {
    MatMulApply(outer.rot, inner.rot, v);
    MatVecAdd(outer.rot, inner.base, MatVec(inner.rot, v));
  }

  lemma ComposeIdentity(p: Placement)
    ensures Compose(IdentityPlacement, p) == p
  {
    MatMulIdentityLeft(p.rot);
    MatVecIdentity(p.base);
  }

  /** The placement FreeCAD's pivot receives in a face turn: rotation `r`
      with base `center - r * center`. */
  function Pivot(r: Mat3, center: Vec3): (p: Placement)
    ensures Apply(p, center) == center
  {
    Placement(r, Sub(center, MatVec(r, center)))
  }

  /** The pivot is the rotation by `r` about `center`: p -> r (p - c) + c. */
  lemma PivotRotatesAboutCenter(r: Mat3, center: Vec3, p: Vec3)
    ensures Apply(Pivot(r, center), p) == Add(MatVec(r, Sub(p, center)), center)
  {
    MatVecSub(r, p, center);
  }
}
