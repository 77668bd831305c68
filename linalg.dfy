/**
 * The homogeneous vector and matrix arithmetic that the portal code takes from
 * mathgl (`Vec4d`, `Mat4d`, `Mul4`, `Mul4x1`, `Ident4d`, `Translate3Dd`, `Scale3Dd`),
 * over unbounded reals instead of float64. Matrices are column-major, as in mathgl:
 * flat element `n` is row `n % 4` of column `n / 4`.
 *
 * The transcendental and library operations that the model does not interpret are
 * collected in `MathLib`, a record of total functions supplied by the caller.
 */
module LinearAlgebra {

  datatype Vec2 = Vec2(x: real, y: real)

  datatype Vec3 = Vec3(x: real, y: real, z: real)

  datatype Vec4 = Vec4(x: real, y: real, z: real, w: real) {
    /** The xyz part (gtk.ToVec3D, and the `Vec3d{a[0], a[1], a[2]}` of Cross3D). */
    function Xyz(): Vec3 { Vec3(x, y, z) }
  }

  /** A 4x4 matrix given by its columns. */
  datatype Mat4 = Mat4(c0: Vec4, c1: Vec4, c2: Vec4, c3: Vec4) {

    function Column(i: nat): Vec4
      requires i < 4
    {
      if i == 0 then c0 else if i == 1 then c1 else if i == 2 then c2 else c3
    }

    /** Flat column-major element `n`, as `m[n]` on a mathgl `Mat4d`. */
    function At(n: nat): real
      requires n < 16
    {
      var c := Column(n / 4);
      var k := n % 4;
      if k == 0 then c.x else if k == 1 then c.y else if k == 2 then c.z else c.w
    }
  }

  const Zero2 := Vec2(0.0, 0.0)
  const Zero3 := Vec3(0.0, 0.0, 0.0)
  const Zero4 := Vec4(0.0, 0.0, 0.0, 0.0)

  /** The homogeneous origin, a point with weight 1. */
  const Origin := Vec4(0.0, 0.0, 0.0, 1.0)

  const Identity := Mat4(Vec4(1.0, 0.0, 0.0, 0.0), Vec4(0.0, 1.0, 0.0, 0.0),
                         Vec4(0.0, 0.0, 1.0, 0.0), Vec4(0.0, 0.0, 0.0, 1.0))

  function Abs(a: real): real { if a < 0.0 then -a else a }

  function Sub2(a: Vec2, b: Vec2): Vec2 { Vec2(a.x - b.x, a.y - b.y) }

  function Add3(a: Vec3, b: Vec3): Vec3 { Vec3(a.x + b.x, a.y + b.y, a.z + b.z) }

  function Sub3(a: Vec3, b: Vec3): Vec3 { Vec3(a.x - b.x, a.y - b.y, a.z - b.z) }

  function Scale3(a: Vec3, s: real): Vec3 { Vec3(a.x * s, a.y * s, a.z * s) }

  function Neg3(a: Vec3): Vec3 { Vec3(-a.x, -a.y, -a.z) }

  function Add4(a: Vec4, b: Vec4): Vec4 { Vec4(a.x + b.x, a.y + b.y, a.z + b.z, a.w + b.w) }

  function Sub4(a: Vec4, b: Vec4): Vec4 { Vec4(a.x - b.x, a.y - b.y, a.z - b.z, a.w - b.w) }

  function Scale4(a: Vec4, s: real): Vec4 { Vec4(a.x * s, a.y * s, a.z * s, a.w * s) }

  function Dot4(a: Vec4, b: Vec4): real { a.x * b.x + a.y * b.y + a.z * b.z + a.w * b.w }

  function Dot3(a: Vec3, b: Vec3): real { a.x * b.x + a.y * b.y + a.z * b.z }

  /** The homogeneous vector with xyz `v` and weight `w`. */
  function Extend(v: Vec3, w: real): Vec4 { Vec4(v.x, v.y, v.z, w) }

  /** `m.Mul4x1(v)`: the matrix applied to a column vector. */
  function MulV(m: Mat4, v: Vec4): Vec4 {
    Vec4(m.c0.x * v.x + m.c1.x * v.y + m.c2.x * v.z + m.c3.x * v.w,
         m.c0.y * v.x + m.c1.y * v.y + m.c2.y * v.z + m.c3.y * v.w,
         m.c0.z * v.x + m.c1.z * v.y + m.c2.z * v.z + m.c3.z * v.w,
         m.c0.w * v.x + m.c1.w * v.y + m.c2.w * v.z + m.c3.w * v.w)
  }

  /** `a.Mul4(b)`: column `i` of the product is `a` applied to column `i` of `b`. */
  function Mul(a: Mat4, b: Mat4): Mat4 {
    Mat4(MulV(a, b.c0), MulV(a, b.c1), MulV(a, b.c2), MulV(a, b.c3))
  }

  /** `Translate3Dd(tx, ty, tz)`. */
  function Translation(tx: real, ty: real, tz: real): Mat4 {
    Mat4(Identity.c0, Identity.c1, Identity.c2, Vec4(tx, ty, tz, 1.0))
  }

  /** `Scale3Dd(sx, sy, sz)`. */
  function Scaling(sx: real, sy: real, sz: real): Mat4 {
    Mat4(Vec4(sx, 0.0, 0.0, 0.0), Vec4(0.0, sy, 0.0, 0.0), Vec4(0.0, 0.0, sz, 0.0), Origin)
  }

  /** `mi` is a two-sided inverse of `m`. */
  predicate IsInverse(m: Mat4, mi: Mat4) {
    Mul(m, mi) == Identity && Mul(mi, m) == Identity
  }

  /** A unit quaternion, kept as its four components; all arithmetic on it is in `MathLib`. */
  datatype Quat = Quat(w: real, x: real, y: real, z: real)

  const QuatIdentity := Quat(1.0, 0.0, 0.0, 0.0)

  /**
   * The library operations the model leaves uninterpreted: `math.Acos`, `math.Sqrt`,
   * `Vec3d.Normalize`, `Vec4d.Normalize`, `HomogRotate3Dd`, `Mat4d.Inv`, and the
   * quaternion helpers of mathgl and go-glutil.
   */
  datatype MathLib = MathLib(
    acos: real -> real,
    sqrt: real -> real,
    normalize3: Vec3 -> Vec3,
    normalize4: Vec4 -> Vec4,
    rotate: (real, Vec3) -> Mat4,           // HomogRotate3Dd(angle, axis)
    inv: Mat4 -> Mat4,                      // Mat4d.Inv
    quatOfMatrix: Mat4 -> Quat,             // gtk.Quaternion(gtk.RotationComponent(m))
    quatMul: (Quat, Quat) -> Quat,          // Quatd.Mul
    quatRotate: (Quat, Vec3) -> Vec3,       // Quatd.Rotate
    quatRotated: (real, Vec3) -> Quat,      // QuatRotated(angle, axis)
    quatConjugateMat: Quat -> Mat4,         // q.Conjugate().Mat4()
    toHomog: Vec3 -> Vec4                   // gtk.ToHomogVec4D
  )

  /** `Inv` is exact on `m`: the hypothesis under which the round trips of the portal maths hold. */
  predicate InvExact(lib: MathLib, m: Mat4) {
    IsInverse(m, lib.inv(m))
  }

  // ---------------------------------------------------------------------------
  // Laws of the arithmetic

  /**
   * One component of `MulVMul`, on the entries: `s` is row `p` of the left factor against the
   * columns `bj` of the right one, `t` is the right factor applied to `v`; then `s` against `v`
   * is `p` against `t`.
   */
  lemma Regroup(p0: real, p1: real, p2: real, p3: real,
                b00: real, b01: real, b02: real, b03: real, b10: real, b11: real, b12: real, b13: real,
                b20: real, b21: real, b22: real, b23: real, b30: real, b31: real, b32: real, b33: real,
                v0: real, v1: real, v2: real, v3: real,
                s0: real, s1: real, s2: real, s3: real, t0: real, t1: real, t2: real, t3: real)
    requires s0 == p0 * b00 + p1 * b01 + p2 * b02 + p3 * b03
    requires s1 == p0 * b10 + p1 * b11 + p2 * b12 + p3 * b13
    requires s2 == p0 * b20 + p1 * b21 + p2 * b22 + p3 * b23
    requires s3 == p0 * b30 + p1 * b31 + p2 * b32 + p3 * b33
    requires t0 == b00 * v0 + b10 * v1 + b20 * v2 + b30 * v3
    requires t1 == b01 * v0 + b11 * v1 + b21 * v2 + b31 * v3
    requires t2 == b02 * v0 + b12 * v1 + b22 * v2 + b32 * v3
    requires t3 == b03 * v0 + b13 * v1 + b23 * v2 + b33 * v3
    ensures s0 * v0 + s1 * v1 + s2 * v2 + s3 * v3 == p0 * t0 + p1 * t1 + p2 * t2 + p3 * t3
  {
    calc {
      s0 * v0 + s1 * v1 + s2 * v2 + s3 * v3;
      { ScaleEqual(s0, p0 * b00 + p1 * b01 + p2 * b02 + p3 * b03, v0); }
      (p0 * b00 + p1 * b01 + p2 * b02 + p3 * b03) * v0 + s1 * v1 + s2 * v2 + s3 * v3;
      { ScaleEqual(s1, p0 * b10 + p1 * b11 + p2 * b12 + p3 * b13, v1); }
      (p0 * b00 + p1 * b01 + p2 * b02 + p3 * b03) * v0
        + (p0 * b10 + p1 * b11 + p2 * b12 + p3 * b13) * v1
        + s2 * v2
        + s3 * v3;
      { ScaleEqual(s2, p0 * b20 + p1 * b21 + p2 * b22 + p3 * b23, v2); }
      (p0 * b00 + p1 * b01 + p2 * b02 + p3 * b03) * v0
        + (p0 * b10 + p1 * b11 + p2 * b12 + p3 * b13) * v1
        + (p0 * b20 + p1 * b21 + p2 * b22 + p3 * b23) * v2
        + s3 * v3;
      { ScaleEqual(s3, p0 * b30 + p1 * b31 + p2 * b32 + p3 * b33, v3); }
      (p0 * b00 + p1 * b01 + p2 * b02 + p3 * b03) * v0
        + (p0 * b10 + p1 * b11 + p2 * b12 + p3 * b13) * v1
        + (p0 * b20 + p1 * b21 + p2 * b22 + p3 * b23) * v2
        + (p0 * b30 + p1 * b31 + p2 * b32 + p3 * b33) * v3;
      p0 * (b00 * v0 + b10 * v1 + b20 * v2 + b30 * v3)
        + p1 * (b01 * v0 + b11 * v1 + b21 * v2 + b31 * v3)
        + p2 * (b02 * v0 + b12 * v1 + b22 * v2 + b32 * v3)
        + p3 * (b03 * v0 + b13 * v1 + b23 * v2 + b33 * v3);
      { ScaleEqual(t0, b00 * v0 + b10 * v1 + b20 * v2 + b30 * v3, p0); }
      p0 * t0
        + p1 * (b01 * v0 + b11 * v1 + b21 * v2 + b31 * v3)
        + p2 * (b02 * v0 + b12 * v1 + b22 * v2 + b32 * v3)
        + p3 * (b03 * v0 + b13 * v1 + b23 * v2 + b33 * v3);
      { ScaleEqual(t1, b01 * v0 + b11 * v1 + b21 * v2 + b31 * v3, p1); }
      p0 * t0
        + p1 * t1
        + p2 * (b02 * v0 + b12 * v1 + b22 * v2 + b32 * v3)
        + p3 * (b03 * v0 + b13 * v1 + b23 * v2 + b33 * v3);
      { ScaleEqual(t2, b02 * v0 + b12 * v1 + b22 * v2 + b32 * v3, p2); }
      p0 * t0 + p1 * t1 + p2 * t2 + p3 * (b03 * v0 + b13 * v1 + b23 * v2 + b33 * v3);
      { ScaleEqual(t3, b03 * v0 + b13 * v1 + b23 * v2 + b33 * v3, p3); }
      p0 * t0 + p1 * t1 + p2 * t2 + p3 * t3;
    }
  }

  /** Applying a product is applying its factors in turn. */
  lemma MulVMul(a: Mat4, b: Mat4, v: Vec4)
    ensures MulV(Mul(a, b), v) == MulV(a, MulV(b, v))
  {
    MulVMulX(a, b, v);
    MulVMulY(a, b, v);
    MulVMulZ(a, b, v);
    MulVMulW(a, b, v);
  }

  lemma MulVMulX(a: Mat4, b: Mat4, v: Vec4)
    ensures MulV(Mul(a, b), v).x == MulV(a, MulV(b, v)).x
  {
    Regroup(a.c0.x, a.c1.x, a.c2.x, a.c3.x, b.c0.x, b.c0.y, b.c0.z, b.c0.w, b.c1.x, b.c1.y, b.c1.z, b.c1.w,
            b.c2.x, b.c2.y, b.c2.z, b.c2.w, b.c3.x, b.c3.y, b.c3.z, b.c3.w, v.x, v.y, v.z, v.w,
            Mul(a, b).c0.x, Mul(a, b).c1.x, Mul(a, b).c2.x, Mul(a, b).c3.x,
            MulV(b, v).x, MulV(b, v).y, MulV(b, v).z, MulV(b, v).w);
  }

  lemma MulVMulY(a: Mat4, b: Mat4, v: Vec4)
    ensures MulV(Mul(a, b), v).y == MulV(a, MulV(b, v)).y
  {
    Regroup(a.c0.y, a.c1.y, a.c2.y, a.c3.y, b.c0.x, b.c0.y, b.c0.z, b.c0.w, b.c1.x, b.c1.y, b.c1.z, b.c1.w,
            b.c2.x, b.c2.y, b.c2.z, b.c2.w, b.c3.x, b.c3.y, b.c3.z, b.c3.w, v.x, v.y, v.z, v.w,
            Mul(a, b).c0.y, Mul(a, b).c1.y, Mul(a, b).c2.y, Mul(a, b).c3.y,
            MulV(b, v).x, MulV(b, v).y, MulV(b, v).z, MulV(b, v).w);
  }

  lemma MulVMulZ(a: Mat4, b: Mat4, v: Vec4)
    ensures MulV(Mul(a, b), v).z == MulV(a, MulV(b, v)).z
  {
    Regroup(a.c0.z, a.c1.z, a.c2.z, a.c3.z, b.c0.x, b.c0.y, b.c0.z, b.c0.w, b.c1.x, b.c1.y, b.c1.z, b.c1.w,
            b.c2.x, b.c2.y, b.c2.z, b.c2.w, b.c3.x, b.c3.y, b.c3.z, b.c3.w, v.x, v.y, v.z, v.w,
            Mul(a, b).c0.z, Mul(a, b).c1.z, Mul(a, b).c2.z, Mul(a, b).c3.z,
            MulV(b, v).x, MulV(b, v).y, MulV(b, v).z, MulV(b, v).w);
  }

  lemma MulVMulW(a: Mat4, b: Mat4, v: Vec4)
    ensures MulV(Mul(a, b), v).w == MulV(a, MulV(b, v)).w
  {
    Regroup(a.c0.w, a.c1.w, a.c2.w, a.c3.w, b.c0.x, b.c0.y, b.c0.z, b.c0.w, b.c1.x, b.c1.y, b.c1.z, b.c1.w,
            b.c2.x, b.c2.y, b.c2.z, b.c2.w, b.c3.x, b.c3.y, b.c3.z, b.c3.w, v.x, v.y, v.z, v.w,
            Mul(a, b).c0.w, Mul(a, b).c1.w, Mul(a, b).c2.w, Mul(a, b).c3.w,
            MulV(b, v).x, MulV(b, v).y, MulV(b, v).z, MulV(b, v).w);
  }

  lemma ScaleEqual(x: real, y: real, z: real)
    requires x == y
    ensures x * z == y * z && z * x == z * y
  {
  }

  /** Matrix multiplication is associative. */
  lemma MulAssoc(a: Mat4, b: Mat4, c: Mat4)
    ensures Mul(Mul(a, b), c) == Mul(a, Mul(b, c))
  {
    MulVMul(a, b, c.c0);
    MulVMul(a, b, c.c1);
    MulVMul(a, b, c.c2);
    MulVMul(a, b, c.c3);
  }

  lemma MulVIdentity(v: Vec4)
    ensures MulV(Identity, v) == v
  {
  }

  lemma MulIdentity(m: Mat4)
    ensures Mul(Identity, m) == m
    ensures Mul(m, Identity) == m
  {
  }
}
