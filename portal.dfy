/**
 * The portal geometry kernel (portal.go): the planar quad, its mesh, the cross
 * product helpers, the minimal rotation between two normals and the pair of
 * transforms that carry one quad's frame onto another's.
 */
module Portal {
  import opened LinearAlgebra
  import opened Wrappers

  /** A planar rectangle: centre (a point), normal and in-plane axis (directions), per-axis scale. */
  datatype Quad = Quad(center: Vec4, normal: Vec4, planeV: Vec4, scale: Vec4)

  /** A quad seen through: where it is, what crossing it does, and its canonical frame. */
  datatype Portal = Portal(eventHorizon: Quad, transform: Mat4, portalview: Mat4)

  /** The fatal geometry errors; the Go code panics (or divides by zero) instead. */
  datatype Fault = DegenerateNormal(n: Vec4) | ZeroScale(s: Vec4)

  /** The element lists of the quad mesh, keyed by primitive kind. */
  datatype Primitive = TriangleStrip | Lines

  /** mathgl's `math.Pi` as a real. */
  const Pi: real := 3.141592653589793

  const XAxis := Vec4(1.0, 0.0, 0.0, 0.0)
  const ZAxis := Vec4(0.0, 0.0, 1.0, 0.0)

  // ---------------------------------------------------------------------------
  // Cross products

  /** `Cross3D`: the cross product of the xyz parts; it is orthogonal to both of them. */
  function Cross3D(a: Vec4, b: Vec4): (r: Vec3)
    ensures Dot3(r, a.Xyz()) == 0.0 && Dot3(r, b.Xyz()) == 0.0
  {
    Vec3(a.y * b.z - a.z * b.y, a.z * b.x - a.x * b.z, a.x * b.y - a.y * b.x)
  }

  /** `Cross3Dv`: the cross product as a direction, with weight 0. */
  function Cross3Dv(a: Vec4, b: Vec4): (r: Vec4)
    ensures r.w == 0.0 && Dot3(r.Xyz(), a.Xyz()) == 0.0 && Dot3(r.Xyz(), b.Xyz()) == 0.0
  {
    Extend(Cross3D(a, b), 0.0)
  }

  lemma CrossAntiCommutative(a: Vec4, b: Vec4)
    ensures Cross3D(a, b) == Neg3(Cross3D(b, a))
    ensures Cross3Dv(a, b) == Extend(Neg3(Cross3D(b, a)), 0.0)
  {
  }

  lemma CrossSelf(a: Vec4)
    ensures Cross3D(a, a) == Zero3 && Cross3Dv(a, a) == Zero4
  {
  }

  // ---------------------------------------------------------------------------
  // Near-zero test

  /** The tolerance standing in for mathgl's `ApproxEqual` threshold. */
  const Epsilon: real := 0.0000000001

  predicate Small(a: real) { -Epsilon < a < Epsilon }

  /** `NearZero`: `v` is approximately the zero vector. */
  predicate NearZero(v: Vec3) { Small(v.x) && Small(v.y) && Small(v.z) }

  /** `ApproxEqual(Vec4d{})` on a homogeneous vector. */
  predicate NearZero4(v: Vec4) { Small(v.x) && Small(v.y) && Small(v.z) && Small(v.w) }

  // ---------------------------------------------------------------------------
  // Quad

  /** Three consecutive reals of a flat vertex array, as a point. */
  function Vertex(s: seq<real>, k: nat): Vec3
    requires 3 * k + 3 <= |s|
  {
    Vec3(s[3 * k], s[3 * k + 1], s[3 * k + 2])
  }

  /** The front-indicator point `center + normal * (scale.z * 0.2)`. */
  function Nose(q: Quad): Vec4 {
    Add4(q.center, Scale4(q.normal, q.scale.z * 0.2))
  }

  /** The flat xyz array of a vertex list, as the mesh arrays are laid out. */
  function Flatten(vs: seq<Vec3>): (s: seq<real>)
    ensures |s| == 3 * |vs|
    ensures forall k :: 0 <= k < |vs| ==> Vertex(s, k) == vs[k]
  {
    if vs == [] then []
    else
      var rest := Flatten(vs[1..]);
      var s := [vs[0].x, vs[0].y, vs[0].z] + rest;
      assert forall k :: 1 <= k < |vs| ==> Vertex(s, k) == Vertex(rest, k - 1);
      s
  }

  /**
   * `Quad.Mesh`: six vertices as flat xyz triples (four corners, the centre, the nose)
   * and a second array that repeats the nose point six times.
   */
  function Mesh(q: Quad): (r: (seq<real>, seq<real>))
    ensures |r.0| == 18 && |r.1| == 18
  {
    var px := EdgeX(q);
    var py := EdgeY(q);
    var a := Sub4(Sub4(q.center, px), py);
    var b := Sub4(Add4(q.center, px), py);
    var c := Add4(Sub4(q.center, px), py);
    var d := Add4(Add4(q.center, px), py);
    var o := q.center;
    var n := Nose(q);
    (Flatten([a.Xyz(), b.Xyz(), c.Xyz(), d.Xyz(), o.Xyz(), n.Xyz()]),
     Flatten([n.Xyz(), n.Xyz(), n.Xyz(), n.Xyz(), n.Xyz(), n.Xyz()]))
  }

  /** Half the quad's extent along its plane vector. */
  function EdgeX(q: Quad): Vec4 {
    Scale4(q.planeV, q.scale.x)
  }

  /** Half the quad's extent across it: along `cross(planeV, normal)`. */
  function EdgeY(q: Quad): Vec4 {
    Scale4(Cross3Dv(q.planeV, q.normal), q.scale.y)
  }

  /**
   * Where `Mesh` puts each vertex: the corners `c -/+ px -/+ py`, then the centre, then the
   * nose; every vertex of the second array is the nose.
   */
  lemma MeshLayout(q: Quad)
    ensures Vertex(Mesh(q).0, 0) == Sub4(Sub4(q.center, EdgeX(q)), EdgeY(q)).Xyz()
    ensures Vertex(Mesh(q).0, 1) == Sub4(Add4(q.center, EdgeX(q)), EdgeY(q)).Xyz()
    ensures Vertex(Mesh(q).0, 2) == Add4(Sub4(q.center, EdgeX(q)), EdgeY(q)).Xyz()
    ensures Vertex(Mesh(q).0, 3) == Add4(Add4(q.center, EdgeX(q)), EdgeY(q)).Xyz()
    ensures Vertex(Mesh(q).0, 4) == q.center.Xyz()
    ensures Vertex(Mesh(q).0, 5) == Nose(q).Xyz()
    ensures forall k :: 0 <= k < 6 ==> Vertex(Mesh(q).1, k) == Nose(q).Xyz()
  {
  }

  /**
   * The four corners are symmetric about the centre; the edges from the first corner run
   * along `planeV * scale.x` and `cross(planeV, normal) * scale.y`, doubled.
   */
  lemma MeshCorners(q: Quad)
    ensures Add3(Vertex(Mesh(q).0, 0), Vertex(Mesh(q).0, 3)) == Scale3(q.center.Xyz(), 2.0)
    ensures Add3(Vertex(Mesh(q).0, 1), Vertex(Mesh(q).0, 2)) == Scale3(q.center.Xyz(), 2.0)
    ensures Sub3(Vertex(Mesh(q).0, 1), Vertex(Mesh(q).0, 0)) == Scale3(q.planeV.Xyz(), 2.0 * q.scale.x)
    ensures Sub3(Vertex(Mesh(q).0, 2), Vertex(Mesh(q).0, 0)) == Scale3(Cross3D(q.planeV, q.normal), 2.0 * q.scale.y)
  {
    MeshLayout(q);
    CornerArithmetic(q.center, EdgeX(q), EdgeY(q));
    EdgeDoubled(q.planeV, q.scale.x);
    EdgeDoubled(Cross3Dv(q.planeV, q.normal), q.scale.y);
    assert Cross3Dv(q.planeV, q.normal).Xyz() == Cross3D(q.planeV, q.normal);
  }

  /** The corner sums and differences, for any centre and edge vectors. */
  lemma CornerArithmetic(c: Vec4, px: Vec4, py: Vec4)
    ensures Add3(Sub4(Sub4(c, px), py).Xyz(), Add4(Add4(c, px), py).Xyz()) == Scale3(c.Xyz(), 2.0)
    ensures Add3(Sub4(Add4(c, px), py).Xyz(), Add4(Sub4(c, px), py).Xyz()) == Scale3(c.Xyz(), 2.0)
    ensures Sub3(Sub4(Add4(c, px), py).Xyz(), Sub4(Sub4(c, px), py).Xyz()) == Scale3(px.Xyz(), 2.0)
    ensures Sub3(Add4(Sub4(c, px), py).Xyz(), Sub4(Sub4(c, px), py).Xyz()) == Scale3(py.Xyz(), 2.0)
  {
  }

  lemma EdgeDoubled(u: Vec4, s: real)
    ensures Scale3(Scale4(u, s).Xyz(), 2.0) == Scale3(u.Xyz(), 2.0 * s)
  {
  }

  /** `QuadElements`: every index names one of the six mesh vertices; lines come in pairs. */
  function QuadElements(kind: Primitive): (r: seq<int>)
    ensures forall i :: 0 <= i < |r| ==> 0 <= r[i] < 6
    ensures kind == Lines ==> |r| % 2 == 0
    ensures kind == TriangleStrip ==> |r| == 4
  {
    match kind
    case TriangleStrip => [0, 1, 2, 3]
    case Lines => [0, 1, 1, 3, 3, 2, 2, 0, 0, 3, 1, 2, 4, 5]
  }

  /** `Quad.Apply`: maps the two direction fields through `t`; centre and scale stay. */
  function Apply(q: Quad, t: Mat4): (r: Quad)
    ensures r.center == q.center && r.scale == q.scale
  {
    Quad(q.center, MulV(t, q.normal), MulV(t, q.planeV), q.scale)
  }

  lemma ApplyIdentity(q: Quad)
    ensures Apply(q, Identity) == q
  {
    MulVIdentity(q.normal);
    MulVIdentity(q.planeV);
  }

  /** Applying `s` and then `t` is applying their product. */
  lemma ApplyCompose(q: Quad, s: Mat4, t: Mat4)
    ensures Apply(Apply(q, s), t) == Apply(q, Mul(t, s))
  {
    MulVMul(t, s, q.normal);
    MulVMul(t, s, q.planeV);
  }

  // ---------------------------------------------------------------------------
  // Rotation between normals

  /** The `e`-th unit axis, built as `v[e] = 1` on a zero `Vec4d`. */
  function UnitAxis(e: nat): (v: Vec4)
    requires e < 3
    ensures v.w == 0.0
  {
    if e == 0 then Vec4(1.0, 0.0, 0.0, 0.0)
    else if e == 1 then Vec4(0.0, 1.0, 0.0, 0.0)
    else Vec4(0.0, 0.0, 1.0, 0.0)
  }

  /** The loop of `RotationBetweenNormals`: the first axis from `e` on whose cross with `n1` is not near zero. */
  function FindAxis(n1: Vec4, e: nat): (r: Option<nat>)
    requires e <= 3
    ensures r.Some? ==> e <= r.value < 3 && !NearZero(Cross3D(n1, UnitAxis(r.value)))
    ensures r.Some? ==> forall j :: e <= j < r.value ==> NearZero(Cross3D(n1, UnitAxis(j)))
    ensures r.None? <==> forall j :: e <= j < 3 ==> NearZero(Cross3D(n1, UnitAxis(j)))
    decreases 3 - e
  {
    if e == 3 then None
    else if !NearZero(Cross3D(n1, UnitAxis(e))) then Some(e)
    else FindAxis(n1, e + 1)
  }

  lemma FindAxisFailsOnlyIfZero(n1: Vec4)
    ensures FindAxis(n1, 0).None? ==> NearZero(n1.Xyz())
  {
    assert Cross3D(n1, UnitAxis(0)) == Vec3(0.0, n1.z, -n1.y);
    assert Cross3D(n1, UnitAxis(1)) == Vec3(-n1.z, 0.0, n1.x);
  }

  lemma FindAxisFailsIfZero(n1: Vec4)
    ensures NearZero(n1.Xyz()) ==> FindAxis(n1, 0).None?
  {
    assert Cross3D(n1, UnitAxis(0)) == Vec3(0.0, n1.z, -n1.y);
    assert Cross3D(n1, UnitAxis(1)) == Vec3(-n1.z, 0.0, n1.x);
    assert Cross3D(n1, UnitAxis(2)) == Vec3(n1.y, -n1.x, 0.0);
  }

  /** The axis search fails exactly when `n1` itself is near zero. */
  lemma FindAxisFails(n1: Vec4)
    ensures FindAxis(n1, 0).None? <==> NearZero(n1.Xyz())
  {
    FindAxisFailsOnlyIfZero(n1);
    FindAxisFailsIfZero(n1);
  }

  /**
   * `RotationBetweenNormals`: the rotation taking `n1` to `n2`. Not parallel: a rotation by
   * `acos(dot)` about the normalized cross. Antiparallel: a half turn about the cross with the
   * first usable unit axis. Aligned: the identity. The panic becomes `DegenerateNormal`.
   */
  function RotationBetweenNormals(lib: MathLib, n1: Vec4, n2: Vec4): (r: Result<Mat4, Fault>)
    ensures NearZero(Cross3D(n1, n2)) && Dot4(n1, n2) >= 0.0 ==> r == Success(Identity)
    ensures !NearZero(Cross3D(n1, n2)) ==>
              r == Success(lib.rotate(lib.acos(Dot4(n1, n2)), lib.normalize3(Cross3D(n1, n2))))
    ensures r.Failure? <==> NearZero(Cross3D(n1, n2)) && Dot4(n1, n2) < 0.0 && NearZero(n1.Xyz())
    ensures r.Failure? ==> r.error == DegenerateNormal(n1)
    ensures NearZero(Cross3D(n1, n2)) && Dot4(n1, n2) < 0.0 && r.Success? ==>
              exists e :: 0 <= e < 3 && !NearZero(Cross3D(n1, UnitAxis(e)))
                && (forall j :: 0 <= j < e ==> NearZero(Cross3D(n1, UnitAxis(j))))
                && r.value == lib.rotate(Pi, lib.normalize3(Cross3D(n1, UnitAxis(e))))
  {
    FindAxisFails(n1);
    var axis := Cross3D(n1, n2);
    var dot := Dot4(n1, n2);
    if !NearZero(axis) then
      Success(lib.rotate(lib.acos(dot), lib.normalize3(axis)))
    else if dot < 0.0 then
      match FindAxis(n1, 0)
      case Some(e) => Success(lib.rotate(Pi, lib.normalize3(Cross3D(n1, UnitAxis(e)))))
      case None => Failure(DegenerateNormal(n1))
    else
      Success(Identity)
  }

  // ---------------------------------------------------------------------------
  // Portal transforms

  /** The four matrices of `PortalTransform`: A to B, B to A, and each quad's canonical frame. */
  datatype Transforms = Transforms(ab: Mat4, ba: Mat4, az: Mat4, bz: Mat4)

  /** `translateAZ`: the translation taking the quad's centre to the origin. */
  function CenterToOrigin(q: Quad): (t: Mat4)
    ensures q.center.w == 1.0 ==> MulV(t, q.center) == Origin
  {
    Translation(-q.center.x, -q.center.y, -q.center.z)
  }

  predicate NonZeroScale(q: Quad) {
    q.scale.x != 0.0 && q.scale.y != 0.0 && q.scale.z != 0.0
  }

  /**
   * The canonicalising transform of one quad, `scale * rotationXZ * rotationZ * translate`:
   * centre to the origin, normal onto +Z, in-plane axis onto +X, unit extents.
   */
  function Canonical(lib: MathLib, q: Quad): (r: Result<Mat4, Fault>)
    ensures r.Failure? <==>
      RotationBetweenNormals(lib, q.normal, ZAxis).Failure? ||
      RotationBetweenNormals(lib, MulV(RotationBetweenNormals(lib, q.normal, ZAxis).value, q.planeV), XAxis).Failure? ||
      !NonZeroScale(q)
  {
    match RotationBetweenNormals(lib, q.normal, ZAxis)
    case Failure(e) => Failure(e)
    case Success(rotationZ) =>
      match RotationBetweenNormals(lib, MulV(rotationZ, q.planeV), XAxis)
      case Failure(e) => Failure(e)
      case Success(rotationXZ) =>
        if !NonZeroScale(q) then Failure(ZeroScale(q.scale))
        else
          var scale := Scaling(1.0 / q.scale.x, 1.0 / q.scale.y, 1.0 / q.scale.z);
          Success(Mul(Mul(Mul(scale, rotationXZ), rotationZ), CenterToOrigin(q)))
  }

  /**
   * `PortalTransform(a, b)`: `AB = inv(BZ) * AZ` and `BA = inv(AZ) * BZ`, failing when either
   * canonical frame cannot be built.
   */
  function PortalTransform(lib: MathLib, a: Quad, b: Quad): (r: Result<Transforms, Fault>)
    ensures r.Success? <==> Canonical(lib, a).Success? && Canonical(lib, b).Success?
    ensures r.Success? ==> r.value.az == Canonical(lib, a).value && r.value.bz == Canonical(lib, b).value
  {
    match Canonical(lib, a)
    case Failure(e) => Failure(e)
    case Success(az) =>
      match Canonical(lib, b)
      case Failure(e) => Failure(e)
      case Success(bz) => Success(Transforms(Mul(lib.inv(bz), az), Mul(lib.inv(az), bz), az, bz))
  }

  /** Every rotation the library builds leaves the homogeneous origin fixed. */
  ghost predicate RotationsFixOrigin(lib: MathLib) {
    forall angle, axis :: MulV(lib.rotate(angle, axis), Origin) == Origin
  }

  lemma RotationFixesOrigin(lib: MathLib, n1: Vec4, n2: Vec4)
    requires RotationBetweenNormals(lib, n1, n2).Success? && RotationsFixOrigin(lib)
    ensures MulV(RotationBetweenNormals(lib, n1, n2).value, Origin) == Origin
  {
    var r := RotationBetweenNormals(lib, n1, n2).value;
    if !NearZero(Cross3D(n1, n2)) {
      var angle, axis := lib.acos(Dot4(n1, n2)), lib.normalize3(Cross3D(n1, n2));
      assert r == lib.rotate(angle, axis);
      assert MulV(lib.rotate(angle, axis), Origin) == Origin;
    } else if Dot4(n1, n2) < 0.0 {
      var e := FindAxis(n1, 0).value;
      assert r == lib.rotate(Pi, lib.normalize3(Cross3D(n1, UnitAxis(e))));
    } else {
      MulVIdentity(Origin);
    }
  }

  /** The canonical frame puts the quad's centre at the origin. */
  lemma CanonicalCentre(lib: MathLib, q: Quad)
    requires Canonical(lib, q).Success?
    requires q.center.w == 1.0 && RotationsFixOrigin(lib)
    ensures MulV(Canonical(lib, q).value, q.center) == Origin
  {
    var rz := RotationBetweenNormals(lib, q.normal, ZAxis).value;
    var rxz := RotationBetweenNormals(lib, MulV(rz, q.planeV), XAxis).value;
    var scale := Scaling(1.0 / q.scale.x, 1.0 / q.scale.y, 1.0 / q.scale.z);
    var t := CenterToOrigin(q);
    assert Canonical(lib, q).value == Mul(Mul(Mul(scale, rxz), rz), t);
    RotationFixesOrigin(lib, q.normal, ZAxis);
    RotationFixesOrigin(lib, MulV(rz, q.planeV), XAxis);
    calc {
      MulV(Mul(Mul(Mul(scale, rxz), rz), t), q.center);
      { MulVMul(Mul(Mul(scale, rxz), rz), t, q.center); }
      MulV(Mul(Mul(scale, rxz), rz), Origin);
      { MulVMul(Mul(scale, rxz), rz, Origin); }
      MulV(Mul(scale, rxz), Origin);
      { MulVMul(scale, rxz, Origin); }
      MulV(scale, Origin);
    }
  }

  /** `AB` carries the A-canonical frame onto the B-canonical one: `BZ * AB == AZ` (and symmetrically). */
  lemma PortalTransformFrames(lib: MathLib, a: Quad, b: Quad)
    requires PortalTransform(lib, a, b).Success?
    requires InvExact(lib, PortalTransform(lib, a, b).value.az)
    requires InvExact(lib, PortalTransform(lib, a, b).value.bz)
    ensures var t := PortalTransform(lib, a, b).value; Mul(t.bz, t.ab) == t.az && Mul(t.az, t.ba) == t.bz
  {
    var t := PortalTransform(lib, a, b).value;
    MulAssoc(t.bz, lib.inv(t.bz), t.az);
    MulIdentity(t.az);
    MulAssoc(t.az, lib.inv(t.az), t.bz);
    MulIdentity(t.bz);
  }

  /** With an exact inverse, `AB` and `BA` undo each other. */
  lemma PortalTransformRoundTrip(lib: MathLib, a: Quad, b: Quad)
    requires PortalTransform(lib, a, b).Success?
    requires InvExact(lib, PortalTransform(lib, a, b).value.az)
    requires InvExact(lib, PortalTransform(lib, a, b).value.bz)
    ensures var t := PortalTransform(lib, a, b).value; Mul(t.ab, t.ba) == Identity && Mul(t.ba, t.ab) == Identity
  {
    var t := PortalTransform(lib, a, b).value;
    var za, zb := lib.inv(t.az), lib.inv(t.bz);
    // AB * BA = ZB * (AZ * (ZA * BZ)) = ZB * ((AZ * ZA) * BZ) = ZB * BZ
    MulAssoc(zb, t.az, t.ba);
    MulAssoc(t.az, za, t.bz);
    MulIdentity(t.bz);
    // BA * AB = ZA * (BZ * (ZB * AZ)) = ZA * ((BZ * ZB) * AZ) = ZA * AZ
    MulAssoc(za, t.bz, t.ab);
    MulAssoc(t.bz, zb, t.az);
    MulIdentity(t.az);
  }

  /** A quad against itself: both directions are the identity. */
  lemma PortalTransformSelf(lib: MathLib, a: Quad)
    requires PortalTransform(lib, a, a).Success?
    requires InvExact(lib, PortalTransform(lib, a, a).value.az)
    ensures PortalTransform(lib, a, a).value.ab == Identity
    ensures PortalTransform(lib, a, a).value.ba == Identity
  {
  }
}
