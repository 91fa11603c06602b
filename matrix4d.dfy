/** Matrix4D.cs: a 4x4 matrix held as four Vector4D rows F, U, R, W. Its
    product with a vector dots each row with the vector, and the product
    a * b has as row i the product of a with row i of b. In ordinary matrix
    notation that makes a * b equal to B times the transpose of A, so that
    a * Identity is the transpose of a and the product is not associative.
    The primary constructor is the datatype constructor. */
module Matrix4DOps {
  import opened Maths
  import V3 = Vector3DOps
  import V4 = Vector4DOps
  import M3 = Matrix3DOps
  import Q = QuaternionOps

  datatype Matrix4D = Matrix4D(F: V4.Vec4, U: V4.Vec4, R: V4.Vec4, W: V4.Vec4)

  /** `Identity`: the rows X, Y, Z, W. */
  const Identity := Matrix4D(V4.X, V4.Y, V4.Z, V4.W)

  // ---- constructors from 3D data ----

  /** `new Matrix4D(f, u, r, s)` from four Vector3D: each row is built with
      `new Vector4D(v)`, whose w defaults to 1, so every row keeps its 3D
      part and gets w = 1. */
  function FromVectors(f: V3.Vec3, u: V3.Vec3, r: V3.Vec3, s: V3.Vec3): (m: Matrix4D)
    ensures V4.Narrow(m.F) == f && V4.Narrow(m.U) == u && V4.Narrow(m.R) == r && V4.Narrow(m.W) == s
    ensures m.F.w == 1.0 && m.U.w == 1.0 && m.R.w == 1.0 && m.W.w == 1.0
  {
    Matrix4D(V4.FromVector3D(f), V4.FromVector3D(u), V4.FromVector3D(r), V4.FromVector3D(s))
  }

  /** `new Matrix4D(f, u, r)` from three Vector3D: the four-vector
      constructor with Vector3D.Zero as the last row, which therefore
      becomes (0, 0, 0, 1). */
  function FromRows3D(f: V3.Vec3, u: V3.Vec3, r: V3.Vec3): (m: Matrix4D)
    ensures V4.Narrow(m.F) == f && V4.Narrow(m.U) == u && V4.Narrow(m.R) == r
    ensures m.F.w == 1.0 && m.U.w == 1.0 && m.R.w == 1.0 && m.W == V4.W
  {
    FromVectors(f, u, r, V3.Zero)
  }

  /** `new Matrix4D(Matrix3D m)`: the same, from the rows of m. */
  function FromMatrix3D(m3: M3.Matrix3D): (m: Matrix4D)
    ensures m == FromRows3D(m3.F, m3.U, m3.R)
    ensures M3.Matrix3D(V4.Narrow(m.F), V4.Narrow(m.U), V4.Narrow(m.R)) == m3
  {
    FromVectors(m3.F, m3.U, m3.R, V3.Zero)
  }

  /** `new Matrix4D(Vector3D f)`: the basis of `new Matrix3D(f)`, so f must
      not be parallel to Y. The 3D parts of F, U and R are orthonormal, but
      each row has w = 1. */
  function FromForward(f: V3.Vec3, sqrt: real -> real): (m: Matrix4D)
    requires IsSqrt(sqrt) && (f.x != 0.0 || f.z != 0.0)
    ensures M3.Orthonormal(M3.Matrix3D(V4.Narrow(m.F), V4.Narrow(m.U), V4.Narrow(m.R)))
    ensures m.F.w == 1.0 && m.U.w == 1.0 && m.R.w == 1.0 && m.W == V4.W
  {
    FromMatrix3D(M3.FromForward(f, sqrt))
  }

  // ---- products ----

  /** `m * v`: each row dotted with v. */
  function Apply(m: Matrix4D, v: V4.Vec4): V4.Vec4 {
    V4.Vec4(V4.Dot(m.F, v), V4.Dot(m.U, v), V4.Dot(m.R, v), V4.Dot(m.W, v))
  }

  /** `a * b`: row i is a times row i of b. */
  function Mul(a: Matrix4D, b: Matrix4D): Matrix4D {
    Matrix4D(Apply(a, b.F), Apply(a, b.U), Apply(a, b.R), Apply(a, b.W))
  }

  /** The transpose: row i holds the i-th components of the rows. The
      source has no transpose; it serves to state what `*` computes. */
  function Transpose(m: Matrix4D): Matrix4D {
    Matrix4D(
      V4.Vec4(m.F.x, m.U.x, m.R.x, m.W.x),
      V4.Vec4(m.F.y, m.U.y, m.R.y, m.W.y),
      V4.Vec4(m.F.z, m.U.z, m.R.z, m.W.z),
      V4.Vec4(m.F.w, m.U.w, m.R.w, m.W.w))
  }

  /** `Identity * v = v`. */
  lemma ApplyIdentity(v: V4.Vec4)
    ensures Apply(Identity, v) == v
  {
  }

  /** `m * v` is linear in v. */
  lemma ApplyLinear(m: Matrix4D, a: V4.Vec4, b: V4.Vec4, s: real)
    ensures Apply(m, V4.Add(a, b)) == V4.Add(Apply(m, a), Apply(m, b))
    ensures Apply(m, V4.MulScalar(a, s)) == V4.MulScalar(Apply(m, a), s)
    ensures Apply(m, V4.Zero) == V4.Zero
  {
    V4.DotLinear(m.F, a, b, s);
    V4.DotLinear(m.U, a, b, s);
    V4.DotLinear(m.R, a, b, s);
    V4.DotLinear(m.W, a, b, s);
  }

  /** `Identity * b = b`, while `a * Identity` is the transpose of a. */
  lemma MulIdentity(m: Matrix4D)
    ensures Mul(Identity, m) == m
    ensures Mul(m, Identity) == Transpose(m)
  {
  }

  lemma TransposeInvolution(m: Matrix4D)
    ensures Transpose(Transpose(m)) == m
  {
  }

  /** Moving a matrix across a dot product transposes it. */
  lemma DotApply(m: Matrix4D, u: V4.Vec4, v: V4.Vec4)
    ensures V4.Dot(Apply(m, u), v) == V4.Dot(u, Apply(Transpose(m), v))
  {
    var a := V4.Add(V4.MulScalar(m.F, v.x), V4.MulScalar(m.U, v.y));
    var b := V4.Add(a, V4.MulScalar(m.R, v.z));
    TransposeApplyCombines(m, v);
    V4.DotLinear(u, a, V4.MulScalar(m.R, v.z), v.z);
    V4.DotLinear(u, b, V4.MulScalar(m.W, v.w), v.w);
    V4.DotLinear(u, V4.MulScalar(m.F, v.x), V4.MulScalar(m.U, v.y), v.x);
    V4.DotLinear(u, m.F, m.U, v.x);
    V4.DotLinear(u, m.U, m.F, v.y);
    V4.DotLinear(u, m.R, m.F, v.z);
    V4.DotLinear(u, m.W, m.F, v.w);
    V4.DotSymmetric(u, m.F);
    V4.DotSymmetric(u, m.U);
    V4.DotSymmetric(u, m.R);
    V4.DotSymmetric(u, m.W);
  }

  /** The transpose applied to v adds up the rows weighted by v. */
  lemma TransposeApplyCombines(m: Matrix4D, v: V4.Vec4)
    ensures Apply(Transpose(m), v)
         == V4.Add(V4.Add(V4.Add(V4.MulScalar(m.F, v.x), V4.MulScalar(m.U, v.y)), V4.MulScalar(m.R, v.z)),
                   V4.MulScalar(m.W, v.w))
  {
  }

  /** What `a * b` does to a vector: first the transpose of a, then b. */
  lemma ApplyMul(a: Matrix4D, b: Matrix4D, v: V4.Vec4)
    ensures Apply(Mul(a, b), v) == Apply(b, Apply(Transpose(a), v))
  {
    DotApply(a, b.F, v);
    DotApply(a, b.U, v);
    DotApply(a, b.R, v);
    DotApply(a, b.W, v);
  }

  /** The product is not associative. With e the matrix whose only non-zero
      entry is a 1 in row F, column y, (e * e) * Identity has a 1 in row F,
      column x, where e * (e * Identity) has 0. */
  lemma MulNotAssociative()
    ensures Mul(Mul(SingleEntry, SingleEntry), Identity) != Mul(SingleEntry, Mul(SingleEntry, Identity))
  {
    GroupedLeft();
    GroupedRight();
  }

  const SingleEntry := Matrix4D(V4.Y, V4.Zero, V4.Zero, V4.Zero)

  lemma GroupedLeft()
    ensures Mul(Mul(SingleEntry, SingleEntry), Identity).F.x == 1.0
  {
    SingleEntrySquared();
    MulIdentityEntry(Mul(SingleEntry, SingleEntry));
  }

  lemma GroupedRight()
    ensures Mul(SingleEntry, Mul(SingleEntry, Identity)).F.x == 0.0
  {
  }

  lemma SingleEntrySquared()
    ensures Mul(SingleEntry, SingleEntry).F.x == 1.0
  {
    assert Mul(SingleEntry, SingleEntry).F.x == V4.Dot(SingleEntry.F, SingleEntry.F);
    V4.DotBasis(V4.Y);
  }

  lemma MulIdentityEntry(m: Matrix4D)
    ensures Mul(m, Identity).F.x == m.F.x
  {
  }

  // ---- scale and translation ----

  /** `Scale(scaleX, scaleY, scaleZ)`: built from three Vector3D through the
      three-vector constructor, so the diagonal rows carry w = 1 and the last
      row is (0, 0, 0, 1). */
  function Scale(sx: real, sy: real, sz: real): (m: Matrix4D)
    ensures m == Matrix4D(V4.Vec4(sx, 0.0, 0.0, 1.0), V4.Vec4(0.0, sy, 0.0, 1.0),
                          V4.Vec4(0.0, 0.0, sz, 1.0), V4.W)
  {
    FromRows3D(V3.Vec3(sx, 0.0, 0.0), V3.Vec3(0.0, sy, 0.0), V3.Vec3(0.0, 0.0, sz))
  }

  /** `Scale(Vector3D scaleVector)`. */
  function ScaleVector(s: V3.Vec3): (m: Matrix4D)
    ensures m == Scale(s.x, s.y, s.z)
  {
    FromRows3D(V3.Vec3(s.x, 0.0, 0.0), V3.Vec3(0.0, s.y, 0.0), V3.Vec3(0.0, 0.0, s.z))
  }

  /** `Scale(float scale)`. */
  function ScaleUniform(s: real): (m: Matrix4D)
    ensures m == Scale(s, s, s) && m == ScaleVector(V3.Vec3(s, s, s))
  {
    FromRows3D(V3.Vec3(s, 0.0, 0.0), V3.Vec3(0.0, s, 0.0), V3.Vec3(0.0, 0.0, s))
  }

  /** Because of the w = 1 in its rows, a scale matrix adds the w of the
      vector to each scaled component: a point (w = 1) is scaled and then
      moved by (1, 1, 1), and only a direction (w = 0) is just scaled. */
  lemma ScaleApply(sx: real, sy: real, sz: real, v: V4.Vec4)
    ensures Apply(Scale(sx, sy, sz), v) == V4.Vec4(sx * v.x + v.w, sy * v.y + v.w, sz * v.z + v.w, v.w)
    ensures v.w == 0.0 ==> Apply(Scale(sx, sy, sz), v) == V4.Vec4(sx * v.x, sy * v.y, sz * v.z, 0.0)
  {
  }

  /** So the unit scale is not Identity, and it does not fix the origin. */
  lemma UnitScaleNotIdentity()
    ensures ScaleUniform(1.0) != Identity
    ensures Apply(ScaleUniform(1.0), V4.W) == V4.One
  {
    ScaleApply(1.0, 1.0, 1.0, V4.W);
  }

  /** `Translation(worldPos)`: rows X, Y, Z and (worldPos, 1). */
  function Translation(t: V3.Vec3): (m: Matrix4D)
    ensures m.F == V4.X && m.U == V4.Y && m.R == V4.Z
    ensures V4.Narrow(m.W) == t && m.W.w == 1.0
  {
    Matrix4D(V4.X, V4.Y, V4.Z, V4.FromVector3D(t, 1.0))
  }

  /** With the row-dot product the translation row only feeds w: x, y and z
      come out unchanged and w gains t . (x, y, z). */
  lemma TranslationApply(t: V3.Vec3, v: V4.Vec4)
    ensures Apply(Translation(t), v) == V4.Vec4(v.x, v.y, v.z, V3.Dot(t, V4.Narrow(v)) + v.w)
  {
  }

  /** Its transpose is the one that moves a point by t, and leaves a
      direction alone. */
  lemma TranslationTransposeApply(t: V3.Vec3, p: V3.Vec3)
    ensures Apply(Transpose(Translation(t)), V4.FromVector3D(p)) == V4.FromVector3D(V3.Add(p, t))
    ensures Apply(Transpose(Translation(t)), V4.Widen(p)) == V4.Widen(p)
  {
  }

  // ---- rotations ----

  /** The shape every rotation matrix of this file should have: the 3D parts
      of F, U and R are orthonormal, their w is 0, and W is (0, 0, 0, 1). */
  predicate IsRotation(m: Matrix4D) {
    && M3.Orthonormal(M3.Matrix3D(V4.Narrow(m.F), V4.Narrow(m.U), V4.Narrow(m.R)))
    && m.F.w == 0.0 && m.U.w == 0.0 && m.R.w == 0.0 && m.W == V4.W
  }

  /** The closed form returned by `Rotation(angles)`, in terms of
      A = cos x, B = sin x, C = cos y, D = sin y, E = cos z and F = sin z. */
  function EulerRows(A: real, B: real, C: real, D: real, E: real, F: real): Matrix4D {
    var AD := A * D;
    var BD := B * D;
    Matrix4D(
      V4.Vec4(C * E, BD * E + A * F, -AD * E + B * F, 0.0),
      V4.Vec4(-C * F, -BD * F + A * E, AD * F + B * E, 0.0),
      V4.Vec4(D, -B * C, A * C, 0.0),
      V4.Vec4(0.0, 0.0, 0.0, 1.0))
  }

  /** `Rotation(angles)`, with MathF.Cos and MathF.Sin given as `cos` and
      `sin`: a rotation matrix, and Identity for zero angles. */
  function Rotation(angles: V3.Vec3, cos: real -> real, sin: real -> real): (m: Matrix4D)
    requires IsTrig(cos, sin)
    ensures IsRotation(m)
    ensures angles == V3.Zero ==> m == Identity
  {
    var A, B, C, D, E, F := cos(angles.x), sin(angles.x), cos(angles.y), sin(angles.y), cos(angles.z), sin(angles.z);
    EulerOrthonormal(A, B, C, D, E, F);
    if angles == V3.Zero then
      EulerRowsZero();
      EulerRows(A, B, C, D, E, F)
    else
      EulerRows(A, B, C, D, E, F)
  }

  /** With all three angles zero the closed form is Identity. */
  lemma EulerRowsZero()
    ensures EulerRows(1.0, 0.0, 1.0, 0.0, 1.0, 0.0) == Identity
  {
  }

  /** The closed form is a rotation whenever each (cos, sin) pair lies on
      the unit circle. */
  lemma EulerOrthonormal(A: real, B: real, C: real, D: real, E: real, F: real)
    requires Square(A) + Square(B) == 1.0 && Square(C) + Square(D) == 1.0 && Square(E) + Square(F) == 1.0
    ensures IsRotation(EulerRows(A, B, C, D, E, F))
  {
    EulerUnitF(A, B, C, D, E, F);
    EulerUnitU(A, B, C, D, E, F);
    EulerUnitR(A, B, C, D);
    EulerDotFU(A, B, C, D, E, F);
    EulerDotFR(A, B, C, D, E, F);
    EulerDotUR(A, B, C, D, E, F);
    var f := V3.Vec3(C * E, B * D * E + A * F, -(A * D) * E + B * F);
    var u := V3.Vec3(-C * F, -(B * D) * F + A * E, A * D * F + B * E);
    var r := V3.Vec3(D, -B * C, A * C);
    SqrMagnitudeOf(f.x, f.y, f.z);
    SqrMagnitudeOf(u.x, u.y, u.z);
    SqrMagnitudeOf(r.x, r.y, r.z);
    NarrowEulerRows(A, B, C, D, E, F);
    RotationFromRows(EulerRows(A, B, C, D, E, F), f, u, r);
  }

  lemma SqrMagnitudeOf(x: real, y: real, z: real)
    ensures V3.SqrMagnitude(V3.Vec3(x, y, z)) == Square(x) + Square(y) + Square(z)
  {
  }

  lemma NarrowEulerRows(A: real, B: real, C: real, D: real, E: real, F: real)
    ensures V4.Narrow(EulerRows(A, B, C, D, E, F).F) == V3.Vec3(C * E, B * D * E + A * F, -(A * D) * E + B * F)
    ensures V4.Narrow(EulerRows(A, B, C, D, E, F).U) == V3.Vec3(-C * F, -(B * D) * F + A * E, A * D * F + B * E)
    ensures V4.Narrow(EulerRows(A, B, C, D, E, F).R) == V3.Vec3(D, -B * C, A * C)
    ensures EulerRows(A, B, C, D, E, F).F.w == 0.0 && EulerRows(A, B, C, D, E, F).U.w == 0.0
    ensures EulerRows(A, B, C, D, E, F).R.w == 0.0 && EulerRows(A, B, C, D, E, F).W == V4.W
  {
  }

  /** A matrix whose first three rows narrow to orthonormal vectors with
      w = 0, above the last row (0, 0, 0, 1), is a rotation. */
  lemma RotationFromRows(m: Matrix4D, f: V3.Vec3, u: V3.Vec3, r: V3.Vec3)
    requires V4.Narrow(m.F) == f && V4.Narrow(m.U) == u && V4.Narrow(m.R) == r
    requires M3.Orthonormal(M3.Matrix3D(f, u, r))
    requires m.F.w == 0.0 && m.U.w == 0.0 && m.R.w == 0.0 && m.W == V4.W
    ensures IsRotation(m)
  {
  }

  lemma EulerUnitF(A: real, B: real, C: real, D: real, E: real, F: real)
    requires Square(A) + Square(B) == 1.0 && Square(C) + Square(D) == 1.0 && Square(E) + Square(F) == 1.0
    ensures Square(C * E) + Square(B * D * E + A * F) + Square(-(A * D) * E + B * F) == 1.0
  {
    ExpandUnitF(A, B, C, D, E, F);
    assert A * A + B * B == 1.0;
    assert C * C + D * D == 1.0;
    assert F * F + E * E == 1.0;
    SubstituteUnitU(Square(C * E) + Square(B * D * E + A * F) + Square(-(A * D) * E + B * F),
      A * A, B * B, C * C, D * D, F * F, E * E);
  }

  lemma ExpandUnitF(A: real, B: real, C: real, D: real, E: real, F: real)
    ensures Square(C * E) + Square(B * D * E + A * F) + Square(-(A * D) * E + B * F)
         == E * E * (C * C + D * D * (A * A + B * B)) + F * F * (A * A + B * B)
  {
  }

  lemma EulerUnitU(A: real, B: real, C: real, D: real, E: real, F: real)
    requires Square(A) + Square(B) == 1.0 && Square(C) + Square(D) == 1.0 && Square(E) + Square(F) == 1.0
    ensures Square(-C * F) + Square(-(B * D) * F + A * E) + Square(A * D * F + B * E) == 1.0
  {
    ExpandUnitU(A, B, C, D, E, F);
    assert A * A + B * B == 1.0;
    assert C * C + D * D == 1.0;
    assert E * E + F * F == 1.0;
    SubstituteUnitU(Square(-C * F) + Square(-(B * D) * F + A * E) + Square(A * D * F + B * E),
      A * A, B * B, C * C, D * D, E * E, F * F);
  }

  lemma ExpandUnitU(A: real, B: real, C: real, D: real, E: real, F: real)
    ensures Square(-C * F) + Square(-(B * D) * F + A * E) + Square(A * D * F + B * E)
         == F * F * (C * C + D * D * (A * A + B * B)) + E * E * (A * A + B * B)
  {
  }

  lemma SubstituteUnitU(r: real, a: real, b: real, c: real, d: real, e: real, f: real)
    requires a + b == 1.0 && c + d == 1.0 && e + f == 1.0
    requires r == f * (c + d * (a + b)) + e * (a + b)
    ensures r == 1.0
  {
  }

  lemma EulerUnitR(A: real, B: real, C: real, D: real)
    requires Square(A) + Square(B) == 1.0 && Square(C) + Square(D) == 1.0
    ensures Square(D) + Square(-B * C) + Square(A * C) == 1.0
  {
    assert Square(-B * C) + Square(A * C) == C * C * (A * A + B * B);
    assert A * A + B * B == 1.0;
    assert Square(D) + C * C == 1.0;
  }

  lemma EulerDotFU(A: real, B: real, C: real, D: real, E: real, F: real)
    requires Square(A) + Square(B) == 1.0 && Square(C) + Square(D) == 1.0
    ensures V3.Dot(V3.Vec3(C * E, B * D * E + A * F, -(A * D) * E + B * F), V3.Vec3(-C * F, -(B * D) * F + A * E, A * D * F + B * E)) == 0.0
  {
    assert (C * E) * (-C * F) + (B * D * E + A * F) * (-(B * D) * F + A * E)
          + (-(A * D) * E + B * F) * (A * D * F + B * E)
        == E * F * ((A * A + B * B) * (1.0 - D * D) - C * C);
  }

  lemma EulerDotFR(A: real, B: real, C: real, D: real, E: real, F: real)
    requires Square(A) + Square(B) == 1.0
    ensures V3.Dot(V3.Vec3(C * E, B * D * E + A * F, -(A * D) * E + B * F), V3.Vec3(D, -B * C, A * C)) == 0.0
  {
    assert (C * E) * D + (B * D * E + A * F) * (-B * C) + (-(A * D) * E + B * F) * (A * C)
        == C * D * E * (1.0 - (A * A + B * B));
  }

  lemma EulerDotUR(A: real, B: real, C: real, D: real, E: real, F: real)
    requires Square(A) + Square(B) == 1.0
    ensures V3.Dot(V3.Vec3(-C * F, -(B * D) * F + A * E, A * D * F + B * E), V3.Vec3(D, -B * C, A * C)) == 0.0
  {
    assert (-C * F) * D + (-(B * D) * F + A * E) * (-B * C) + (A * D * F + B * E) * (A * C)
        == C * D * F * ((A * A + B * B) - 1.0);
  }

  /** `Rotation(quaternion)` as written. The products xx, xy, ... are the
      local temporaries of the source. The third entry of F is 2 xz + yw,
      where the other off-diagonal entries double both products. */
  function RotationQuaternion(q: Q.Quaternion): (m: Matrix4D)
    ensures m.F.w == 0.0 && m.U.w == 0.0 && m.R.w == 0.0 && m.W == V4.W
    ensures m.F.z == 2.0 * (q.x * q.z) + q.y * q.w
  {
    var xx, xy, xz, xw := q.x * q.x, q.x * q.y, q.x * q.z, q.x * q.w;
    var yy, yz, yw := q.y * q.y, q.y * q.z, q.y * q.w;
    var zz, zw := q.z * q.z, q.z * q.w;
    Matrix4D(
      V4.Vec4(1.0 - 2.0 * (yy + zz), 2.0 * (xy - zw), 2.0 * xz + yw, 0.0),
      V4.Vec4(2.0 * (xy + zw), 1.0 - 2.0 * (xx + zz), 2.0 * (yz - xw), 0.0),
      V4.Vec4(2.0 * (xz - yw), 2.0 * (yz + xw), 1.0 - 2.0 * (xx + yy), 0.0),
      V4.Vec4(0.0, 0.0, 0.0, 1.0))
  }

  /** The same matrix with the third entry of F written 2 (xz + yw), the
      standard quaternion-to-matrix formula the other eight entries follow. */
  function RotationQuaternionCorrected(q: Q.Quaternion): (m: Matrix4D)
    ensures m.F.w == 0.0 && m.U.w == 0.0 && m.R.w == 0.0 && m.W == V4.W
  {
    var xx, xy, xz, xw := q.x * q.x, q.x * q.y, q.x * q.z, q.x * q.w;
    var yy, yz, yw := q.y * q.y, q.y * q.z, q.y * q.w;
    var zz, zw := q.z * q.z, q.z * q.w;
    Matrix4D(
      V4.Vec4(1.0 - 2.0 * (yy + zz), 2.0 * (xy - zw), 2.0 * (xz + yw), 0.0),
      V4.Vec4(2.0 * (xy + zw), 1.0 - 2.0 * (xx + zz), 2.0 * (yz - xw), 0.0),
      V4.Vec4(2.0 * (xz - yw), 2.0 * (yz + xw), 1.0 - 2.0 * (xx + yy), 0.0),
      V4.Vec4(0.0, 0.0, 0.0, 1.0))
  }

  /** For a unit quaternion the corrected matrix is a rotation. */
  lemma RotationQuaternionCorrectedIsRotation(q: Q.Quaternion)
    requires Q.SqrMagnitude(q) == 1.0
    ensures IsRotation(RotationQuaternionCorrected(q))
  {
    QuaternionOrthonormal(q.w, q.x, q.y, q.z);
    CorrectedRows(q);
  }

  /** The 3D parts of the corrected rows, written out in w, x, y, z. */
  lemma CorrectedRows(q: Q.Quaternion)
    ensures var m, w, x, y, z := RotationQuaternionCorrected(q), q.w, q.x, q.y, q.z;
      && V4.Narrow(m.F) == V3.Vec3(1.0 - 2.0 * (y * y + z * z), 2.0 * (x * y - z * w), 2.0 * (x * z + y * w))
      && V4.Narrow(m.U) == V3.Vec3(2.0 * (x * y + z * w), 1.0 - 2.0 * (x * x + z * z), 2.0 * (y * z - x * w))
      && V4.Narrow(m.R) == V3.Vec3(2.0 * (x * z - y * w), 2.0 * (y * z + x * w), 1.0 - 2.0 * (x * x + y * y))
  {
  }

  /** The two matrices differ only in the third entry of F, by yw, so they
      agree exactly when y or w is zero. */
  lemma RotationQuaternionTypo(q: Q.Quaternion)
    ensures RotationQuaternion(q).F.z + q.y * q.w == RotationQuaternionCorrected(q).F.z
    ensures RotationQuaternion(q) == RotationQuaternionCorrected(q) <==> q.y * q.w == 0.0
  {
  }

  /** The unit quaternion (1, (0, 0, 0)) gives Identity, as written ... */
  lemma RotationQuaternionOne()
    ensures RotationQuaternion(Q.One) == Identity
  {
  }

  /** ... and corrected. */
  lemma RotationQuaternionCorrectedOne()
    ensures RotationQuaternionCorrected(Q.One) == Identity
  {
  }

  /** For the unit quaternion (1/2, (1/2, 1/2, 1/2)) the matrix as written
      has forward row (0, 0, 3/4), which is not a unit vector, so it is not
      a rotation; the corrected one has forward row (0, 0, 1). */
  lemma RotationQuaternionNotRotation()
    ensures Q.SqrMagnitude(ThirdTurnQuaternion) == 1.0
    ensures !IsRotation(RotationQuaternion(ThirdTurnQuaternion))
    ensures IsRotation(RotationQuaternionCorrected(ThirdTurnQuaternion))
  {
    var m := RotationQuaternion(ThirdTurnQuaternion);
    assert V4.Narrow(m.F) == V3.Vec3(0.0, 0.0, 0.75);
    assert V3.SqrMagnitude(V3.Vec3(0.0, 0.0, 0.75)) == 0.5625;
    RotationQuaternionCorrectedIsRotation(ThirdTurnQuaternion);
  }

  /** (1/2, (1/2, 1/2, 1/2)): a unit quaternion, the turn by 120 degrees
      about (1, 1, 1). */
  const ThirdTurnQuaternion := Q.Quaternion(0.5, 0.5, 0.5, 0.5)

  /** The rows of the corrected matrix are orthonormal for a unit quaternion. */
  lemma QuaternionOrthonormal(w: real, x: real, y: real, z: real)
    requires Square(w) + Square(x) + Square(y) + Square(z) == 1.0
    ensures M3.Orthonormal(M3.Matrix3D(V3.Vec3(1.0 - 2.0 * (y * y + z * z), 2.0 * (x * y - z * w), 2.0 * (x * z + y * w)), V3.Vec3(2.0 * (x * y + z * w), 1.0 - 2.0 * (x * x + z * z), 2.0 * (y * z - x * w)), V3.Vec3(2.0 * (x * z - y * w), 2.0 * (y * z + x * w), 1.0 - 2.0 * (x * x + y * y))))
  {
    assert (w * w + x * x + y * y + z * z) == 1.0;
    QuaternionUnitF(w, x, y, z);
    QuaternionUnitU(w, x, y, z);
    QuaternionUnitR(w, x, y, z);
    QuaternionDotFU(w, x, y, z);
    QuaternionDotFR(w, x, y, z);
    QuaternionDotUR(w, x, y, z);
  }

  lemma QuaternionUnitF(w: real, x: real, y: real, z: real)
    requires (w * w + x * x + y * y + z * z) == 1.0
    ensures V3.SqrMagnitude(V3.Vec3(1.0 - 2.0 * (y * y + z * z), 2.0 * (x * y - z * w), 2.0 * (x * z + y * w))) == 1.0
  {
    ExpandQuaternionUnitF(w, x, y, z);
    SubstituteUnit(V3.SqrMagnitude(V3.Vec3(1.0 - 2.0 * (y * y + z * z), 2.0 * (x * y - z * w), 2.0 * (x * z + y * w))), (y * y + z * z), (x * x + w * w));
  }

  lemma ExpandQuaternionUnitF(w: real, x: real, y: real, z: real)
    ensures V3.SqrMagnitude(V3.Vec3(1.0 - 2.0 * (y * y + z * z), 2.0 * (x * y - z * w), 2.0 * (x * z + y * w))) == 1.0 - 4.0 * (y * y + z * z) + 4.0 * ((y * y + z * z) * (y * y + z * z)) + 4.0 * ((x * x + w * w) * (y * y + z * z))
  {
  }

  lemma QuaternionUnitU(w: real, x: real, y: real, z: real)
    requires (w * w + x * x + y * y + z * z) == 1.0
    ensures V3.SqrMagnitude(V3.Vec3(2.0 * (x * y + z * w), 1.0 - 2.0 * (x * x + z * z), 2.0 * (y * z - x * w))) == 1.0
  {
    ExpandQuaternionUnitU(w, x, y, z);
    SubstituteUnit(V3.SqrMagnitude(V3.Vec3(2.0 * (x * y + z * w), 1.0 - 2.0 * (x * x + z * z), 2.0 * (y * z - x * w))), (x * x + z * z), (y * y + w * w));
  }

  lemma ExpandQuaternionUnitU(w: real, x: real, y: real, z: real)
    ensures V3.SqrMagnitude(V3.Vec3(2.0 * (x * y + z * w), 1.0 - 2.0 * (x * x + z * z), 2.0 * (y * z - x * w))) == 1.0 - 4.0 * (x * x + z * z) + 4.0 * ((x * x + z * z) * (x * x + z * z)) + 4.0 * ((y * y + w * w) * (x * x + z * z))
  {
  }

  lemma QuaternionUnitR(w: real, x: real, y: real, z: real)
    requires (w * w + x * x + y * y + z * z) == 1.0
    ensures V3.SqrMagnitude(V3.Vec3(2.0 * (x * z - y * w), 2.0 * (y * z + x * w), 1.0 - 2.0 * (x * x + y * y))) == 1.0
  {
    ExpandQuaternionUnitR(w, x, y, z);
    SubstituteUnit(V3.SqrMagnitude(V3.Vec3(2.0 * (x * z - y * w), 2.0 * (y * z + x * w), 1.0 - 2.0 * (x * x + y * y))), (x * x + y * y), (z * z + w * w));
  }

  lemma ExpandQuaternionUnitR(w: real, x: real, y: real, z: real)
    ensures V3.SqrMagnitude(V3.Vec3(2.0 * (x * z - y * w), 2.0 * (y * z + x * w), 1.0 - 2.0 * (x * x + y * y))) == 1.0 - 4.0 * (x * x + y * y) + 4.0 * ((x * x + y * y) * (x * x + y * y)) + 4.0 * ((z * z + w * w) * (x * x + y * y))
  {
  }

  lemma QuaternionDotFU(w: real, x: real, y: real, z: real)
    requires (w * w + x * x + y * y + z * z) == 1.0
    ensures V3.Dot(V3.Vec3(1.0 - 2.0 * (y * y + z * z), 2.0 * (x * y - z * w), 2.0 * (x * z + y * w)), V3.Vec3(2.0 * (x * y + z * w), 1.0 - 2.0 * (x * x + z * z), 2.0 * (y * z - x * w))) == 0.0
  {
    ExpandQuaternionDotFU(w, x, y, z);
    SubstituteDot(V3.Dot(V3.Vec3(1.0 - 2.0 * (y * y + z * z), 2.0 * (x * y - z * w), 2.0 * (x * z + y * w)), V3.Vec3(2.0 * (x * y + z * w), 1.0 - 2.0 * (x * x + z * z), 2.0 * (y * z - x * w))), (x * y), (w * w + x * x + y * y + z * z));
  }

  lemma ExpandQuaternionDotFU(w: real, x: real, y: real, z: real)
    ensures V3.Dot(V3.Vec3(1.0 - 2.0 * (y * y + z * z), 2.0 * (x * y - z * w), 2.0 * (x * z + y * w)), V3.Vec3(2.0 * (x * y + z * w), 1.0 - 2.0 * (x * x + z * z), 2.0 * (y * z - x * w))) == 4.0 * (x * y) * (1.0 - (w * w + x * x + y * y + z * z))
  {
  }

  lemma QuaternionDotFR(w: real, x: real, y: real, z: real)
    requires (w * w + x * x + y * y + z * z) == 1.0
    ensures V3.Dot(V3.Vec3(1.0 - 2.0 * (y * y + z * z), 2.0 * (x * y - z * w), 2.0 * (x * z + y * w)), V3.Vec3(2.0 * (x * z - y * w), 2.0 * (y * z + x * w), 1.0 - 2.0 * (x * x + y * y))) == 0.0
  {
    ExpandQuaternionDotFR(w, x, y, z);
    SubstituteDot(V3.Dot(V3.Vec3(1.0 - 2.0 * (y * y + z * z), 2.0 * (x * y - z * w), 2.0 * (x * z + y * w)), V3.Vec3(2.0 * (x * z - y * w), 2.0 * (y * z + x * w), 1.0 - 2.0 * (x * x + y * y))), (x * z), (w * w + x * x + y * y + z * z));
  }

  lemma ExpandQuaternionDotFR(w: real, x: real, y: real, z: real)
    ensures V3.Dot(V3.Vec3(1.0 - 2.0 * (y * y + z * z), 2.0 * (x * y - z * w), 2.0 * (x * z + y * w)), V3.Vec3(2.0 * (x * z - y * w), 2.0 * (y * z + x * w), 1.0 - 2.0 * (x * x + y * y))) == 4.0 * (x * z) * (1.0 - (w * w + x * x + y * y + z * z))
  {
  }

  lemma QuaternionDotUR(w: real, x: real, y: real, z: real)
    requires (w * w + x * x + y * y + z * z) == 1.0
    ensures V3.Dot(V3.Vec3(2.0 * (x * y + z * w), 1.0 - 2.0 * (x * x + z * z), 2.0 * (y * z - x * w)), V3.Vec3(2.0 * (x * z - y * w), 2.0 * (y * z + x * w), 1.0 - 2.0 * (x * x + y * y))) == 0.0
  {
    ExpandQuaternionDotUR(w, x, y, z);
    SubstituteDot(V3.Dot(V3.Vec3(2.0 * (x * y + z * w), 1.0 - 2.0 * (x * x + z * z), 2.0 * (y * z - x * w)), V3.Vec3(2.0 * (x * z - y * w), 2.0 * (y * z + x * w), 1.0 - 2.0 * (x * x + y * y))), (y * z), (w * w + x * x + y * y + z * z));
  }

  lemma ExpandQuaternionDotUR(w: real, x: real, y: real, z: real)
    ensures V3.Dot(V3.Vec3(2.0 * (x * y + z * w), 1.0 - 2.0 * (x * x + z * z), 2.0 * (y * z - x * w)), V3.Vec3(2.0 * (x * z - y * w), 2.0 * (y * z + x * w), 1.0 - 2.0 * (x * x + y * y))) == 4.0 * (y * z) * (1.0 - (w * w + x * x + y * y + z * z))
  {
  }

  /** With s + t = 1, 1 - 4s + 4s^2 + 4ts = 1. */
  lemma SubstituteUnit(r: real, s: real, t: real)
    requires s + t == 1.0 && r == 1.0 - 4.0 * s + 4.0 * (s * s) + 4.0 * (t * s)
    ensures r == 1.0
  {
  }

  lemma SubstituteDot(r: real, p: real, n: real)
    requires n == 1.0 && r == 4.0 * p * (1.0 - n)
    ensures r == 0.0
  {
  }

  // ---- the rotation built from three elementary rotations ----

  /** The roll matrix of `RotationInefficient`, E = cos z, F = sin z. */
  function Roll(E: real, F: real): Matrix4D {
    Matrix4D(V4.Vec4(E, F, 0.0, 0.0), V4.Vec4(-F, E, 0.0, 0.0), V4.Z, V4.W)
  }

  /** The pitch matrix, A = cos x, B = sin x. */
  function Pitch(A: real, B: real): Matrix4D {
    Matrix4D(V4.X, V4.Vec4(0.0, A, B, 0.0), V4.Vec4(0.0, -B, A, 0.0), V4.W)
  }

  /** The yaw matrix, C = cos y, D = sin y. */
  function Yaw(C: real, D: real): Matrix4D {
    Matrix4D(V4.Vec4(C, 0.0, -D, 0.0), V4.Y, V4.Vec4(D, 0.0, C, 0.0), V4.W)
  }

  /** `RotationInefficient(angles)` = yaw * (pitch * roll). Under the
      row-dot product its forward row is (CE + BDF, AF, DE - BCF), and its
      rows keep w = 0 with W = (0, 0, 0, 1). */
  function RotationInefficient(angles: V3.Vec3, cos: real -> real, sin: real -> real): (m: Matrix4D)
    ensures V4.Narrow(m.F) == InefficientForward(cos(angles.x), sin(angles.x), cos(angles.y),
                                                 sin(angles.y), cos(angles.z), sin(angles.z))
    ensures m.F.w == 0.0 && m.U.w == 0.0 && m.R.w == 0.0 && m.W == V4.W
  {
    var A, B, C, D, E, F := cos(angles.x), sin(angles.x), cos(angles.y), sin(angles.y), cos(angles.z), sin(angles.z);
    ComposedForward(A, B, C, D, E, F);
    ComposedLastColumn(A, B, C, D, E, F);
    Mul(Yaw(C, D), Mul(Pitch(A, B), Roll(E, F)))
  }

  /** The forward row of yaw * (pitch * roll), in the six cos/sin values. */
  function InefficientForward(A: real, B: real, C: real, D: real, E: real, F: real): V3.Vec3 {
    V3.Vec3(C * E + D * (B * F), A * F, D * E - C * (B * F))
  }

  lemma ComposedForward(A: real, B: real, C: real, D: real, E: real, F: real)
    ensures V4.Narrow(Mul(Yaw(C, D), Mul(Pitch(A, B), Roll(E, F))).F) == InefficientForward(A, B, C, D, E, F)
  {
    var pr := Mul(Pitch(A, B), Roll(E, F));
    assert pr.F == V4.Vec4(E, A * F, -B * F, 0.0);
  }

  lemma ComposedLastColumn(A: real, B: real, C: real, D: real, E: real, F: real)
    ensures var m := Mul(Yaw(C, D), Mul(Pitch(A, B), Roll(E, F)));
      m.F.w == 0.0 && m.U.w == 0.0 && m.R.w == 0.0 && m.W == V4.W
  {
    var pr := Mul(Pitch(A, B), Roll(E, F));
    assert pr.F.w == 0.0 && pr.U.w == 0.0 && pr.R.w == 0.0 && pr.W == V4.W;
  }

  /** The two ways of building a rotation from Euler angles disagree: with
      all three cosines 0 and all three sines 1, the closed form of
      `Rotation` has forward row (0, 0, 1) and `RotationInefficient` has
      (1, 0, 0). */
  lemma RotationsDiffer()
    ensures EulerRows(0.0, 1.0, 0.0, 1.0, 0.0, 1.0).F.x == 0.0
    ensures InefficientForward(0.0, 1.0, 0.0, 1.0, 0.0, 1.0).x == 1.0
    ensures V4.Narrow(Mul(Yaw(0.0, 1.0), Mul(Pitch(0.0, 1.0), Roll(0.0, 1.0))).F)
         != V4.Narrow(EulerRows(0.0, 1.0, 0.0, 1.0, 0.0, 1.0).F)
  {
    ComposedForward(0.0, 1.0, 0.0, 1.0, 0.0, 1.0);
  }

  // ---- TRS ----

  /** `TRS(t, angles, s)` = Translation(t) * (Rotation(angles) * Scale(s)).
      Its last row stays (0, 0, 0, 1). */
  function TRS(t: V3.Vec3, angles: V3.Vec3, s: V3.Vec3, cos: real -> real, sin: real -> real): (m: Matrix4D)
    requires IsTrig(cos, sin)
    ensures m.W == V4.W
  {
    var r := Rotation(angles, cos, sin);
    var rs := Mul(r, ScaleVector(s));
    MulKeepsLastRow(r, ScaleVector(s));
    MulKeepsLastRow(Translation(t), rs);
    Mul(Translation(t), rs)
  }

  /** When a has last column (0, 0, 0, 1), a * b keeps the last row
      (0, 0, 0, 1) of b. */
  lemma MulKeepsLastRow(a: Matrix4D, b: Matrix4D)
    requires a.F.w == 0.0 && a.U.w == 0.0 && a.R.w == 0.0 && a.W.w == 1.0 && b.W == V4.W
    ensures Mul(a, b).W == V4.W
  {
  }

  /** What TRS does to a vector: the transposed translation first, then the
      transposed rotation, then the scale. */
  lemma TRSApply(t: V3.Vec3, angles: V3.Vec3, s: V3.Vec3, cos: real -> real, sin: real -> real, v: V4.Vec4)
    requires IsTrig(cos, sin)
    ensures Apply(TRS(t, angles, s, cos, sin), v)
         == Apply(ScaleVector(s), Apply(Transpose(Rotation(angles, cos, sin)), Apply(Transpose(Translation(t)), v)))
  {
    var r := Rotation(angles, cos, sin);
    ApplyMul(Translation(t), Mul(r, ScaleVector(s)), v);
    ApplyMul(r, ScaleVector(s), Apply(Transpose(Translation(t)), v));
  }

  /** With no translation, zero angles and unit scale, TRS is the unit scale
      matrix, which is not Identity. */
  lemma TRSAtRest(cos: real -> real, sin: real -> real)
    requires IsTrig(cos, sin)
    ensures TRS(V3.Zero, V3.Zero, V3.One, cos, sin) == ScaleUniform(1.0) != Identity
  {
    var s := ScaleVector(V3.One);
    assert Translation(V3.Zero) == Identity;
    MulIdentity(s);
    MulIdentity(Mul(Identity, s));
    UnitScaleNotIdentity();
  }
}
