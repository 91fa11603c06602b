/** Matrix3D.cs: a 3x3 matrix held as three rows F (forward), U (up) and
    R (right). The source keeps the rows as references to Vector3D objects
    that are never reassigned; the model holds their values. The explicit
    constructor `new Matrix3D(f, u, r)` is the datatype constructor, which
    stores f, u and r unchanged. */
module Matrix3DOps {
  import opened Maths
  import V = Vector3DOps

  datatype Matrix3D = Matrix3D(F: V.Vec3, U: V.Vec3, R: V.Vec3)

  /** `Identity`: the rows X, Y, Z. */
  const Identity := Matrix3D(V.X, V.Y, V.Z)

  /** `m * v`: each row dotted with v. */
  function Apply(m: Matrix3D, v: V.Vec3): V.Vec3 {
    V.Vec3(V.Dot(m.F, v), V.Dot(m.U, v), V.Dot(m.R, v))
  }

  /** Three rows of unit length that are pairwise orthogonal. */
  predicate Orthonormal(m: Matrix3D) {
    && V.SqrMagnitude(m.F) == 1.0 && V.SqrMagnitude(m.U) == 1.0 && V.SqrMagnitude(m.R) == 1.0
    && V.Dot(m.F, m.U) == 0.0 && V.Dot(m.F, m.R) == 0.0 && V.Dot(m.U, m.R) == 0.0
  }

  /** `new Matrix3D(f)`: the basis built from a forward vector, with
      F = f normalised, R = Cross(Y, F) normalised and U = Cross(F, R)
      normalised. Cross(Y, F) is zero when f is parallel to Y (then x and z
      are both zero) and normalising it would divide by zero, so f must have
      a non-zero x or z. The rows are orthonormal, F points along f, R is
      horizontal and points the same way as Cross(Y, F), and the last
      normalisation changes nothing, because the
      cross product of two orthogonal unit vectors is already a unit vector. */
  function FromForward(f: V.Vec3, sqrt: real -> real): (m: Matrix3D)
    requires IsSqrt(sqrt) && (f.x != 0.0 || f.z != 0.0)
    ensures Orthonormal(m)
    ensures exists k :: k > 0.0 && m.F == V.MulScalar(f, k)
    ensures m.R.y == 0.0 && V.Dot(m.R, V.Cross(V.Y, m.F)) > 0.0
    ensures m.U == V.Cross(m.F, m.R)
  {
    var F := V.Normalise(f, sqrt);
    ForwardNotVertical(f, sqrt);
    var c := V.Cross(V.Y, F);
    var R := V.Normalise(c, sqrt);
    NormalisedAlong(c, sqrt);
    V.ReciprocalPositive(V.Magnitude(c, sqrt));
    DotScaled(F, c, 1.0 / V.Magnitude(c, sqrt));
    UnitCross(F, R);
    NormaliseUnit(V.Cross(F, R), sqrt);
    V.DotSymmetric(R, V.Cross(F, R));
    Matrix3D(F, V.Normalise(V.Cross(F, R), sqrt), R)
  }

  // ---- helpers for FromForward ----

  /** Normalising keeps a non-zero x or z non-zero, so Cross(Y, F) is not zero. */
  lemma ForwardNotVertical(f: V.Vec3, sqrt: real -> real)
    requires IsSqrt(sqrt) && (f.x != 0.0 || f.z != 0.0)
    ensures V.Cross(V.Y, V.Normalise(f, sqrt)) != V.Zero
  {
    var F := V.Normalise(f, sqrt);
    var k := 1.0 / V.Magnitude(f, sqrt);
    V.ReciprocalPositive(V.Magnitude(f, sqrt));
    assert F.x == f.x * k && F.z == f.z * k;
    if f.x != 0.0 {
      NonZeroProduct(f.x, k);
    } else {
      NonZeroProduct(f.z, k);
    }
    CrossYNonZero(F);
  }

  lemma NonZeroProduct(a: real, k: real)
    requires a != 0.0 && k != 0.0
    ensures a * k != 0.0
  {
  }

  /** Cross(Y, v) = (v.z, 0, -v.x), which is zero only when v is parallel to Y. */
  lemma CrossYNonZero(v: V.Vec3)
    requires v.x != 0.0 || v.z != 0.0
    ensures V.Cross(V.Y, v) != V.Zero
  {
    var c := V.Cross(V.Y, v);
    assert c.x == v.z && c.z == -v.x;
  }

  /** A normalised non-zero vector points the same way as the vector. */
  lemma NormalisedAlong(c: V.Vec3, sqrt: real -> real)
    requires IsSqrt(sqrt) && c != V.Zero
    ensures V.Dot(V.Normalise(c, sqrt), c) > 0.0
  {
    var k := 1.0 / V.Magnitude(c, sqrt);
    V.DotSymmetric(V.Normalise(c, sqrt), c);
    DotScaled(c, c, k);
    V.SqrMagnitudeDot(c);
    ProductPositive(k, V.Dot(c, c));
  }

  /** Scaling the second operand scales the dot product. */
  lemma DotScaled(a: V.Vec3, b: V.Vec3, k: real)
    ensures V.Dot(a, V.MulScalar(b, k)) == k * V.Dot(a, b)
  {
  }

  /** The cross product of orthogonal unit vectors has unit length (by Lagrange's identity). */
  lemma UnitCross(a: V.Vec3, b: V.Vec3)
    requires V.SqrMagnitude(a) == 1.0 && V.SqrMagnitude(b) == 1.0 && V.Dot(a, b) == 0.0
    ensures V.SqrMagnitude(V.Cross(a, b)) == 1.0
  {
    V.Lagrange(a, b);
  }

  /** Normalising a unit vector returns it unchanged. */
  lemma NormaliseUnit(a: V.Vec3, sqrt: real -> real)
    requires IsSqrt(sqrt) && V.SqrMagnitude(a) == 1.0
    ensures a != V.Zero && V.Normalise(a, sqrt) == a
  {
    var m := V.Magnitude(a, sqrt);
    assert Square(1.0) == 1.0;
    if m < 1.0 {
      SquareStrictlyMonotone(m, 1.0);
    } else if m > 1.0 {
      SquareStrictlyMonotone(1.0, m);
    }
    assert m == 1.0;
  }

  // ---- properties of m * v ----

  /** `Identity * v = v`. */
  lemma ApplyIdentity(v: V.Vec3)
    ensures Apply(Identity, v) == v
  {
  }

  /** `m * Zero = Zero`. */
  lemma ApplyZero(m: Matrix3D)
    ensures Apply(m, V.Zero) == V.Zero
  {
  }

  /** `m * v` is linear: it distributes over + and commutes with scaling. */
  lemma ApplyLinear(m: Matrix3D, a: V.Vec3, b: V.Vec3, s: real)
    ensures Apply(m, V.Add(a, b)) == V.Add(Apply(m, a), Apply(m, b))
    ensures Apply(m, V.MulScalar(a, s)) == V.MulScalar(Apply(m, a), s)
  {
  }

  /** An orthonormal matrix maps its own rows onto X, Y and Z. */
  lemma ApplyOwnRows(m: Matrix3D)
    requires Orthonormal(m)
    ensures Apply(m, m.F) == V.X && Apply(m, m.U) == V.Y && Apply(m, m.R) == V.Z
  {
    V.SqrMagnitudeDot(m.F);
    V.SqrMagnitudeDot(m.U);
    V.SqrMagnitudeDot(m.R);
    V.DotSymmetric(m.F, m.U);
    V.DotSymmetric(m.F, m.R);
    V.DotSymmetric(m.U, m.R);
  }

  /** The basis built from a forward vector maps the normalised forward
      vector onto X. */
  lemma ForwardMapsToX(f: V.Vec3, sqrt: real -> real)
    requires IsSqrt(sqrt) && (f.x != 0.0 || f.z != 0.0)
    ensures Apply(FromForward(f, sqrt), V.Normalise(f, sqrt)) == V.X
  {
    ApplyOwnRows(FromForward(f, sqrt));
  }

  /** For a horizontal unit forward vector f the basis is (f, Y, Cross(Y, f)):
      no normalisation changes anything and U is the vertical axis. */
  lemma FromForwardHorizontal(f: V.Vec3, sqrt: real -> real)
    requires IsSqrt(sqrt) && V.SqrMagnitude(f) == 1.0 && f.y == 0.0
    requires f.x != 0.0 || f.z != 0.0
    ensures FromForward(f, sqrt) == Matrix3D(f, V.Y, V.Cross(V.Y, f))
  {
    NormaliseUnit(f, sqrt);
    HorizontalRight(f);
    NormaliseUnit(V.Cross(V.Y, f), sqrt);
    HorizontalUp(f);
    NormaliseY(sqrt);
  }

  lemma HorizontalRight(f: V.Vec3)
    requires V.SqrMagnitude(f) == 1.0 && f.y == 0.0
    ensures V.SqrMagnitude(V.Cross(V.Y, f)) == 1.0
  {
    var c := V.Cross(V.Y, f);
    assert c.x == f.z && c.y == 0.0 && c.z == -f.x;
    assert Square(-f.x) == Square(f.x);
  }

  lemma HorizontalUp(f: V.Vec3)
    requires V.SqrMagnitude(f) == 1.0 && f.y == 0.0
    ensures V.Cross(f, V.Cross(V.Y, f)) == V.Y
  {
    var c := V.Cross(V.Y, f);
    assert c.x == f.z && c.y == 0.0 && c.z == -f.x;
    var u := V.Cross(f, c);
    assert u.x == 0.0 && u.z == 0.0;
    assert u.y == Square(f.z) + Square(f.x);
  }

  /** The basis built from the X axis is not Identity: its right row is
      Cross(Y, X) = -Z, so the rows (F, U, R) form a left-handed frame. */
  lemma FromForwardX(sqrt: real -> real)
    requires IsSqrt(sqrt)
    ensures FromForward(V.X, sqrt) == Matrix3D(V.X, V.Y, MinusZ) != Identity
  {
    FromForwardXCase(V.X, sqrt);
  }

  lemma FromForwardXCase(f: V.Vec3, sqrt: real -> real)
    requires IsSqrt(sqrt) && f == V.X
    ensures FromForward(f, sqrt) == Matrix3D(V.X, V.Y, MinusZ)
  {
    UnitX();
    FromForwardHorizontal(f, sqrt);
    CrossYX();
  }

  lemma CrossYX()
    ensures V.Cross(V.Y, V.X) == MinusZ
  {
    var r := V.Cross(V.Y, V.X);
    assert r.x == 0.0 && r.y == 0.0 && r.z == -1.0;
  }

  const MinusZ := V.Vec3(0.0, 0.0, -1.0)

  lemma NormaliseY(sqrt: real -> real)
    requires IsSqrt(sqrt)
    ensures V.Normalise(V.Y, sqrt) == V.Y
  {
    UnitY();
    NormaliseUnit(V.Y, sqrt);
  }

  lemma UnitX()
    ensures V.SqrMagnitude(V.X) == 1.0
  {
    assert Square(1.0) == 1.0;
  }

  lemma UnitY()
    ensures V.SqrMagnitude(V.Y) == 1.0
  {
    assert Square(1.0) == 1.0;
  }
}
