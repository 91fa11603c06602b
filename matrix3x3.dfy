/** Matrix3x3.cs: the class Matrix3X3, a twin of Matrix3D over Vector3
    instead of Vector3D. Its rows F, U, R are get-only; the explicit
    constructor `new Matrix3X3(f, u, r)` is the datatype constructor. The
    Vector3 statics it calls are the same formulas as those of Vector3D, so
    the rows are computed by the functions of Vector3DOps. The source has no
    Identity for this class. */
module Matrix3X3Ops {
  import opened Maths
  import V = Vector3DOps
  import M3 = Matrix3DOps

  datatype Matrix3X3 = Matrix3X3(F: V.Vec3, U: V.Vec3, R: V.Vec3)

  /** `m * v` (declared in the second part of the partial class): each row
      dotted with v. */
  function Apply(m: Matrix3X3, v: V.Vec3): V.Vec3 {
    V.Vec3(V.Dot(m.F, v), V.Dot(m.U, v), V.Dot(m.R, v))
  }

  /** The same rows seen as a Matrix3D. */
  function AsMatrix3D(m: Matrix3X3): (r: M3.Matrix3D)
    ensures r.F == m.F && r.U == m.U && r.R == m.R
  {
    M3.Matrix3D(m.F, m.U, m.R)
  }

  /** `new Matrix3X3(f)`: F = f normalised, R = Cross(Y, F) normalised,
      U = Cross(F, R) normalised, as in Matrix3D; f must not be parallel to Y.
      The rows are orthonormal, F points along f and R is horizontal and
      points the same way as Cross(Y, F). */
  function FromForward(f: V.Vec3, sqrt: real -> real): (m: Matrix3X3)
    requires IsSqrt(sqrt) && (f.x != 0.0 || f.z != 0.0)
    ensures M3.Orthonormal(AsMatrix3D(m))
    ensures exists k :: k > 0.0 && m.F == V.MulScalar(f, k)
    ensures m.R.y == 0.0 && V.Dot(m.R, V.Cross(V.Y, m.F)) > 0.0
    ensures m.U == V.Cross(m.F, m.R)
  {
    var F := V.Normalise(f, sqrt);
    M3.ForwardNotVertical(f, sqrt);
    var R := V.Normalise(V.Cross(V.Y, F), sqrt);
    var b := M3.FromForward(f, sqrt);
    assert b.F == F && b.R == R;
    Matrix3X3(F, V.Normalise(V.Cross(F, R), sqrt), R)
  }

  /** `m * v` is the Matrix3D product of the same rows. */
  lemma ApplyAsMatrix3D(m: Matrix3X3, v: V.Vec3)
    ensures Apply(m, v) == M3.Apply(AsMatrix3D(m), v)
  {
  }

  /** `m * Zero = Zero`, and `m * (v * s) = (m * v) * s`. */
  lemma ApplyZeroAndScale(m: Matrix3X3, v: V.Vec3, s: real)
    ensures Apply(m, V.Zero) == V.Zero
    ensures Apply(m, V.MulScalar(v, s)) == V.MulScalar(Apply(m, v), s)
  {
    M3.ApplyLinear(AsMatrix3D(m), v, v, s);
  }

  /** With rows X, Y, Z (the Vector3 constants) `m * v = v`. */
  lemma ApplyBasis(v: V.Vec3)
    ensures Apply(Matrix3X3(V.X, V.Y, V.Z), v) == v
  {
    M3.ApplyIdentity(v);
  }
}
