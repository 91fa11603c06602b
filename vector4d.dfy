/** Vector4D.cs: a 4D vector with mutable x, y, z, w fields, and the two
    conversions between Vector3D and Vector4D. The static operations are
    functions of component values (`Vec4`); the class `Vector4D` holds the
    methods that overwrite the fields. */
module Vector4DOps {
  import opened Maths
  import V3 = Vector3DOps

  /** The component quadruple of a 4D vector. */
  datatype Vec4 = Vec4(x: real, y: real, z: real, w: real)

  const Zero := Vec4(0.0, 0.0, 0.0, 0.0)
  const One := Vec4(1.0, 1.0, 1.0, 1.0)
  const X := Vec4(1.0, 0.0, 0.0, 0.0)
  const Y := Vec4(0.0, 1.0, 0.0, 0.0)
  const Z := Vec4(0.0, 0.0, 1.0, 0.0)
  const W := Vec4(0.0, 0.0, 0.0, 1.0)

  // ---- conversions ----

  /** `new Vector4D(a, w)`, whose w defaults to 1: the point a in
      homogeneous coordinates. */
  function FromVector3D(a: V3.Vec3, w: real := 1.0): (r: Vec4)
    ensures Narrow(r) == a && r.w == w
  {
    Vec4(a.x, a.y, a.z, w)
  }

  /** The implicit conversion from Vector3D to Vector4D, which sets w to 0
      (unlike the constructor's default of 1): a direction. */
  function Widen(v: V3.Vec3): (r: Vec4)
    ensures Narrow(r) == v && r.w == 0.0
  {
    Vec4(v.x, v.y, v.z, 0.0)
  }

  /** The implicit conversion from Vector4D to Vector3D (in Vector3D.cs),
      which drops w. */
  function Narrow(v: Vec4): (r: V3.Vec3)
    ensures r.x == v.x && r.y == v.y && r.z == v.z
  {
    V3.Vec3(v.x, v.y, v.z)
  }

  // ---- component-wise operators ----

  /** `a * b`: the component-wise product. */
  function MulComponents(a: Vec4, b: Vec4): Vec4 {
    Vec4(a.x * b.x, a.y * b.y, a.z * b.z, a.w * b.w)
  }

  /** `a * s` (and `s * a`, which is defined as `a * s`). */
  function MulScalar(a: Vec4, s: real): Vec4 {
    Vec4(a.x * s, a.y * s, a.z * s, a.w * s)
  }

  /** `a / b`. Float division by zero is not modelled, so no component of b is 0. */
  function DivComponents(a: Vec4, b: Vec4): (r: Vec4)
    requires b.x != 0.0 && b.y != 0.0 && b.z != 0.0 && b.w != 0.0
    ensures MulComponents(r, b) == a
  {
    Vec4(a.x / b.x, a.y / b.y, a.z / b.z, a.w / b.w)
  }

  /** `a / s`, for a non-zero s. */
  function DivScalar(a: Vec4, s: real): (r: Vec4)
    requires s != 0.0
    ensures MulScalar(r, s) == a
  {
    Vec4(a.x / s, a.y / s, a.z / s, a.w / s)
  }

  function Add(a: Vec4, b: Vec4): Vec4 {
    Vec4(a.x + b.x, a.y + b.y, a.z + b.z, a.w + b.w)
  }

  function Sub(a: Vec4, b: Vec4): Vec4 {
    Vec4(a.x - b.x, a.y - b.y, a.z - b.z, a.w - b.w)
  }

  // ---- vector operations ----

  function Dot(a: Vec4, b: Vec4): real {
    a.x * b.x + a.y * b.y + a.z * b.z + a.w * b.w
  }

  /** x*x + y*y + z*z + w*w, the radicand of Magnitude: never negative, and
      zero exactly for the zero vector. */
  function SqrMagnitude(v: Vec4): (r: real)
    ensures r >= 0.0
    ensures r == 0.0 <==> v == Zero
  {
    Square(v.x) + Square(v.y) + Square(v.z) + Square(v.w)
  }

  /** `Magnitude`, with MathF.Sqrt given as `sqrt`. */
  function Magnitude(v: Vec4, sqrt: real -> real): (r: real)
    requires IsSqrt(sqrt)
    ensures r >= 0.0 && Square(r) == SqrMagnitude(v)
    ensures r == 0.0 <==> v == Zero
  {
    SqrtZero(sqrt, SqrMagnitude(v));
    sqrt(SqrMagnitude(v))
  }

  /** `Normalise(a) = a / a.Magnitude` for a non-zero vector: a positive
      multiple of a of unit length. */
  function Normalise(a: Vec4, sqrt: real -> real): (r: Vec4)
    requires IsSqrt(sqrt) && a != Zero
    ensures SqrMagnitude(r) == 1.0
    ensures r == MulScalar(a, 1.0 / Magnitude(a, sqrt)) && 1.0 / Magnitude(a, sqrt) > 0.0
  {
    var m := Magnitude(a, sqrt);
    DivideByMagnitude(a, m);
    DivIsMulReciprocal(a, m);
    V3.ReciprocalPositive(m);
    DivScalar(a, m)
  }

  /** Tolerance of the component-wise comparison (the float literal 0.00001f). */
  const EqualsTolerance: real := 0.00001

  /** `Equals`: every component differs by less than the tolerance. */
  predicate Equals(a: Vec4, b: Vec4) {
    && Abs(a.x - b.x) < EqualsTolerance && Abs(a.y - b.y) < EqualsTolerance
    && Abs(a.z - b.z) < EqualsTolerance && Abs(a.w - b.w) < EqualsTolerance
  }

  // ---- helper facts ----

  /** The squared magnitude is the dot product of a vector with itself. */
  lemma SqrMagnitudeDot(v: Vec4)
    ensures SqrMagnitude(v) == Dot(v, v)
  {
  }

  lemma ScaledSqrMagnitude(v: Vec4, k: real)
    ensures SqrMagnitude(MulScalar(v, k)) == Square(k) * SqrMagnitude(v)
  {
    ScaledSquare(v.x, k);
    ScaledSquare(v.y, k);
    ScaledSquare(v.z, k);
    ScaledSquare(v.w, k);
    Distribute(Square(k), Square(v.x), Square(v.y), Square(v.z), Square(v.w));
  }

  lemma ScaledSquare(a: real, k: real)
    ensures Square(a * k) == Square(k) * Square(a)
  {
  }

  lemma Distribute(c: real, a: real, b: real, d: real, e: real)
    ensures c * (a + b + d + e) == c * a + c * b + c * d + c * e
  {
  }

  lemma DivIsMulReciprocal(a: Vec4, m: real)
    requires m != 0.0
    ensures DivScalar(a, m) == MulScalar(a, 1.0 / m)
  {
  }

  /** Dividing by the (positive) magnitude gives a unit vector. */
  lemma DivideByMagnitude(a: Vec4, m: real)
    requires m > 0.0 && Square(m) == SqrMagnitude(a)
    ensures SqrMagnitude(DivScalar(a, m)) == 1.0
  {
    UnitWhenScaledBack(DivScalar(a, m), a, m);
  }

  /** If m times r is a, and m is the length of a, then r has length 1. */
  lemma UnitWhenScaledBack(r: Vec4, a: Vec4, m: real)
    requires m > 0.0 && Square(m) == SqrMagnitude(a) && MulScalar(r, m) == a
    ensures SqrMagnitude(r) == 1.0
  {
    ScaledSqrMagnitude(r, m);
    assert Square(m) * SqrMagnitude(r) == SqrMagnitude(a);
    CancelFactor(Square(m), SqrMagnitude(r), SqrMagnitude(a));
  }

  // ---- properties ----

  /** Widening and narrowing: the 3D part survives both conversions, and a
      4D vector survives narrowing and widening exactly when its w is 0. */
  lemma WidenNarrow(u: Vec4)
    ensures Widen(Narrow(u)) == u <==> u.w == 0.0
    ensures FromVector3D(Narrow(u), u.w) == u
  {
  }

  /** The constructor with its default w and the implicit conversion give
      different vectors from the same Vector3D: a point and a direction. */
  lemma ConstructorVersusConversion(a: V3.Vec3)
    ensures FromVector3D(a) != Widen(a)
    ensures Sub(FromVector3D(a), Widen(a)) == W
  {
  }

  /** Dot products of widened vectors are the 3D dot products; with w = 1 the
      two extra ones add 1. */
  lemma DotWidened(a: V3.Vec3, b: V3.Vec3)
    ensures Dot(Widen(a), Widen(b)) == V3.Dot(a, b)
    ensures Dot(FromVector3D(a), FromVector3D(b)) == V3.Dot(a, b) + 1.0
  {
  }

  /** Narrowing commutes with addition and subtraction. */
  lemma NarrowAdditive(a: Vec4, b: Vec4)
    ensures Narrow(Add(a, b)) == V3.Add(Narrow(a), Narrow(b))
    ensures Narrow(Sub(a, b)) == V3.Sub(Narrow(a), Narrow(b))
  {
  }

  /** The dot product is linear in its second operand. */
  lemma DotLinear(u: Vec4, a: Vec4, b: Vec4, s: real)
    ensures Dot(u, Add(a, b)) == Dot(u, a) + Dot(u, b)
    ensures Dot(u, MulScalar(a, s)) == Dot(u, a) * s
    ensures Dot(u, Zero) == 0.0
  {
  }

  lemma DotSymmetric(a: Vec4, b: Vec4)
    ensures Dot(a, b) == Dot(b, a)
  {
  }

  /** X, Y, Z and W are an orthonormal basis, and v is the sum of its
      components along them. */
  lemma BasisOrthonormal(v: Vec4)
    ensures Dot(X, X) == 1.0 && Dot(Y, Y) == 1.0 && Dot(Z, Z) == 1.0 && Dot(W, W) == 1.0
    ensures Dot(X, Y) == 0.0 && Dot(X, Z) == 0.0 && Dot(X, W) == 0.0
    ensures Dot(Y, Z) == 0.0 && Dot(Y, W) == 0.0 && Dot(Z, W) == 0.0
    ensures v == Add(Add(MulScalar(X, Dot(v, X)), MulScalar(Y, Dot(v, Y))),
                     Add(MulScalar(Z, Dot(v, Z)), MulScalar(W, Dot(v, W))))
  {
    DotBasis(X);
    DotBasis(Y);
    DotBasis(Z);
    DotBasis(W);
    DotBasis(v);
    Decompose(v);
  }

  lemma Decompose(v: Vec4)
    ensures v == Add(Add(MulScalar(X, v.x), MulScalar(Y, v.y)), Add(MulScalar(Z, v.z), MulScalar(W, v.w)))
  {
  }

  /** The dot product with a basis vector picks out one component. */
  lemma DotBasis(v: Vec4)
    ensures Dot(v, X) == v.x && Dot(v, Y) == v.y && Dot(v, Z) == v.z && Dot(v, W) == v.w
  {
  }

  lemma SubAddCancel(a: Vec4, b: Vec4)
    ensures Sub(Add(a, b), b) == a && Add(Sub(a, b), b) == a
  {
  }

  lemma MulIdentities(v: Vec4)
    ensures MulComponents(v, One) == v && MulScalar(v, 1.0) == v && MulScalar(v, 0.0) == Zero
  {
  }

  lemma EqualsReflexive(a: Vec4)
    ensures Equals(a, a)
  {
  }

  lemma EqualsSymmetric(a: Vec4, b: Vec4)
    ensures Equals(a, b) <==> Equals(b, a)
  {
  }
}

/** The object side of Vector4D.cs: the fields, the constructors and the
    methods that overwrite the fields. */
module Vector4DClass {
  import opened Maths
  import V3 = Vector3DOps
  import Vector3DClass
  import opened Vector4DOps

  /** Mutable 4D vector object. */
  class Vector4D {
    var x: real
    var y: real
    var z: real
    var w: real

    /** The current components. */
    function Value(): Vec4
      reads this
    {
      Vec4(x, y, z, w)
    }

    constructor (x: real, y: real, z: real, w: real)
      ensures Value() == Vec4(x, y, z, w)
    {
      this.x, this.y, this.z, this.w := x, y, z, w;
    }

    /** Copy constructor. */
    constructor Copy(a: Vector4D)
      ensures Value() == a.Value()
    {
      this.x, this.y, this.z, this.w := a.x, a.y, a.z, a.w;
    }

    /** `new Vector4D(a, w)`, w defaulting to 1. */
    constructor FromVector3D(a: Vector3DClass.Vector3D, w: real := 1.0)
      ensures Value() == Vector4DOps.FromVector3D(a.Value(), w)
    {
      this.x, this.y, this.z, this.w := a.x, a.y, a.z, w;
    }

    /** The implicit conversion from a Vector3D, with w = 0. */
    constructor Widen(v: Vector3DClass.Vector3D)
      ensures Value() == Vector4DOps.Widen(v.Value())
    {
      this.x, this.y, this.z, this.w := v.x, v.y, v.z, 0.0;
    }

    /** Copies the components of `a` into this; `a` keeps its value (also when it is this). */
    method Set(a: Vector4D)
      modifies this
      ensures Value() == old(a.Value())
      ensures a.Value() == old(a.Value())
    {
      x := a.x;
      y := a.y;
      z := a.z;
      w := a.w;
    }

    /** `Normalise()`: replaces this by its normalised value, a unit vector. */
    method Normalise(sqrt: real -> real)
      requires IsSqrt(sqrt) && Value() != Vector4DOps.Zero
      modifies this
      ensures Value() == Vector4DOps.Normalise(old(Value()), sqrt)
      ensures SqrMagnitude(Value()) == 1.0
    {
      var n := Vector4DOps.Normalise(Value(), sqrt);
      var t := new Vector4D(n.x, n.y, n.z, n.w);
      Set(t);
    }
  }

  /** The implicit conversion from Vector4D to Vector3D: a new Vector3D
      holding x, y and z. */
  method ToVector3D(v: Vector4D) returns (r: Vector3DClass.Vector3D)
    ensures fresh(r) && r.Value() == Narrow(v.Value())
  {
    r := new Vector3DClass.Vector3D(v.x, v.y, v.z);
  }
}
