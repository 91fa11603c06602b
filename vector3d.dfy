/** Vector3D.cs: a 3D vector with mutable x, y, z fields. The static
    operations are pure functions of component values (`Vec3`); the methods
    that overwrite the fields belong to the class `Vector3D` below. The
    parallel class Vector3 (vector3.dfy) has the same static operations
    written out again, and uses these functions as well. */
module Vector3DOps {
  import opened Maths

  /** The component triple of a 3D vector. */
  datatype Vec3 = Vec3(x: real, y: real, z: real)

  const Zero := Vec3(0.0, 0.0, 0.0)
  const One := Vec3(1.0, 1.0, 1.0)
  const X := Vec3(1.0, 0.0, 0.0)
  const Y := Vec3(0.0, 1.0, 0.0)
  const Z := Vec3(0.0, 0.0, 1.0)

  // ---- component-wise operators ----

  /** `a * b`: the component-wise product. */
  function MulComponents(a: Vec3, b: Vec3): Vec3 {
    Vec3(a.x * b.x, a.y * b.y, a.z * b.z)
  }

  /** `v * s` (and `s * v`, which is defined as `v * s`). */
  function MulScalar(v: Vec3, s: real): Vec3 {
    Vec3(v.x * s, v.y * s, v.z * s)
  }

  /** `a / b`. Float division by zero is not modelled, so no component of b is 0. */
  function DivComponents(a: Vec3, b: Vec3): (r: Vec3)
    requires b.x != 0.0 && b.y != 0.0 && b.z != 0.0
    ensures MulComponents(r, b) == a
  {
    Vec3(a.x / b.x, a.y / b.y, a.z / b.z)
  }

  /** `a / s`, for a non-zero s. */
  function DivScalar(a: Vec3, s: real): (r: Vec3)
    requires s != 0.0
    ensures MulScalar(r, s) == a
  {
    Vec3(a.x / s, a.y / s, a.z / s)
  }

  function Add(a: Vec3, b: Vec3): Vec3 {
    Vec3(a.x + b.x, a.y + b.y, a.z + b.z)
  }

  function Sub(a: Vec3, b: Vec3): Vec3 {
    Vec3(a.x - b.x, a.y - b.y, a.z - b.z)
  }

  // ---- vector operations ----

  function Dot(a: Vec3, b: Vec3): real {
    (a.x * b.x) + (a.y * b.y) + (a.z * b.z)
  }

  /** The cross product is orthogonal to both operands. */
  function Cross(a: Vec3, b: Vec3): (r: Vec3)
    ensures Dot(a, r) == 0.0 && Dot(b, r) == 0.0
  {
    Vec3(a.y * b.z - a.z * b.y,
         a.z * b.x - a.x * b.z,
         a.x * b.y - a.y * b.x)
  }

  /** x*x + y*y + z*z: never negative, and zero exactly for the zero vector. */
  function SqrMagnitude(v: Vec3): (r: real)
    ensures r >= 0.0
    ensures r == 0.0 <==> v == Zero
  {
    Square(v.x) + Square(v.y) + Square(v.z)
  }

  /** `Magnitude`, with MathF.Sqrt given as `sqrt`: the non-negative root
      of the squared magnitude. */
  function Magnitude(v: Vec3, sqrt: real -> real): (r: real)
    requires IsSqrt(sqrt)
    ensures r >= 0.0 && Square(r) == SqrMagnitude(v)
    ensures r == 0.0 <==> v == Zero
  {
    SqrtZero(sqrt, SqrMagnitude(v));
    sqrt(SqrMagnitude(v))
  }

  /** `Distance`: the length of the difference, zero exactly when the two
      positions coincide. */
  function Distance(a: Vec3, b: Vec3, sqrt: real -> real): (r: real)
    requires IsSqrt(sqrt)
    ensures r >= 0.0 && Square(r) == SqrMagnitude(Sub(a, b))
    ensures r == 0.0 <==> a == b
  {
    var d := Sub(a, b);
    SqrtZero(sqrt, SqrMagnitude(d));
    sqrt(SqrMagnitude(d))
  }

  /** `DistanceSquared(a, b)`: the bounding volumes call it, but Vector3D.cs
      does not define it; it is the squared length of the difference, zero
      exactly when the two positions coincide. */
  function DistanceSquared(a: Vec3, b: Vec3): (r: real)
    ensures r >= 0.0 && (r == 0.0 <==> a == b)
  {
    SubIsZero(a, b);
    SqrMagnitude(Sub(a, b))
  }

  lemma SubIsZero(a: Vec3, b: Vec3)
    ensures Sub(a, b) == Zero <==> a == b
  {
    if Sub(a, b) == Zero {
      assert a.x == b.x && a.y == b.y && a.z == b.z;
    }
  }

  /** `Normalise(a) = a / a.Magnitude` for a non-zero vector: a positive
      multiple of `a` of unit length. */
  function Normalise(a: Vec3, sqrt: real -> real): (r: Vec3)
    requires IsSqrt(sqrt) && a != Zero
    ensures SqrMagnitude(r) == 1.0
    ensures exists k :: k > 0.0 && r == MulScalar(a, k)
    ensures r == MulScalar(a, 1.0 / Magnitude(a, sqrt))
  {
    var m := Magnitude(a, sqrt);
    DivideByMagnitude(a, m);
    DivIsMulReciprocal(a, m);
    ReciprocalPositive(m);
    DivScalar(a, m)
  }

  /** `ClampMagnitude(a, maxlength)`: a itself when it is no longer than
      maxlength, otherwise the multiple of a whose length is |maxlength|
      (pointing backwards when maxlength is negative). The zero vector with a
      negative bound would divide 0 by 0, which is not modelled. */
  function ClampMagnitude(a: Vec3, maxlength: real, sqrt: real -> real): (r: Vec3)
    requires IsSqrt(sqrt)
    requires a != Zero || maxlength >= 0.0
    ensures Magnitude(a, sqrt) <= maxlength ==> r == a
    ensures Magnitude(a, sqrt) > maxlength ==>
      SqrMagnitude(r) == Square(maxlength) && r == MulScalar(a, maxlength / Magnitude(a, sqrt))
  {
    if Magnitude(a, sqrt) > maxlength then
      ScaledUnit(a, maxlength, sqrt);
      MulScalar(Normalise(a, sqrt), maxlength)
    else
      a
  }

  /** `FromAngles(angles)` with x the pitch and y the yaw, MathF.Cos and
      MathF.Sin given as `cos` and `sin`. */
  function FromAngles(angles: Vec3, cos: real -> real, sin: real -> real): (r: Vec3)
    requires IsTrig(cos, sin)
    ensures SqrMagnitude(r) == 1.0
    ensures angles.x == 0.0 && angles.y == 0.0 ==> r == X
  {
    AnglesUnit(cos(angles.x), sin(angles.x), cos(angles.y), sin(angles.y));
    Vec3(cos(angles.y) * cos(angles.x), sin(angles.x), cos(angles.x) * sin(angles.y))
  }

  /** `FromAngles2D(roll)`: the unit vector at angle roll in the xy plane. */
  function FromAngles2D(roll: real, cos: real -> real, sin: real -> real): (r: Vec3)
    requires IsTrig(cos, sin)
    ensures SqrMagnitude(r) == 1.0 && r.z == 0.0
    ensures roll == 0.0 ==> r == X
  {
    assert cos(roll) * cos(roll) + sin(roll) * sin(roll) == 1.0;
    SqrMagnitudeDot(Vec3(cos(roll), sin(roll), 0.0));
    Vec3(cos(roll), sin(roll), 0.0)
  }

  /** `Lerp(a, b, t) = a + (b - a) * t`: a at t = 0 and b at t = 1. */
  function Lerp(a: Vec3, b: Vec3, t: real): (r: Vec3)
    ensures t == 0.0 ==> r == a
    ensures t == 1.0 ==> r == b
  {
    Add(a, MulScalar(Sub(b, a), t))
  }

  /** The comment above Midpoint says it is Lerp(a, b, 0.5). */
  function Midpoint(a: Vec3, b: Vec3): (r: Vec3)
    ensures r == Lerp(a, b, 0.5)
  {
    Add(a, MulScalar(Sub(b, a), 0.5))
  }

  /** The vector from a to b: adding it to a reaches b. */
  function Between(a: Vec3, b: Vec3): (r: Vec3)
    ensures Add(a, r) == b
  {
    Sub(b, a)
  }

  /** `a.To(other)`: the vector from a to other. */
  function To(a: Vec3, other: Vec3): (r: Vec3)
    ensures r == Between(a, other) && Add(a, r) == other
  {
    Between(a, other)
  }

  /** `a.From(other)`: the vector from other to a, which is a - other. */
  function From(a: Vec3, other: Vec3): (r: Vec3)
    ensures r == Sub(a, other) && Add(other, r) == a
  {
    Between(other, a)
  }

  /** Component-wise maximum: at least both operands, and equal to one of them. */
  function Max(a: Vec3, b: Vec3): (r: Vec3)
    ensures r.x >= a.x && r.x >= b.x && (r.x == a.x || r.x == b.x)
    ensures r.y >= a.y && r.y >= b.y && (r.y == a.y || r.y == b.y)
    ensures r.z >= a.z && r.z >= b.z && (r.z == a.z || r.z == b.z)
  {
    Vec3(if a.x >= b.x then a.x else b.x,
         if a.y >= b.y then a.y else b.y,
         if a.z >= b.z then a.z else b.z)
  }

  /** Component-wise minimum: at most both operands, and equal to one of them. */
  function Min(a: Vec3, b: Vec3): (r: Vec3)
    ensures r.x <= a.x && r.x <= b.x && (r.x == a.x || r.x == b.x)
    ensures r.y <= a.y && r.y <= b.y && (r.y == a.y || r.y == b.y)
    ensures r.z <= a.z && r.z <= b.z && (r.z == a.z || r.z == b.z)
  {
    Vec3(if a.x <= b.x then a.x else b.x,
         if a.y <= b.y then a.y else b.y,
         if a.z <= b.z then a.z else b.z)
  }

  /** `Project(a, b) = b * Dot(a, b)`: a multiple of b, not divided by |b|^2. */
  function Project(a: Vec3, b: Vec3): (r: Vec3)
    ensures Cross(r, b) == Zero
  {
    MulScalar(b, Dot(a, b))
  }

  /** Tolerance of the component-wise comparison (the float literal 0.00001f). */
  const EqualsTolerance: real := 0.00001

  /** `Equals` and `==`: every component differs by less than the tolerance;
      `!=` is its negation. */
  predicate Equals(a: Vec3, b: Vec3) {
    Abs(a.x - b.x) < EqualsTolerance && Abs(a.y - b.y) < EqualsTolerance && Abs(a.z - b.z) < EqualsTolerance
  }

  // ---- helper facts ----

  lemma ScaledSqrMagnitude(v: Vec3, k: real)
    ensures SqrMagnitude(MulScalar(v, k)) == Square(k) * SqrMagnitude(v)
  {
    ScaledSquare(v.x, k);
    ScaledSquare(v.y, k);
    ScaledSquare(v.z, k);
  }

  lemma ScaledSquare(a: real, k: real)
    ensures Square(a * k) == Square(k) * Square(a)
  {
  }

  lemma MulScalarTwice(v: Vec3, k: real, l: real)
    ensures MulScalar(MulScalar(v, k), l) == MulScalar(v, k * l)
  {
  }

  /** A unit vector along a, scaled by l, is a scaled by l / |a| and has
      squared length l*l. */
  lemma ScaledUnit(a: Vec3, l: real, sqrt: real -> real)
    requires IsSqrt(sqrt) && a != Zero
    ensures MulScalar(Normalise(a, sqrt), l) == MulScalar(a, l / Magnitude(a, sqrt))
    ensures SqrMagnitude(MulScalar(Normalise(a, sqrt), l)) == Square(l)
  {
    ScaledUnitDirection(a, Magnitude(a, sqrt), l);
    ScaledSqrMagnitude(Normalise(a, sqrt), l);
  }

  lemma ScaledUnitDirection(a: Vec3, m: real, l: real)
    requires m != 0.0
    ensures MulScalar(MulScalar(a, 1.0 / m), l) == MulScalar(a, l / m)
  {
    MulScalarTwice(a, 1.0 / m, l);
    assert (1.0 / m) * l == l / m;
  }

  /** cos(y)^2 cos(x)^2 + sin(x)^2 + cos(x)^2 sin(y)^2 = 1. */
  lemma AnglesUnit(cx: real, sx: real, cy: real, sy: real)
    requires Square(cx) + Square(sx) == 1.0 && Square(cy) + Square(sy) == 1.0
    ensures SqrMagnitude(Vec3(cy * cx, sx, cx * sy)) == 1.0
  {
    ScaledSquare(cy, cx);
    ScaledSquare(sy, cx);
    assert Square(cx) * Square(cy) + Square(cx) * Square(sy) == Square(cx) * (Square(cy) + Square(sy));
  }

  /** Dividing by the (positive) magnitude gives a unit vector. */
  lemma DivideByMagnitude(a: Vec3, m: real)
    requires m > 0.0 && Square(m) == SqrMagnitude(a)
    ensures SqrMagnitude(DivScalar(a, m)) == 1.0
  {
    UnitWhenScaledBack(DivScalar(a, m), a, m);
  }

  /** If m times r is a, and m is the length of a, then r has length 1. */
  lemma UnitWhenScaledBack(r: Vec3, a: Vec3, m: real)
    requires m > 0.0 && Square(m) == SqrMagnitude(a) && MulScalar(r, m) == a
    ensures SqrMagnitude(r) == 1.0
  {
    ScaledSqrMagnitude(r, m);
    assert Square(m) * SqrMagnitude(r) == SqrMagnitude(a);
    CancelFactor(Square(m), SqrMagnitude(r), SqrMagnitude(a));
  }

  lemma DivIsMulReciprocal(a: Vec3, m: real)
    requires m != 0.0
    ensures DivScalar(a, m) == MulScalar(a, 1.0 / m)
  {
  }

  lemma ReciprocalPositive(m: real)
    requires m > 0.0
    ensures 1.0 / m > 0.0
  {
  }

  // ---- properties ----

  /** The squared distance does not depend on the order of the points ... */
  lemma DistanceSquaredSymmetric(a: Vec3, b: Vec3)
    ensures DistanceSquared(a, b) == DistanceSquared(b, a)
  {
    assert Sub(b, a) == MulScalar(Sub(a, b), -1.0);
    ScaledSqrMagnitude(Sub(a, b), -1.0);
  }

  /** ... and it is the square of Distance. */
  lemma DistanceSquaredIsSquare(a: Vec3, b: Vec3, sqrt: real -> real)
    requires IsSqrt(sqrt)
    ensures DistanceSquared(a, b) == Square(Distance(a, b, sqrt))
  {
  }

  /** Moving both points by the same offset keeps their squared distance. */
  lemma DistanceSquaredTranslate(a: Vec3, b: Vec3, t: Vec3)
    ensures DistanceSquared(Add(a, t), Add(b, t)) == DistanceSquared(a, b)
  {
    assert Sub(Add(a, t), Add(b, t)) == Sub(a, b);
  }

  lemma DotSymmetric(a: Vec3, b: Vec3)
    ensures Dot(a, b) == Dot(b, a)
  {
  }

  lemma CrossAntiSymmetric(a: Vec3, b: Vec3)
    ensures Cross(a, b) == MulScalar(Cross(b, a), -1.0)
  {
  }

  lemma CrossSelfZero(a: Vec3)
    ensures Cross(a, a) == Zero
  {
  }

  /** Lagrange's identity: |a x b|^2 = |a|^2 |b|^2 - (a . b)^2. */
  lemma Lagrange(a: Vec3, b: Vec3)
    ensures SqrMagnitude(Cross(a, b)) == SqrMagnitude(a) * SqrMagnitude(b) - Dot(a, b) * Dot(a, b)
  {
    LagrangeDot(a, b);
    SqrMagnitudeDot(a);
    SqrMagnitudeDot(b);
    SqrMagnitudeDot(Cross(a, b));
  }

  lemma LagrangeDot(a: Vec3, b: Vec3)
    ensures Dot(Cross(a, b), Cross(a, b)) == Dot(a, a) * Dot(b, b) - Dot(a, b) * Dot(a, b)
  {
  }

  /** The squared magnitude is the dot product of a vector with itself. */
  lemma SqrMagnitudeDot(v: Vec3)
    ensures SqrMagnitude(v) == Dot(v, v)
  {
  }

  /** Cauchy-Schwarz, from Lagrange's identity. */
  lemma CauchySchwarz(a: Vec3, b: Vec3)
    ensures Dot(a, b) * Dot(a, b) <= SqrMagnitude(a) * SqrMagnitude(b)
  {
    Lagrange(a, b);
  }

  lemma MaxMinSymmetric(a: Vec3, b: Vec3)
    ensures Max(a, b) == Max(b, a) && Min(a, b) == Min(b, a)
  {
  }

  lemma MaxMinIdempotent(a: Vec3)
    ensures Max(a, a) == a && Min(a, a) == a
  {
  }

  lemma SubAddCancel(a: Vec3, b: Vec3)
    ensures Sub(Add(a, b), b) == a && Add(Sub(a, b), b) == a
  {
  }

  lemma MulIdentities(v: Vec3)
    ensures MulComponents(v, One) == v && MulScalar(v, 1.0) == v && MulScalar(v, 0.0) == Zero
  {
  }

  /** X, Y and Z are an orthonormal basis. */
  lemma BasisOrthonormal()
    ensures Dot(X, X) == 1.0 && Dot(Y, Y) == 1.0 && Dot(Z, Z) == 1.0
    ensures Dot(X, Y) == 0.0 && Dot(X, Z) == 0.0 && Dot(Y, Z) == 0.0
  {
    DotBasis(X);
    DotBasis(Y);
    DotBasis(Z);
  }

  /** The basis is right-handed: each axis is the cross product of the
      other two, in cyclic order. */
  lemma BasisRightHanded()
    ensures Cross(X, Y) == Z && Cross(Y, Z) == X && Cross(Z, X) == Y
  {
    CrossBasis(Y);
    CrossBasis(Z);
    CrossBasis(X);
  }

  /** The dot product with a basis vector picks out one component. */
  lemma DotBasis(v: Vec3)
    ensures Dot(v, X) == v.x && Dot(v, Y) == v.y && Dot(v, Z) == v.z
  {
  }

  lemma CrossBasis(v: Vec3)
    ensures Cross(X, v) == Vec3(0.0, -v.z, v.y)
    ensures Cross(Y, v) == Vec3(v.z, 0.0, -v.x)
    ensures Cross(Z, v) == Vec3(-v.y, v.x, 0.0)
  {
  }

  /** To and From are opposite vectors. */
  lemma ToFromOpposite(a: Vec3, b: Vec3)
    ensures To(a, b) == MulScalar(From(a, b), -1.0)
  {
  }

  /** Project does not divide by |b|^2: projecting X onto 2X gives 4X. */
  lemma ProjectNotNormalised()
    ensures Project(Vec3(1.0, 0.0, 0.0), Vec3(2.0, 0.0, 0.0)) == Vec3(4.0, 0.0, 0.0)
  {
  }

  /** Onto a unit vector b, Project is the orthogonal projection: what is
      left of a is orthogonal to b. */
  lemma ProjectOntoUnit(a: Vec3, b: Vec3)
    requires SqrMagnitude(b) == 1.0
    ensures Dot(Sub(a, Project(a, b)), b) == 0.0
  {
    assert Dot(Sub(a, Project(a, b)), b) == Dot(a, b) - Dot(a, b) * SqrMagnitude(b);
  }

  /** With a non-negative bound, the clamped vector is never longer than it. */
  lemma ClampMagnitudeBound(a: Vec3, maxlength: real, sqrt: real -> real)
    requires IsSqrt(sqrt) && maxlength >= 0.0
    ensures Magnitude(ClampMagnitude(a, maxlength, sqrt), sqrt) <= maxlength
  {
    var r := ClampMagnitude(a, maxlength, sqrt);
    if Magnitude(a, sqrt) > maxlength {
      SqrtAtMost(sqrt, SqrMagnitude(r), maxlength);
    }
  }

  /** Clamping twice to the same non-negative bound changes nothing more. */
  lemma ClampMagnitudeIdempotent(a: Vec3, maxlength: real, sqrt: real -> real)
    requires IsSqrt(sqrt) && maxlength >= 0.0
    ensures ClampMagnitude(ClampMagnitude(a, maxlength, sqrt), maxlength, sqrt) == ClampMagnitude(a, maxlength, sqrt)
  {
    ClampMagnitudeBound(a, maxlength, sqrt);
  }

  lemma EqualsReflexive(a: Vec3)
    ensures Equals(a, a)
  {
  }

  lemma EqualsSymmetric(a: Vec3, b: Vec3)
    ensures Equals(a, b) <==> Equals(b, a)
  {
  }

  /** The tolerance comparison is not transitive. */
  lemma EqualsNotTransitive()
    ensures Equals(Zero, Vec3(0.000006, 0.0, 0.0))
    ensures Equals(Vec3(0.000006, 0.0, 0.0), Vec3(0.000012, 0.0, 0.0))
    ensures !Equals(Zero, Vec3(0.000012, 0.0, 0.0))
  {
  }
}

/** The object side of Vector3D.cs: the fields and the methods that overwrite them. */
module Vector3DClass {
  import opened Maths
  import V = Vector3DOps

  /** Mutable 3D vector object. */
  class Vector3D {
    var x: real
    var y: real
    var z: real

    /** The current components. */
    function Value(): V.Vec3
      reads this
    {
      V.Vec3(x, y, z)
    }

    constructor (x: real, y: real, z: real)
      ensures Value() == V.Vec3(x, y, z)
    {
      this.x, this.y, this.z := x, y, z;
    }

    /** Copy constructor. */
    constructor Copy(a: Vector3D)
      ensures Value() == a.Value()
    {
      this.x, this.y, this.z := a.x, a.y, a.z;
    }

    /** Copies the components of `a` into this; `a` keeps its value (also when it is this). */
    method Set(a: Vector3D)
      modifies this
      ensures Value() == old(a.Value())
      ensures a.Value() == old(a.Value())
    {
      x := a.x;
      y := a.y;
      z := a.z;
    }

    /** `Set(Max(this, b))`. */
    method Maximise(b: Vector3D)
      modifies this
      ensures Value() == V.Max(old(Value()), old(b.Value()))
    {
      var m := V.Max(Value(), b.Value());
      var t := new Vector3D(m.x, m.y, m.z);
      Set(t);
    }

    /** `Set(Min(this, b))`. */
    method Minimise(b: Vector3D)
      modifies this
      ensures Value() == V.Min(old(Value()), old(b.Value()))
    {
      var m := V.Min(Value(), b.Value());
      var t := new Vector3D(m.x, m.y, m.z);
      Set(t);
    }

    /** `Normalise()`: replaces this by its normalised value, a unit vector. */
    method Normalise(sqrt: real -> real)
      requires IsSqrt(sqrt) && Value() != V.Zero
      modifies this
      ensures Value() == V.Normalise(old(Value()), sqrt)
      ensures V.SqrMagnitude(Value()) == 1.0
    {
      var n := V.Normalise(Value(), sqrt);
      var t := new Vector3D(n.x, n.y, n.z);
      Set(t);
    }

    /** `ClampMagnitude(maxlength)`: shortens this to at most maxlength. */
    method ClampMagnitude(maxlength: real, sqrt: real -> real)
      requires IsSqrt(sqrt) && (Value() != V.Zero || maxlength >= 0.0)
      modifies this
      ensures Value() == V.ClampMagnitude(old(Value()), maxlength, sqrt)
      ensures maxlength >= 0.0 ==> V.Magnitude(Value(), sqrt) <= maxlength
    {
      var c := V.ClampMagnitude(Value(), maxlength, sqrt);
      if maxlength >= 0.0 {
        V.ClampMagnitudeBound(Value(), maxlength, sqrt);
      }
      var t := new Vector3D(c.x, c.y, c.z);
      Set(t);
    }
  }
}
