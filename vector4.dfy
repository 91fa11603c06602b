/** Vector4.cs: a second 4D vector class. Its primary constructor takes x, y,
    z and w but never stores them (the auto-properties have no initialisers),
    so every Vector4 it builds is zero, whatever it is given. Every operator
    and every named constant builds its result through that constructor, so
    they all return the zero vector; only Set, which assigns the properties,
    copies values. */
module Vector4Class {
  import opened Maths
  import V4 = Vector4DOps
  import Vector3Class

  class Vector4 {
    var x: real
    var y: real
    var z: real
    var w: real

    /** The current components. */
    function Value(): V4.Vec4
      reads this
    {
      V4.Vec4(x, y, z, w)
    }

    /** `new Vector4(x, y, z, w)`: the arguments are dropped. */
    constructor (x: real, y: real, z: real, w: real)
      ensures Value() == V4.Zero
    {
      this.x, this.y, this.z, this.w := 0.0, 0.0, 0.0, 0.0;
    }

    /** The copy constructor chains to the primary one, so it also gives zero. */
    constructor Copy(a: Vector4)
      ensures Value() == V4.Zero
    {
      this.x, this.y, this.z, this.w := 0.0, 0.0, 0.0, 0.0;
    }

    /** `new Vector4(Vector3 a)` chains to the primary one too. */
    constructor FromVector3(a: Vector3Class.Vector3)
      ensures Value() == V4.Zero
    {
      this.x, this.y, this.z, this.w := 0.0, 0.0, 0.0, 0.0;
    }

    /** Copies the components of `a` into this; `a` keeps its value (also when it is this). */
    method Set(a: Vector4)
      modifies this
      ensures Value() == old(a.Value())
      ensures a.Value() == old(a.Value())
    {
      x := a.x;
      y := a.y;
      z := a.z;
      w := a.w;
    }

    /** `Normalise()`, which is `Set(Normalise(this))`: the quotient is built
        by the division operator, so this vector becomes zero, not a unit
        vector, and a zero vector is no error because the quotients are
        never stored. */
    method Normalise(sqrt: real -> real)
      requires IsSqrt(sqrt)
      modifies this
      ensures Value() == V4.Zero
    {
      var q := DivScalar(this, Magnitude(this, sqrt));
      Set(q);
    }
  }

  /** `Dot(a, b)`, computed from the properties. */
  function Dot(a: Vector4, b: Vector4): (r: real)
    reads a, b
    ensures r == V4.Dot(a.Value(), b.Value())
  {
    a.x * b.x + a.y * b.y + a.z * b.z + a.w * b.w
  }

  /** `Equals(a, b)`: every component differs by less than 0.00001. */
  predicate Equals(a: Vector4, b: Vector4)
    reads a, b
  {
    V4.Equals(a.Value(), b.Value())
  }

  /** `Magnitude`, with MathF.Sqrt given as `sqrt`. */
  function Magnitude(a: Vector4, sqrt: real -> real): (r: real)
    requires IsSqrt(sqrt)
    reads a
    ensures r >= 0.0 && (r == 0.0 <==> a.Value() == V4.Zero)
  {
    V4.Magnitude(a.Value(), sqrt)
  }

  /** `Normalise(a) = a / a.Magnitude`: zero, like every quotient. */
  method Normalise(a: Vector4, sqrt: real -> real) returns (r: Vector4)
    requires IsSqrt(sqrt)
    ensures fresh(r) && r.Value() == V4.Zero
  {
    r := DivScalar(a, Magnitude(a, sqrt));
  }

  lemma DotSymmetric(a: Vector4, b: Vector4)
    ensures Dot(a, b) == Dot(b, a)
  {
    V4.DotSymmetric(a.Value(), b.Value());
  }

  lemma EqualsReflexive(a: Vector4)
    ensures Equals(a, a)
  {
    V4.EqualsReflexive(a.Value());
  }

  lemma EqualsSymmetric(a: Vector4, b: Vector4)
    ensures Equals(a, b) <==> Equals(b, a)
  {
    V4.EqualsSymmetric(a.Value(), b.Value());
  }

  /** A freshly constructed Vector4 is orthogonal to everything, and holds
      the given components only when they were all zero. */
  method ConstructedIsZero(x: real, y: real, z: real, w: real, other: Vector4)
    returns (v: Vector4)
    ensures fresh(v) && v.Value() == V4.Zero
    ensures Dot(v, other) == 0.0
    ensures v.Value() == V4.Vec4(x, y, z, w) <==> x == 0.0 && y == 0.0 && z == 0.0 && w == 0.0
  {
    v := new Vector4(x, y, z, w);
  }

  // ---- operators and constants: each returns `new(...)`, hence zero ----

  /** `a * b`. */
  method MulComponents(a: Vector4, b: Vector4) returns (r: Vector4)
    ensures fresh(r) && r.Value() == V4.Zero
  {
    r := new Vector4(a.x * b.x, a.y * b.y, a.z * b.z, a.w * b.w);
  }

  /** `a * s` and `s * a`. */
  method MulScalar(a: Vector4, s: real) returns (r: Vector4)
    ensures fresh(r) && r.Value() == V4.Zero
  {
    r := new Vector4(a.x * s, a.y * s, a.z * s, a.w * s);
  }

  /** `a / b`; the quotients are never stored, so no component of b has to be non-zero. */
  method DivComponents(a: Vector4, b: Vector4) returns (r: Vector4)
    ensures fresh(r) && r.Value() == V4.Zero
  {
    r := new Vector4(0.0, 0.0, 0.0, 0.0);
  }

  /** `a / s`. */
  method DivScalar(a: Vector4, s: real) returns (r: Vector4)
    ensures fresh(r) && r.Value() == V4.Zero
  {
    r := new Vector4(0.0, 0.0, 0.0, 0.0);
  }

  /** `a + b`. */
  method Add(a: Vector4, b: Vector4) returns (r: Vector4)
    ensures fresh(r) && r.Value() == V4.Zero
  {
    r := new Vector4(a.x + b.x, a.y + b.y, a.z + b.z, a.w + b.w);
  }

  /** `a - b`. */
  method Sub(a: Vector4, b: Vector4) returns (r: Vector4)
    ensures fresh(r) && r.Value() == V4.Zero
  {
    r := new Vector4(a.x - b.x, a.y - b.y, a.z - b.z, a.w - b.w);
  }

  /** `Vector4.Zero`. */
  method Zero() returns (r: Vector4)
    ensures fresh(r) && r.Value() == V4.Zero
  {
    r := new Vector4(0.0, 0.0, 0.0, 0.0);
  }

  /** `Vector4.X`, built as new(1, 0, 0, 0). */
  method X() returns (r: Vector4)
    ensures fresh(r) && r.Value() == V4.Zero
  {
    r := new Vector4(1.0, 0.0, 0.0, 0.0);
  }

  /** `Vector4.Y`, built as new(0, 1, 0, 0). */
  method Y() returns (r: Vector4)
    ensures fresh(r) && r.Value() == V4.Zero
  {
    r := new Vector4(0.0, 1.0, 0.0, 0.0);
  }

  /** `Vector4.Z`, built as new(0, 0, 1, 0). */
  method Z() returns (r: Vector4)
    ensures fresh(r) && r.Value() == V4.Zero
  {
    r := new Vector4(0.0, 0.0, 1.0, 0.0);
  }

  /** `Vector4.One`, built as new(1, 1, 1, 1), is zero as well. */
  method One() returns (r: Vector4)
    ensures fresh(r) && r.Value() == V4.Zero
  {
    r := new Vector4(1.0, 1.0, 1.0, 1.0);
  }

  /** `Vector4.W`, built as new(0, 0, 0, 1): zero, so not a unit vector. */
  method W() returns (r: Vector4)
    ensures fresh(r) && r.Value() == V4.Zero && Dot(r, r) == 0.0
  {
    r := new Vector4(0.0, 0.0, 0.0, 1.0);
  }
}
