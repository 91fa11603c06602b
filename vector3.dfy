/** Vector3.cs: a second mutable 3D vector class. Its static operations are
    the same formulas as those of Vector3D, so they are the functions of
    Vector3DOps; what Vector3 adds is the static Scale (here) and the methods
    that act on this (Cross, Scale and Project in place, in Vector3Class). */
module Vector3Ops {
  import opened Maths
  import V = Vector3DOps

  /** `Scale(a, b)`, which wraps the component-wise `*`: each component of a
      is multiplied by the matching component of b. */
  function Scale(a: V.Vec3, b: V.Vec3): (r: V.Vec3)
    ensures r.x == a.x * b.x && r.y == a.y * b.y && r.z == a.z * b.z
  {
    V.MulComponents(a, b)
  }

  /** Scaling is commutative, and scaling by One changes nothing. */
  lemma ScaleCommutative(a: V.Vec3, b: V.Vec3)
    ensures Scale(a, b) == Scale(b, a)
    ensures Scale(a, V.One) == a
  {
  }

  /** Scaling by a uniform vector is multiplication by a scalar. */
  lemma ScaleUniform(a: V.Vec3, s: real)
    ensures Scale(a, V.Vec3(s, s, s)) == V.MulScalar(a, s)
  {
  }
}

/** The object side of Vector3.cs: the fields and the methods that overwrite them. */
module Vector3Class {
  import opened Maths
  import V = Vector3DOps
  import Vector3Ops

  /** Mutable 3D vector object. */
  class Vector3 {
    var x: real
    var y: real
    var z: real

    /** The current components. */
    function Value(): V.Vec3
      reads this
    {
      V.Vec3(x, y, z)
    }

    constructor (x: real, y: real, z: real)
      ensures Value() == V.Vec3(x, y, z)
    {
      this.x, this.y, this.z := x, y, z;
    }

    /** Copy constructor. */
    constructor Copy(a: Vector3)
      ensures Value() == a.Value()
    {
      this.x, this.y, this.z := a.x, a.y, a.z;
    }

    /** Copies the components of `a` into this; `a` keeps its value (also when it is this). */
    method Set(a: Vector3)
      modifies this
      ensures Value() == old(a.Value())
      ensures a.Value() == old(a.Value())
    {
      x := a.x;
      y := a.y;
      z := a.z;
    }

    /** `Normalise()`: replaces this by its normalised value, a unit vector. */
    method Normalise(sqrt: real -> real)
      requires IsSqrt(sqrt) && Value() != V.Zero
      modifies this
      ensures Value() == V.Normalise(old(Value()), sqrt)
      ensures V.SqrMagnitude(Value()) == 1.0
    {
      var n := V.Normalise(Value(), sqrt);
      var t := new Vector3(n.x, n.y, n.z);
      Set(t);
    }

    /** `Cross(other)`: replaces this by this x other, which is orthogonal to
        both old values, and zero when other is this. */
    method Cross(other: Vector3)
      modifies this
      ensures Value() == V.Cross(old(Value()), old(other.Value()))
      ensures V.Dot(old(Value()), Value()) == 0.0 && V.Dot(old(other.Value()), Value()) == 0.0
      ensures other == this ==> Value() == V.Zero
    {
      var c := V.Cross(Value(), other.Value());
      V.CrossSelfZero(Value());
      var t := new Vector3(c.x, c.y, c.z);
      Set(t);
    }

    /** `Scale(other)`: multiplies this component-wise by other. */
    method Scale(other: Vector3)
      modifies this
      ensures Value() == Vector3Ops.Scale(old(Value()), old(other.Value()))
    {
      var c := Vector3Ops.Scale(Value(), other.Value());
      var t := new Vector3(c.x, c.y, c.z);
      Set(t);
    }

    /** `ClampMagnitude(maxlength)`: shortens this to at most maxlength. */
    method ClampMagnitude(maxlength: real, sqrt: real -> real)
      requires IsSqrt(sqrt) && (Value() != V.Zero || maxlength >= 0.0)
      modifies this
      ensures Value() == V.ClampMagnitude(old(Value()), maxlength, sqrt)
      ensures maxlength >= 0.0 ==> V.Magnitude(Value(), sqrt) <= maxlength
    {
      var c := V.ClampMagnitude(Value(), maxlength, sqrt);
      if maxlength >= 0.0 {
        V.ClampMagnitudeBound(Value(), maxlength, sqrt);
      }
      var t := new Vector3(c.x, c.y, c.z);
      Set(t);
    }

    /** `Maximise(b)`: the component-wise maximum of this and b. */
    method Maximise(b: Vector3)
      modifies this
      ensures Value() == V.Max(old(Value()), old(b.Value()))
    {
      var m := V.Max(Value(), b.Value());
      var t := new Vector3(m.x, m.y, m.z);
      Set(t);
    }

    /** `Minimise(b)`: the component-wise minimum of this and b (the comment
        above Min says "largest", but Math.Min is taken). */
    method Minimise(b: Vector3)
      modifies this
      ensures Value() == V.Min(old(Value()), old(b.Value()))
    {
      var m := V.Min(Value(), b.Value());
      var t := new Vector3(m.x, m.y, m.z);
      Set(t);
    }

    /** `Project(b)`: replaces this by b * Dot(this, b), a multiple of b. */
    method Project(b: Vector3)
      modifies this
      ensures Value() == V.Project(old(Value()), old(b.Value()))
      ensures V.Cross(Value(), old(b.Value())) == V.Zero
    {
      var p := V.Project(Value(), b.Value());
      var t := new Vector3(p.x, p.y, p.z);
      Set(t);
    }
  }
}
