/** Quaternion.cs: a quaternion w + xi + yj + zk. The class has public
    setters, but no operation of it changes a quaternion after construction,
    so it is modelled as a value. */
module QuaternionOps {
  import opened Maths
  import V = Vector3DOps

  datatype Quaternion = Quaternion(w: real, x: real, y: real, z: real)

  /** The identity quaternion 1 + 0i + 0j + 0k. */
  const One := Quaternion(1.0, 0.0, 0.0, 0.0)

  /** `new Quaternion(w, (x, y, z))`: real part and vector part. */
  function FromTuple(w: real, t: (real, real, real)): (q: Quaternion)
    ensures q.w == w && Vec(q) == V.Vec3(t.0, t.1, t.2)
  {
    Quaternion(w, t.0, t.1, t.2)
  }

  /** `new Quaternion(v, w = 0)`: the vector part v and real part w, a pure
      quaternion when w is left out. */
  function FromVector(v: V.Vec3, w: real := 0.0): Quaternion {
    Quaternion(w, v.x, v.y, v.z)
  }

  /** `v`: the vector part (x, y, z). */
  function Vec(q: Quaternion): (r: V.Vec3)
    ensures FromVector(r, q.w) == q
  {
    V.Vec3(q.x, q.y, q.z)
  }

  /** `Inverse`: keeps w and negates the vector part (the conjugate; it is
      the multiplicative inverse only for a unit quaternion). */
  function Inverse(q: Quaternion): (r: Quaternion)
    ensures r.w == q.w && Vec(r) == V.MulScalar(Vec(q), -1.0)
  {
    Quaternion(q.w, -q.x, -q.y, -q.z)
  }

  /** `a * b`, written with the vector parts: real part
      b.w a.w - b.v . a.v and vector part b.w a.v + a.w b.v + a.v x b.v. */
  function Mul(a: Quaternion, b: Quaternion): (r: Quaternion)
    ensures r == Hamilton(a, b)
  {
    var av := Vec(a);
    var bv := Vec(b);
    FromTuple(b.w * a.w - V.Dot(bv, av),
      T(V.Add(V.Add(V.MulScalar(av, b.w), V.MulScalar(bv, a.w)), V.Cross(av, bv))))
  }

  /** `Vector3D.Tuple`. */
  function T(v: V.Vec3): (real, real, real) {
    (v.x, v.y, v.z)
  }

  /** The Hamilton product written out on components: the reference the
      vector formula is checked against. */
  function Hamilton(a: Quaternion, b: Quaternion): Quaternion {
    Quaternion(
      a.w * b.w - a.x * b.x - a.y * b.y - a.z * b.z,
      a.w * b.x + a.x * b.w + a.y * b.z - a.z * b.y,
      a.w * b.y - a.x * b.z + a.y * b.w + a.z * b.x,
      a.w * b.z + a.x * b.y - a.y * b.x + a.z * b.w)
  }

  /** w^2 + x^2 + y^2 + z^2, the square of `Magnitude`. */
  function SqrMagnitude(q: Quaternion): (r: real)
    ensures r >= 0.0 && (r == 0.0 <==> q == Quaternion(0.0, 0.0, 0.0, 0.0))
  {
    Square(q.w) + Square(q.x) + Square(q.y) + Square(q.z)
  }

  // ---- properties ----

  /** Taking the inverse twice gives the quaternion back. */
  lemma InverseInvolution(q: Quaternion)
    ensures Inverse(Inverse(q)) == q
  {
  }

  /** One is a two-sided identity for `*`. */
  lemma MulIdentity(q: Quaternion)
    ensures Mul(One, q) == q && Mul(q, One) == q
  {
  }

  /** q * q.Inverse and q.Inverse * q are the real number |q|^2. */
  lemma MulInverse(q: Quaternion)
    ensures Mul(q, Inverse(q)) == Quaternion(SqrMagnitude(q), 0.0, 0.0, 0.0)
    ensures Mul(Inverse(q), q) == Quaternion(SqrMagnitude(q), 0.0, 0.0, 0.0)
  {
  }

  /** The inverse of a product is the product of the inverses in the
      opposite order. */
  lemma InverseOfProduct(a: Quaternion, b: Quaternion)
    ensures Inverse(Mul(a, b)) == Mul(Inverse(b), Inverse(a))
  {
  }

  /** `*` is associative. */
  lemma MulAssociative(a: Quaternion, b: Quaternion, c: Quaternion)
    ensures Mul(Mul(a, b), c) == Mul(a, Mul(b, c))
  {
    AssociativeW(a, b, c);
    AssociativeX(a, b, c);
    AssociativeY(a, b, c);
    AssociativeZ(a, b, c);
  }

  /** Component w of the associative law: both sides expand to the same polynomial. */
  lemma AssociativeW(a: Quaternion, b: Quaternion, c: Quaternion)
    ensures Hamilton(Hamilton(a, b), c).w == Hamilton(a, Hamilton(b, c)).w
  {
    ExpandLeftW(a, b, c);
    ExpandRightW(a, b, c);
    assert (a.w * b.w - a.x * b.x - a.y * b.y - a.z * b.z) * c.w - (a.w * b.x + a.x * b.w + a.y * b.z - a.z * b.y) * c.x - (a.w * b.y - a.x * b.z + a.y * b.w + a.z * b.x) * c.y - (a.w * b.z + a.x * b.y - a.y * b.x + a.z * b.w) * c.z
        == a.w * (b.w * c.w - b.x * c.x - b.y * c.y - b.z * c.z) - a.x * (b.w * c.x + b.x * c.w + b.y * c.z - b.z * c.y) - a.y * (b.w * c.y - b.x * c.z + b.y * c.w + b.z * c.x) - a.z * (b.w * c.z + b.x * c.y - b.y * c.x + b.z * c.w);
  }

  lemma ExpandLeftW(a: Quaternion, b: Quaternion, c: Quaternion)
    ensures Hamilton(Hamilton(a, b), c).w == (a.w * b.w - a.x * b.x - a.y * b.y - a.z * b.z) * c.w - (a.w * b.x + a.x * b.w + a.y * b.z - a.z * b.y) * c.x - (a.w * b.y - a.x * b.z + a.y * b.w + a.z * b.x) * c.y - (a.w * b.z + a.x * b.y - a.y * b.x + a.z * b.w) * c.z
  {
  }

  lemma ExpandRightW(a: Quaternion, b: Quaternion, c: Quaternion)
    ensures Hamilton(a, Hamilton(b, c)).w == a.w * (b.w * c.w - b.x * c.x - b.y * c.y - b.z * c.z) - a.x * (b.w * c.x + b.x * c.w + b.y * c.z - b.z * c.y) - a.y * (b.w * c.y - b.x * c.z + b.y * c.w + b.z * c.x) - a.z * (b.w * c.z + b.x * c.y - b.y * c.x + b.z * c.w)
  {
  }

  /** Component x of the associative law: both sides expand to the same polynomial. */
  lemma AssociativeX(a: Quaternion, b: Quaternion, c: Quaternion)
    ensures Hamilton(Hamilton(a, b), c).x == Hamilton(a, Hamilton(b, c)).x
  {
    ExpandLeftX(a, b, c);
    ExpandRightX(a, b, c);
    assert (a.w * b.w - a.x * b.x - a.y * b.y - a.z * b.z) * c.x + (a.w * b.x + a.x * b.w + a.y * b.z - a.z * b.y) * c.w + (a.w * b.y - a.x * b.z + a.y * b.w + a.z * b.x) * c.z - (a.w * b.z + a.x * b.y - a.y * b.x + a.z * b.w) * c.y
        == a.w * (b.w * c.x + b.x * c.w + b.y * c.z - b.z * c.y) + a.x * (b.w * c.w - b.x * c.x - b.y * c.y - b.z * c.z) + a.y * (b.w * c.z + b.x * c.y - b.y * c.x + b.z * c.w) - a.z * (b.w * c.y - b.x * c.z + b.y * c.w + b.z * c.x);
  }

  lemma ExpandLeftX(a: Quaternion, b: Quaternion, c: Quaternion)
    ensures Hamilton(Hamilton(a, b), c).x == (a.w * b.w - a.x * b.x - a.y * b.y - a.z * b.z) * c.x + (a.w * b.x + a.x * b.w + a.y * b.z - a.z * b.y) * c.w + (a.w * b.y - a.x * b.z + a.y * b.w + a.z * b.x) * c.z - (a.w * b.z + a.x * b.y - a.y * b.x + a.z * b.w) * c.y
  {
  }

  lemma ExpandRightX(a: Quaternion, b: Quaternion, c: Quaternion)
    ensures Hamilton(a, Hamilton(b, c)).x == a.w * (b.w * c.x + b.x * c.w + b.y * c.z - b.z * c.y) + a.x * (b.w * c.w - b.x * c.x - b.y * c.y - b.z * c.z) + a.y * (b.w * c.z + b.x * c.y - b.y * c.x + b.z * c.w) - a.z * (b.w * c.y - b.x * c.z + b.y * c.w + b.z * c.x)
  {
  }

  /** Component y of the associative law: both sides expand to the same polynomial. */
  lemma AssociativeY(a: Quaternion, b: Quaternion, c: Quaternion)
    ensures Hamilton(Hamilton(a, b), c).y == Hamilton(a, Hamilton(b, c)).y
  {
    ExpandLeftY(a, b, c);
    ExpandRightY(a, b, c);
    assert (a.w * b.w - a.x * b.x - a.y * b.y - a.z * b.z) * c.y - (a.w * b.x + a.x * b.w + a.y * b.z - a.z * b.y) * c.z + (a.w * b.y - a.x * b.z + a.y * b.w + a.z * b.x) * c.w + (a.w * b.z + a.x * b.y - a.y * b.x + a.z * b.w) * c.x
        == a.w * (b.w * c.y - b.x * c.z + b.y * c.w + b.z * c.x) - a.x * (b.w * c.z + b.x * c.y - b.y * c.x + b.z * c.w) + a.y * (b.w * c.w - b.x * c.x - b.y * c.y - b.z * c.z) + a.z * (b.w * c.x + b.x * c.w + b.y * c.z - b.z * c.y);
  }

  lemma ExpandLeftY(a: Quaternion, b: Quaternion, c: Quaternion)
    ensures Hamilton(Hamilton(a, b), c).y == (a.w * b.w - a.x * b.x - a.y * b.y - a.z * b.z) * c.y - (a.w * b.x + a.x * b.w + a.y * b.z - a.z * b.y) * c.z + (a.w * b.y - a.x * b.z + a.y * b.w + a.z * b.x) * c.w + (a.w * b.z + a.x * b.y - a.y * b.x + a.z * b.w) * c.x
  {
  }

  lemma ExpandRightY(a: Quaternion, b: Quaternion, c: Quaternion)
    ensures Hamilton(a, Hamilton(b, c)).y == a.w * (b.w * c.y - b.x * c.z + b.y * c.w + b.z * c.x) - a.x * (b.w * c.z + b.x * c.y - b.y * c.x + b.z * c.w) + a.y * (b.w * c.w - b.x * c.x - b.y * c.y - b.z * c.z) + a.z * (b.w * c.x + b.x * c.w + b.y * c.z - b.z * c.y)
  {
  }

  /** Component z of the associative law: both sides expand to the same polynomial. */
  lemma AssociativeZ(a: Quaternion, b: Quaternion, c: Quaternion)
    ensures Hamilton(Hamilton(a, b), c).z == Hamilton(a, Hamilton(b, c)).z
  {
    ExpandLeftZ(a, b, c);
    ExpandRightZ(a, b, c);
    assert (a.w * b.w - a.x * b.x - a.y * b.y - a.z * b.z) * c.z + (a.w * b.x + a.x * b.w + a.y * b.z - a.z * b.y) * c.y - (a.w * b.y - a.x * b.z + a.y * b.w + a.z * b.x) * c.x + (a.w * b.z + a.x * b.y - a.y * b.x + a.z * b.w) * c.w
        == a.w * (b.w * c.z + b.x * c.y - b.y * c.x + b.z * c.w) + a.x * (b.w * c.y - b.x * c.z + b.y * c.w + b.z * c.x) - a.y * (b.w * c.x + b.x * c.w + b.y * c.z - b.z * c.y) + a.z * (b.w * c.w - b.x * c.x - b.y * c.y - b.z * c.z);
  }

  lemma ExpandLeftZ(a: Quaternion, b: Quaternion, c: Quaternion)
    ensures Hamilton(Hamilton(a, b), c).z == (a.w * b.w - a.x * b.x - a.y * b.y - a.z * b.z) * c.z + (a.w * b.x + a.x * b.w + a.y * b.z - a.z * b.y) * c.y - (a.w * b.y - a.x * b.z + a.y * b.w + a.z * b.x) * c.x + (a.w * b.z + a.x * b.y - a.y * b.x + a.z * b.w) * c.w
  {
  }

  lemma ExpandRightZ(a: Quaternion, b: Quaternion, c: Quaternion)
    ensures Hamilton(a, Hamilton(b, c)).z == a.w * (b.w * c.z + b.x * c.y - b.y * c.x + b.z * c.w) + a.x * (b.w * c.y - b.x * c.z + b.y * c.w + b.z * c.x) - a.y * (b.w * c.x + b.x * c.w + b.y * c.z - b.z * c.y) + a.z * (b.w * c.w - b.x * c.x - b.y * c.y - b.z * c.z)
  {
  }

  /** `*` is not commutative: i * j = k but j * i = -k. */
  lemma MulNotCommutative()
    ensures Mul(Quaternion(0.0, 1.0, 0.0, 0.0), Quaternion(0.0, 0.0, 1.0, 0.0)) == Quaternion(0.0, 0.0, 0.0, 1.0)
    ensures Mul(Quaternion(0.0, 0.0, 1.0, 0.0), Quaternion(0.0, 1.0, 0.0, 0.0)) == Quaternion(0.0, 0.0, 0.0, -1.0)
  {
    var ij := Hamilton(Quaternion(0.0, 1.0, 0.0, 0.0), Quaternion(0.0, 0.0, 1.0, 0.0));
    assert ij.w == 0.0 && ij.x == 0.0 && ij.y == 0.0 && ij.z == 1.0;
    var ji := Hamilton(Quaternion(0.0, 0.0, 1.0, 0.0), Quaternion(0.0, 1.0, 0.0, 0.0));
    assert ji.w == 0.0 && ji.x == 0.0 && ji.y == 0.0 && ji.z == -1.0;
  }

  /** The vector part of `new Quaternion(v, w)` is v. */
  lemma VecFromVector(v: V.Vec3, w: real)
    ensures Vec(FromVector(v, w)) == v && FromVector(v, w).w == w
    ensures FromVector(v) == FromTuple(0.0, T(v))
  {
  }
}
