/** `Vector<T>`: the generic base of the array-backed vectors. It holds a
    fixed dimension n and a float array, and `Set` rebinds that array to the
    other vector's, so the two share storage from then on. The type
    parameter T is never used and is dropped. */
module VectorClass {

  class Vector {
    /** The dimension given to the constructor; it never changes. */
    const n: nat
    /** The component storage, which `Set` may replace by another
        vector's array. */
    var values: array<real>

    /** `Vector(n)`: a fresh array of n zeros. */
    constructor (n: nat)
      ensures this.n == n
      ensures fresh(values) && values.Length == n
      ensures forall i :: 0 <= i < values.Length ==> values[i] == 0.0
    {
      this.n := n;
      values := new real[n](_ => 0.0);
    }

    /** `Set(v)`: this vector now shares v's array. Nothing is copied, no
        array is written, v is untouched and n keeps its old value, so the
        length of values may differ from n afterwards. */
    method Set(v: Vector)
      modifies this
      ensures values == v.values
      ensures v.values == old(v.values) && values[..] == old(v.values[..])
    {
      values := v.values;
    }
  }

  /** After `a.Set(b)`, a write through b's array is seen through a: the
      two vectors are aliased, not copies. */
  method WriteAfterSet(a: Vector, b: Vector, x: real)
    requires b.values.Length > 0
    modifies a, b.values
    ensures a.values == b.values == old(b.values)
    ensures a.values.Length > 0 && a.values[0] == x
  {
    a.Set(b);
    b.values[0] := x;
  }

  /** A vector of dimension 2 set from one of dimension 3 keeps n = 2 but
      holds three values. */
  method SetChangesLength() returns (a: Vector)
    ensures a.n == 2 && a.values.Length == 3
    ensures a.values.Length != a.n
  {
    a := new Vector(2);
    var b := new Vector(3);
    a.Set(b);
  }
}
