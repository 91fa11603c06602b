# CT5MEGA 3D maths, modelled in Dafny

CT5MEGA is a small C# library of 3D maths. It has four mutable vector classes:
`Vector3D`, `Vector3`, `Vector4D` and `Vector4`. It also has a generic
array-backed `Vector<T>`, the matrices `Matrix3D`, `Matrix3X3` and `Matrix4D`,
quaternions, bounding spheres and capsules, and a few scalar helpers in `Maths`.

This project models that code with every `float`/`double` idealised as a Dafny
`real`, and proves the properties the code and its comments promise.

- **Vector values.** Each vector class gets a datatype of component values
  (`Vec3`, `Vec4`). The static operations and operators are pure functions
  on those values. They live in `Vector3DOps`, `Vector3Ops` and
  `Vector4DOps`.
- **Vector objects.** The objects are Dafny classes with `x, y, z(, w)`
  fields: `Vector3DClass.Vector3D`, `Vector3Class.Vector3`,
  `Vector4DClass.Vector4D` and `Vector4Class.Vector4`. Each in-place method
  (`Set`, `Maximise`, `Minimise`, `Normalise`, `ClampMagnitude`, and the
  in-place `Cross`, `Scale`, `Project` of `Vector3`) is a `modifies this`
  method. Its postcondition gives the new value in terms of the old values.
- **`Vector4` drops its arguments.** Its primary constructor never stores the
  arguments: the auto-properties have no initialisers. So every operator and
  constant builds the zero vector, and so does `Normalise()`. The model states
  exactly that about each one.
- **`Vector<T>`.** `VectorClass.Vector` keeps its `array` of values. `Set`
  rebinds that field, so two objects share one array afterwards.
- **Matrices.** Matrices are datatypes of rows. Their products follow the
  code: `m * v` dots each row with `v`, and row i of `a * b` is `a * (row i
  of b)`. So `Identity * b == b`, but `a * Identity` is the transpose of `a`.
  Every `Matrix4D` row built from a `Vector3D` goes through
  `new Vector4D(v)` and so gets w = 1.
- **Square roots and trig.** `MathF.Sqrt`, `MathF.Cos` and `MathF.Sin` are
  function parameters. `Maths.IsSqrt` and `Maths.IsTrig` constrain them to
  what a real square root and a cosine/sine pair satisfy.
- **The capsule test.** `BoundingCapsule.SphereIntersect` divides 0 by 0 when
  its two cap centres coincide and neither dot-product test at
  BoundingCapsule.cs:15 and 19 is negative. The model carries that as a
  `Double` value that can be `NaN`, which compares false as in IEEE
  arithmetic.

`m * v` dots each row of m with v (Matrix4D.cs:34-38).

## Model

| member | source | states |
|---|---|---|
| Maths.Abs | CT5MEGA/Maths.cs:11 | `Math.Abs`: non-negative, and equal to v or -v |
| Maths.Round | CT5MEGA/Maths.cs:11-13 | `Math.Round`: an integer within one half of v that is even on a tie |
| Maths.RoundUnique | CT5MEGA/Maths.cs:11-13 | any integer within one half of v that is even on a tie is Round(v), so Round is banker's rounding |
| Maths.RoundInteger | CT5MEGA/Maths.cs:11-13 | rounding an integer gives it back |
| Maths.Clamp | CT5MEGA/Maths.cs:9-16 | the result is the value or its rounding, and lies within Tolerance of the value |
| Maths.ClampInteger | CT5MEGA/Maths.cs:11-13 | Clamp(n) = n for every integer n |
| Maths.ClampIdempotent | CT5MEGA/Maths.cs:9-16 | Clamp(Clamp(v)) = Clamp(v) |
| Maths.EqualReflexive | CT5MEGA/Maths.cs:18 | Equal(x, x) |
| Maths.EqualSymmetric | CT5MEGA/Maths.cs:18 | Equal(x, y) exactly when Equal(y, x) |
| Maths.Equal | CT5MEGA/Maths.cs:18 | `Math.Abs(x - y) < Tolerance`; EqualReflexive, EqualSymmetric and ToleranceValue state what it means |
| Maths.ToleranceValue | CT5MEGA/Maths.cs:5 | the float Tolerance is positive and below 1e-8: a difference of 1e-8 or more is never Equal, one of at most 0.99e-8 always is |
| Maths.SqrtZero | CT5MEGA/Vector3D.cs:49 | the square root is zero exactly at zero |
| Maths.SqrtAtMost | CT5MEGA/BoundingSphere.cs:16 | for k >= 0, sqrt(r) <= k exactly when r <= k^2 |
| Vector3DOps.MulComponents | CT5MEGA/Vector3D.cs:121-124 | `a * b`, the component-wise product; DivComponents undoes it and MulIdentities makes One its unit |
| Vector3DOps.MulScalar | CT5MEGA/Vector3D.cs:125-129 | `v * s` and `s * v`; DivScalar undoes it, and MulScalarTwice and ScaledSqrMagnitude state how it composes and scales length |
| Vector3DOps.Add | CT5MEGA/Vector3D.cs:140-143 | `a + b` component by component; SubAddCancel states that `-` undoes it |
| Vector3DOps.Sub | CT5MEGA/Vector3D.cs:145-148 | `a - b` component by component; SubAddCancel states that `+` undoes it and SubIsZero when it is Zero |
| Vector3DOps.Dot | CT5MEGA/Vector3D.cs:61-62 | the sum of the component products; DotSymmetric, SqrMagnitudeDot, CauchySchwarz and BasisOrthonormal state what it means |
| Vector3DOps.DivComponents | CT5MEGA/Vector3D.cs:131-134 | `a / b` undone by `* b` gives a back |
| Vector3DOps.DivScalar | CT5MEGA/Vector3D.cs:135-138 | `a / s` undone by `* s` gives a back |
| Vector3DOps.Cross | CT5MEGA/Vector3D.cs:79-82 | the cross product is orthogonal to both operands |
| Vector3DOps.SqrMagnitude | CT5MEGA/BoundingCapsule.cs:31 | x^2 + y^2 + z^2 is non-negative and zero exactly for Zero |
| Vector3DOps.Magnitude | CT5MEGA/Vector3D.cs:49 | the non-negative root of SqrMagnitude, zero exactly for Zero |
| Vector3DOps.Distance | CT5MEGA/Vector3D.cs:65-72 | the non-negative root of the squared difference, zero exactly when the points are equal |
| Vector3DOps.DistanceSquared | CT5MEGA/BoundingSphere.cs:13 | non-negative, and zero exactly when the points are equal |
| Vector3DOps.SubIsZero | CT5MEGA/Vector3D.cs:145-148 | a - b is Zero exactly when a = b |
| Vector3DOps.Normalise | CT5MEGA/Vector3D.cs:51-52 | for a non-zero a, a unit vector that is a positive multiple of a, namely a * (1 / Magnitude(a)) |
| Vector3DOps.ClampMagnitude | CT5MEGA/Vector3D.cs:85 | a when it is no longer than maxlength, else the unit vector along a times maxlength |
| Vector3DOps.FromAngles | CT5MEGA/Vector3D.cs:27-30 | a unit vector, equal to X when pitch and yaw are zero |
| Vector3DOps.FromAngles2D | CT5MEGA/Vector3D.cs:31-34 | a unit vector in the xy plane, equal to X at roll zero |
| Vector3DOps.Lerp | CT5MEGA/Vector3D.cs:91-92 | a at t = 0 and b at t = 1 |
| Vector3DOps.Midpoint | CT5MEGA/Vector3D.cs:88-89 | equals Lerp(a, b, 0.5), as the comment above it says |
| Vector3DOps.Between | CT5MEGA/Vector3D.cs:94-95 | the vector that takes a to b |
| Vector3DOps.To | CT5MEGA/Vector3D.cs:97 | equals Between(a, other) and takes a to other |
| Vector3DOps.From | CT5MEGA/Vector3D.cs:96 | equals a - other and takes other to a |
| Vector3DOps.Max | CT5MEGA/Vector3D.cs:99-103 | each component is at least both operands' and equals one of them |
| Vector3DOps.Min | CT5MEGA/Vector3D.cs:106-110 | each component is at most both operands' and equals one of them |
| Vector3DOps.Project | CT5MEGA/Vector3D.cs:113-114 | the result is parallel to b (its cross product with b is Zero) |
| Vector3DOps.ScaledSqrMagnitude | CT5MEGA/Vector3D.cs:125-129 | scaling by k multiplies the squared length by k^2 |
| Vector3DOps.MulScalarTwice | CT5MEGA/Vector3D.cs:125-129 | scaling by k then l is scaling by k l |
| Vector3DOps.ScaledUnit | CT5MEGA/Vector3D.cs:85 | the normalised a times l is a * (l / Magnitude(a)), of squared length l^2 |
| Vector3DOps.DivIsMulReciprocal | CT5MEGA/Vector3D.cs:135-138 | a / m = a * (1 / m) |
| Vector3DOps.DistanceSquaredSymmetric | CT5MEGA/BoundingSphere.cs:13 | DistanceSquared(a, b) = DistanceSquared(b, a) |
| Vector3DOps.DistanceSquaredIsSquare | CT5MEGA/Vector3D.cs:65-72 | DistanceSquared is the square of Distance |
| Vector3DOps.DistanceSquaredTranslate | CT5MEGA/BoundingSphere.cs:13 | moving both points by t keeps their squared distance |
| Vector3DOps.DotSymmetric | CT5MEGA/Vector3D.cs:61 | Dot(a, b) = Dot(b, a) |
| Vector3DOps.CrossAntiSymmetric | CT5MEGA/Vector3D.cs:79-82 | Cross(a, b) = -Cross(b, a) |
| Vector3DOps.CrossSelfZero | CT5MEGA/Vector3D.cs:79-82 | Cross(a, a) = Zero |
| Vector3DOps.Lagrange | CT5MEGA/Vector3D.cs:79-82 | Lagrange's identity for the cross product |
| Vector3DOps.SqrMagnitudeDot | CT5MEGA/Vector3D.cs:49 | the squared magnitude is Dot(v, v) |
| Vector3DOps.CauchySchwarz | CT5MEGA/Vector3D.cs:61 | Dot(a, b)^2 is at most the product of the squared lengths |
| Vector3DOps.MaxMinSymmetric | CT5MEGA/Vector3D.cs:100-110 | Max and Min do not depend on the order of their operands |
| Vector3DOps.MaxMinIdempotent | CT5MEGA/Vector3D.cs:100-110 | Max(a, a) = Min(a, a) = a |
| Vector3DOps.SubAddCancel | CT5MEGA/Vector3D.cs:140-148 | (a + b) - b = a and (a - b) + b = a |
| Vector3DOps.MulIdentities | CT5MEGA/Vector3D.cs:121-129 | a * One = a, a * 1 = a and a * 0 = Zero |
| Vector3DOps.ToFromOpposite | CT5MEGA/Vector3D.cs:96-97 | a.To(b) is the opposite of a.From(b) |
| Vector3DOps.ProjectNotNormalised | CT5MEGA/Vector3D.cs:114 | projecting X onto 2X gives 4X: Project does not divide by the squared length of b |
| Vector3DOps.ProjectOntoUnit | CT5MEGA/Vector3D.cs:114 | onto a unit b, what Project leaves over is orthogonal to b |
| Vector3DOps.ClampMagnitudeBound | CT5MEGA/Vector3D.cs:85 | for a non-negative bound the result is never longer than the bound |
| Vector3DOps.ClampMagnitudeIdempotent | CT5MEGA/Vector3D.cs:85 | clamping twice to the same bound changes nothing more |
| Vector3DOps.EqualsReflexive | CT5MEGA/Vector3D.cs:56-57 | Equals(a, a) |
| Vector3DOps.EqualsSymmetric | CT5MEGA/Vector3D.cs:56-57 | Equals(a, b) exactly when Equals(b, a) |
| Vector3DOps.EqualsNotTransitive | CT5MEGA/Vector3D.cs:56 | each component compares within 0.00001, so the comparison is not transitive |
| Vector3DOps.Equals | CT5MEGA/Vector3D.cs:56-58 | `Equals` and `==`: every component differs by less than 0.00001, and `!=` is its negation; EqualsReflexive, EqualsSymmetric and EqualsNotTransitive state what it means |
| Vector3DOps.BasisOrthonormal | CT5MEGA/Vector3D.cs:158-162 | the constants X, Y and Z are unit vectors and pairwise orthogonal |
| Vector3DOps.BasisRightHanded | CT5MEGA/Vector3D.cs:158-162 | Cross(X, Y) = Z, Cross(Y, Z) = X and Cross(Z, X) = Y |
| Vector3DClass.Vector3D.constructor | CT5MEGA/Vector3D.cs:6-10 | the new vector holds the given components |
| Vector3DClass.Vector3D.Copy | CT5MEGA/Vector3D.cs:13 | the copy has the value of a |
| Vector3DClass.Vector3D.Set | CT5MEGA/Vector3D.cs:19-24 | this takes a's old value and a keeps it, also when a is this |
| Vector3DClass.Vector3D.Maximise | CT5MEGA/Vector3D.cs:104 | this becomes Max of its old value and b's |
| Vector3DClass.Vector3D.Minimise | CT5MEGA/Vector3D.cs:111 | this becomes Min of its old value and b's |
| Vector3DClass.Vector3D.Normalise | CT5MEGA/Vector3D.cs:53 | this becomes the normalised old value, a unit vector |
| Vector3DClass.Vector3D.ClampMagnitude | CT5MEGA/Vector3D.cs:86 | this becomes the clamped old value, no longer than a non-negative maxlength |
| Vector3Ops.Scale | CT5MEGA/Vector3.cs:67-68 | the component-wise product |
| Vector3Ops.ScaleCommutative | CT5MEGA/Vector3.cs:68 | Scale(a, b) = Scale(b, a) and Scale(a, One) = a |
| Vector3Ops.ScaleUniform | CT5MEGA/Vector3.cs:68 | scaling by (s, s, s) is multiplication by s |
| Vector3Class.Vector3.constructor | CT5MEGA/Vector3.cs:3-7 | the new vector holds the given components |
| Vector3Class.Vector3.Copy | CT5MEGA/Vector3.cs:10 | the copy has the value of a |
| Vector3Class.Vector3.Set | CT5MEGA/Vector3.cs:13-18 | this takes a's old value and a keeps it |
| Vector3Class.Vector3.Normalise | CT5MEGA/Vector3.cs:32-34 | this becomes the normalised old value, a unit vector |
| Vector3Class.Vector3.Cross | CT5MEGA/Vector3.cs:64-65 | this becomes Cross(old this, other), orthogonal to both, and Zero when other is this |
| Vector3Class.Vector3.Scale | CT5MEGA/Vector3.cs:68-69 | this becomes the component-wise product of its old value and other's |
| Vector3Class.Vector3.ClampMagnitude | CT5MEGA/Vector3.cs:72-73 | this becomes the clamped old value, no longer than a non-negative maxlength |
| Vector3Class.Vector3.Maximise | CT5MEGA/Vector3.cs:87-88 | this becomes Max of its old value and b's |
| Vector3Class.Vector3.Minimise | CT5MEGA/Vector3.cs:90-92 | this becomes Min of its old value and b's, a true minimum although the comment says largest |
| Vector3Class.Vector3.Project | CT5MEGA/Vector3.cs:95-96 | this becomes Project(old this, b), a multiple of b |
| Vector4DOps.FromVector3D | CT5MEGA/Vector4D.cs:18-22 | keeps x, y, z and takes w, which defaults to 1 |
| Vector4DOps.Widen | CT5MEGA/Vector4D.cs:26-31 | keeps x, y, z and sets w to 0 |
| Vector4DOps.Narrow | CT5MEGA/Vector3D.cs:15-16 | keeps x, y, z |
| Vector4DOps.MulComponents | CT5MEGA/Vector4D.cs:68-72 | `a * b`, the component-wise product; DivComponents undoes it and MulIdentities makes One its unit |
| Vector4DOps.MulScalar | CT5MEGA/Vector4D.cs:73-78 | `a * s` and `s * a`; DivScalar undoes it and ScaledSqrMagnitude states how it scales length |
| Vector4DOps.Add | CT5MEGA/Vector4D.cs:91-95 | `a + b` component by component; SubAddCancel states that `-` undoes it and NarrowAdditive that narrowing commutes with it |
| Vector4DOps.Sub | CT5MEGA/Vector4D.cs:97-101 | `a - b` component by component; SubAddCancel states that `+` undoes it |
| Vector4DOps.Dot | CT5MEGA/Vector4D.cs:59 | the sum of the four component products; DotSymmetric, DotLinear, DotBasis and BasisOrthonormal state what it means |
| Vector4DOps.DivComponents | CT5MEGA/Vector4D.cs:80-84 | `a / b` undone by `* b` gives a back |
| Vector4DOps.DivScalar | CT5MEGA/Vector4D.cs:85-89 | `a / s` undone by `* s` gives a back |
| Vector4DOps.SqrMagnitude | CT5MEGA/Vector4D.cs:46 | the radicand of Magnitude is non-negative and zero exactly for Zero |
| Vector4DOps.Magnitude | CT5MEGA/Vector4D.cs:46 | the non-negative root of SqrMagnitude, zero exactly for Zero |
| Vector4DOps.Normalise | CT5MEGA/Vector4D.cs:48-49 | for a non-zero a, a unit vector a * (1 / Magnitude(a)) with a positive factor |
| Vector4DOps.SqrMagnitudeDot | CT5MEGA/Vector4D.cs:46-59 | the squared magnitude is Dot(v, v) |
| Vector4DOps.ScaledSqrMagnitude | CT5MEGA/Vector4D.cs:73-77 | scaling by k multiplies the squared length by k^2 |
| Vector4DOps.DivIsMulReciprocal | CT5MEGA/Vector4D.cs:85-89 | a / m = a * (1 / m) |
| Vector4DOps.WidenNarrow | CT5MEGA/Vector4D.cs:18-31 | narrowing then widening gives u back exactly when u.w = 0, and with u's own w the constructor always does |
| Vector4DOps.ConstructorVersusConversion | CT5MEGA/Vector4D.cs:18-31 | the constructor and the implicit conversion differ, by W exactly |
| Vector4DOps.DotWidened | CT5MEGA/Vector4D.cs:18-31 | widened vectors dot like the 3D vectors; with w = 1 the dot gains 1 |
| Vector4DOps.NarrowAdditive | CT5MEGA/Vector3D.cs:16 | narrowing commutes with + and - |
| Vector4DOps.DotLinear | CT5MEGA/Vector4D.cs:59 | Dot is linear in its second operand |
| Vector4DOps.DotSymmetric | CT5MEGA/Vector4D.cs:59 | Dot(a, b) = Dot(b, a) |
| Vector4DOps.BasisOrthonormal | CT5MEGA/Vector4D.cs:107-112 | X, Y, Z, W are orthonormal and every v is the sum of its components along them |
| Vector4DOps.Decompose | CT5MEGA/Vector4D.cs:107-112 | v = X v.x + Y v.y + Z v.z + W v.w |
| Vector4DOps.DotBasis | CT5MEGA/Vector4D.cs:59 | Dot with X, Y, Z or W picks out one component |
| Vector4DOps.SubAddCancel | CT5MEGA/Vector4D.cs:91-101 | (a + b) - b = a and (a - b) + b = a |
| Vector4DOps.MulIdentities | CT5MEGA/Vector4D.cs:68-77 | a * One = a, a * 1 = a and a * 0 = Zero |
| Vector4DOps.EqualsReflexive | CT5MEGA/Vector4D.cs:52-57 | Equals(a, a) |
| Vector4DOps.EqualsSymmetric | CT5MEGA/Vector4D.cs:52-57 | Equals(a, b) exactly when Equals(b, a) |
| Vector4DOps.Equals | CT5MEGA/Vector4D.cs:52-57 | every one of the four components differs by less than 0.00001; EqualsReflexive and EqualsSymmetric state what it means |
| Vector4DClass.Vector4D.constructor | CT5MEGA/Vector4D.cs:5-10 | the new vector holds the given components |
| Vector4DClass.Vector4D.Copy | CT5MEGA/Vector4D.cs:12-16 | the copy has the value of a |
| Vector4DClass.Vector4D.FromVector3D | CT5MEGA/Vector4D.cs:18-22 | the new vector is a's x, y, z with the given w, 1 by default |
| Vector4DClass.Vector4D.Widen | CT5MEGA/Vector4D.cs:26-31 | the new vector is v's x, y, z with w = 0 |
| Vector4DClass.Vector4D.Set | CT5MEGA/Vector4D.cs:33-39 | this takes all four of a's old components and a keeps them |
| Vector4DClass.Vector4D.Normalise | CT5MEGA/Vector4D.cs:50 | this becomes the normalised old value, a unit vector |
| Vector4DClass.ToVector3D | CT5MEGA/Vector3D.cs:15-16 | a new Vector3D holding v's x, y, z |
| Vector4Class.Vector4.constructor | CT5MEGA/Vector4.cs:3-8 | the new vector is zero, whatever the arguments |
| Vector4Class.Vector4.Copy | CT5MEGA/Vector4.cs:10 | the copy is zero, not a copy |
| Vector4Class.Vector4.FromVector3 | CT5MEGA/Vector4.cs:12 | the new vector is zero |
| Vector4Class.Vector4.Set | CT5MEGA/Vector4.cs:16-22 | this takes all four of a's old components and a keeps them |
| Vector4Class.Vector4.Normalise | CT5MEGA/Vector4.cs:32-33 | this becomes zero, because the quotient is built by the constructor |
| Vector4Class.Dot | CT5MEGA/Vector4.cs:42 | the four-component dot product of the current values |
| Vector4Class.Magnitude | CT5MEGA/Vector4.cs:29 | non-negative, and zero exactly for a zero vector |
| Vector4Class.Normalise | CT5MEGA/Vector4.cs:32 | a fresh zero vector |
| Vector4Class.DotSymmetric | CT5MEGA/Vector4.cs:42 | Dot(a, b) = Dot(b, a) |
| Vector4Class.Equals | CT5MEGA/Vector4.cs:35-40 | the four-component tolerance comparison of the current field values; EqualsReflexive and EqualsSymmetric state what it means |
| Vector4Class.EqualsReflexive | CT5MEGA/Vector4.cs:35-40 | Equals(a, a) |
| Vector4Class.EqualsSymmetric | CT5MEGA/Vector4.cs:35-40 | Equals(a, b) exactly when Equals(b, a) |
| Vector4Class.ConstructedIsZero | CT5MEGA/Vector4.cs:3-8 | a constructed vector is zero, orthogonal to everything, and holds its arguments only when they are all zero |
| Vector4Class.MulComponents | CT5MEGA/Vector4.cs:53 | `a * b` is a fresh zero vector |
| Vector4Class.MulScalar | CT5MEGA/Vector4.cs:54-55 | `a * s` is a fresh zero vector |
| Vector4Class.DivComponents | CT5MEGA/Vector4.cs:57 | `a / b` is a fresh zero vector |
| Vector4Class.DivScalar | CT5MEGA/Vector4.cs:58 | `a / s` is a fresh zero vector |
| Vector4Class.Add | CT5MEGA/Vector4.cs:60 | `a + b` is a fresh zero vector |
| Vector4Class.Sub | CT5MEGA/Vector4.cs:62 | `a - b` is a fresh zero vector |
| Vector4Class.Zero | CT5MEGA/Vector4.cs:68 | Zero is zero |
| Vector4Class.X | CT5MEGA/Vector4.cs:70 | X is zero |
| Vector4Class.Y | CT5MEGA/Vector4.cs:71 | Y is zero |
| Vector4Class.Z | CT5MEGA/Vector4.cs:72 | Z is zero |
| Vector4Class.One | CT5MEGA/Vector4.cs:69 | One is zero |
| Vector4Class.W | CT5MEGA/Vector4.cs:73 | W is zero, so it is not a unit vector |
| VectorClass.Vector.constructor | CT5MEGA/Vector.cs:3-6 | dimension n and a fresh array of n zeros |
| VectorClass.Vector.Set | CT5MEGA/Vector.cs:8-11 | this now shares v's array; that array and its contents are unchanged |
| VectorClass.WriteAfterSet | CT5MEGA/Vector.cs:8-11 | after a.Set(b), a write through b's array is seen through a |
| VectorClass.SetChangesLength | CT5MEGA/Vector.cs:5-11 | after Set, a vector of dimension 2 can hold three values |
| Matrix3DOps.FromForward | CT5MEGA/Matrix3D.cs:10-15 | orthonormal rows; F is a positive multiple of f, R is horizontal and points the same way as Cross(Y, F), and U = Cross(F, R) |
| Matrix3DOps.ForwardNotVertical | CT5MEGA/Matrix3D.cs:13 | for f not parallel to Y, Cross(Y, F) is not zero, so R can be normalised |
| Matrix3DOps.CrossYNonZero | CT5MEGA/Matrix3D.cs:13 | Cross(Y, v) is zero only for v parallel to Y |
| Matrix3DOps.UnitCross | CT5MEGA/Matrix3D.cs:14 | the cross product of orthogonal unit vectors is a unit vector |
| Matrix3DOps.NormaliseUnit | CT5MEGA/Matrix3D.cs:14 | normalising a unit vector returns it |
| Matrix3DOps.Apply | CT5MEGA/Matrix3D.cs:24 | `m * v`: the dot products of F, U and R with v; ApplyIdentity, ApplyZero, ApplyLinear and ApplyOwnRows state what it means |
| Matrix3DOps.ApplyIdentity | CT5MEGA/Matrix3D.cs:24-26 | Identity * v = v |
| Matrix3DOps.ApplyZero | CT5MEGA/Matrix3D.cs:24 | m * Zero = Zero |
| Matrix3DOps.ApplyLinear | CT5MEGA/Matrix3D.cs:24 | m * (a + b) = m a + m b and m * (a s) = (m a) s |
| Matrix3DOps.ApplyOwnRows | CT5MEGA/Matrix3D.cs:24 | an orthonormal matrix maps its rows onto X, Y, Z |
| Matrix3DOps.ForwardMapsToX | CT5MEGA/Matrix3D.cs:10-24 | the basis built from f maps the normalised f to X |
| Matrix3DOps.FromForwardHorizontal | CT5MEGA/Matrix3D.cs:10-15 | for a horizontal unit f the basis is (f, Y, Cross(Y, f)) |
| Matrix3DOps.FromForwardX | CT5MEGA/Matrix3D.cs:10-26 | the basis built from X is (X, Y, -Z), not Identity |
| Matrix3X3Ops.AsMatrix3D | CT5MEGA/Matrix3x3.cs:16-21 | the same three rows |
| Matrix3X3Ops.FromForward | CT5MEGA/Matrix3x3.cs:9-14 | orthonormal rows; F is a positive multiple of f, R is horizontal and points the same way as Cross(Y, F), and U = Cross(F, R) |
| Matrix3X3Ops.Apply | CT5MEGA/Matrix3x3.cs:26 | `m * v`: the dot products of F, U and R with v; ApplyAsMatrix3D, ApplyZeroAndScale and ApplyBasis state what it means |
| Matrix3X3Ops.ApplyAsMatrix3D | CT5MEGA/Matrix3x3.cs:26 | `m * v` is the Matrix3D product of the same rows |
| Matrix3X3Ops.ApplyZeroAndScale | CT5MEGA/Matrix3x3.cs:26 | m * Zero = Zero and m * (v s) = (m v) s |
| Matrix3X3Ops.ApplyBasis | CT5MEGA/Matrix3x3.cs:26 | with rows X, Y, Z, m * v = v |
| Matrix4DOps.FromVectors | CT5MEGA/Matrix4D.cs:22-26 | each row is the given 3D vector with w = 1 |
| Matrix4DOps.FromRows3D | CT5MEGA/Matrix4D.cs:19 | the three rows get w = 1 and the fourth row is W |
| Matrix4DOps.FromMatrix3D | CT5MEGA/Matrix4D.cs:16 | the rows of m with w = 1 and a fourth row W; narrowing gives m back |
| Matrix4DOps.FromForward | CT5MEGA/Matrix4D.cs:13 | the orthonormal basis of `new Matrix3D(f)` with w = 1 and a fourth row W |
| Matrix4DOps.Apply | CT5MEGA/Matrix4D.cs:34-38 | `m * v`: the dot products of F, U, R and W with v; ApplyIdentity, ApplyLinear and DotApply state what it means |
| Matrix4DOps.Mul | CT5MEGA/Matrix4D.cs:45-50 | `a * b`: row i of the product is a * (row i of b); ApplyMul, MulIdentity and MulNotAssociative state what it means |
| Matrix4DOps.ApplyIdentity | CT5MEGA/Matrix4D.cs:28-38 | Identity * v = v |
| Matrix4DOps.ApplyLinear | CT5MEGA/Matrix4D.cs:34-38 | m * v is linear in v |
| Matrix4DOps.MulIdentity | CT5MEGA/Matrix4D.cs:28-50 | Identity * b = b, while a * Identity is the transpose of a |
| Matrix4DOps.TransposeInvolution | CT5MEGA/Matrix4D.cs:45-50 | transposing twice gives m back |
| Matrix4DOps.DotApply | CT5MEGA/Matrix4D.cs:34-38 | Dot(m u, v) = Dot(u, transpose(m) v) |
| Matrix4DOps.TransposeApplyCombines | CT5MEGA/Matrix4D.cs:34-38 | the transpose applied to v is the sum of the rows weighted by v |
| Matrix4DOps.ApplyMul | CT5MEGA/Matrix4D.cs:45-50 | (a * b) v = b (transpose(a) v) |
| Matrix4DOps.MulNotAssociative | CT5MEGA/Matrix4D.cs:45-50 | the product is not associative |
| Matrix4DOps.MulIdentityEntry | CT5MEGA/Matrix4D.cs:45-50 | (a * Identity).F.x = a.F.x |
| Matrix4DOps.Scale | CT5MEGA/Matrix4D.cs:52-55 | rows (sx,0,0,1), (0,sy,0,1), (0,0,sz,1) and W |
| Matrix4DOps.ScaleVector | CT5MEGA/Matrix4D.cs:57-61 | Scale(s) = Scale(s.x, s.y, s.z) |
| Matrix4DOps.ScaleUniform | CT5MEGA/Matrix4D.cs:63-67 | Scale(s) = Scale(s, s, s) = Scale((s, s, s)) |
| Matrix4DOps.ScaleApply | CT5MEGA/Matrix4D.cs:52-55 | a scale matrix adds v.w to each scaled component, and scales a vector with w = 0 |
| Matrix4DOps.UnitScaleNotIdentity | CT5MEGA/Matrix4D.cs:63-67 | Scale(1) is not Identity and maps W to One |
| Matrix4DOps.Translation | CT5MEGA/Matrix4D.cs:69-73 | rows X, Y, Z and (t, 1) |
| Matrix4DOps.TranslationApply | CT5MEGA/Matrix4D.cs:69-73 | Translation(t) * v keeps v.x, v.y, v.z and only changes w |
| Matrix4DOps.TranslationTransposeApply | CT5MEGA/Matrix4D.cs:69-73 | its transpose moves a point by t and leaves a direction alone |
| Matrix4DOps.Rotation | CT5MEGA/Matrix4D.cs:77-99 | a rotation (orthonormal 3D rows with w = 0, fourth row W); Identity for zero angles |
| Matrix4DOps.EulerRows | CT5MEGA/Matrix4D.cs:90-98 | the closed-form rows of `Rotation` in terms of the six cosines and sines; EulerRowsZero, EulerOrthonormal and NarrowEulerRows state what it means |
| Matrix4DOps.EulerRowsZero | CT5MEGA/Matrix4D.cs:93-98 | with all angles zero the closed form is Identity |
| Matrix4DOps.EulerOrthonormal | CT5MEGA/Matrix4D.cs:93-98 | the closed form is a rotation whenever each cos/sin pair is on the unit circle |
| Matrix4DOps.NarrowEulerRows | CT5MEGA/Matrix4D.cs:94-97 | the rows of the closed form, entry by entry |
| Matrix4DOps.RotationQuaternion | CT5MEGA/Matrix4D.cs:102-126 | rows with w = 0, fourth row W, and F's third entry exactly 2xz + yw |
| Matrix4DOps.RotationQuaternionCorrected | CT5MEGA/Matrix4D.cs:121 | the same matrix with F's third entry 2(xz + yw) |
| Matrix4DOps.RotationQuaternionCorrectedIsRotation | CT5MEGA/Matrix4D.cs:102-126 | for a unit quaternion the corrected matrix is a rotation |
| Matrix4DOps.RotationQuaternionTypo | CT5MEGA/Matrix4D.cs:121 | the two matrices differ by yw in one entry, so they agree exactly when yw = 0 |
| Matrix4DOps.RotationQuaternionOne | CT5MEGA/Matrix4D.cs:102-126 | the quaternion (1, 0, 0, 0) gives Identity as written |
| Matrix4DOps.RotationQuaternionCorrectedOne | CT5MEGA/Matrix4D.cs:102-126 | and corrected |
| Matrix4DOps.RotationQuaternionNotRotation | CT5MEGA/Matrix4D.cs:121 | for the unit quaternion (1/2, 1/2, 1/2, 1/2) the matrix as written is not a rotation; the corrected one is |
| Matrix4DOps.QuaternionOrthonormal | CT5MEGA/Matrix4D.cs:121-123 | the corrected rows are orthonormal for a unit quaternion |
| Matrix4DOps.RotationInefficient | CT5MEGA/Matrix4D.cs:128-149 | yaw * (pitch * roll): its forward row in the six cos/sin values, w = 0 rows and fourth row W |
| Matrix4DOps.Roll | CT5MEGA/Matrix4D.cs:130-134 | the roll factor of `RotationInefficient`; ComposedForward and RotationsDiffer state what the product of the three factors is |
| Matrix4DOps.Pitch | CT5MEGA/Matrix4D.cs:136-140 | the pitch factor of `RotationInefficient`; ComposedForward and RotationsDiffer state what the product is |
| Matrix4DOps.Yaw | CT5MEGA/Matrix4D.cs:142-146 | the yaw factor of `RotationInefficient`; ComposedForward and RotationsDiffer state what the product is |
| Matrix4DOps.ComposedForward | CT5MEGA/Matrix4D.cs:130-148 | the forward row of yaw * (pitch * roll) |
| Matrix4DOps.RotationsDiffer | CT5MEGA/Matrix4D.cs:94-148 | the closed form and the composed matrices disagree at the angles with every cos 0 and sin 1 |
| Matrix4DOps.TRS | CT5MEGA/Matrix4D.cs:151 | Translation(t) * (Rotation(e) * Scale(s)), whose last row is W |
| Matrix4DOps.MulKeepsLastRow | CT5MEGA/Matrix4D.cs:45-50 | when a's last column is (0,0,0,1) and b's last row is W, a * b has last row W |
| Matrix4DOps.TRSApply | CT5MEGA/Matrix4D.cs:151 | what TRS does to a vector, factor by factor |
| Matrix4DOps.TRSAtRest | CT5MEGA/Matrix4D.cs:151 | with no translation, zero angles and unit scale, TRS is Scale(1), not Identity |
| QuaternionOps.FromTuple | CT5MEGA/Quaternion.cs:26-32 | stores w and the tuple as the vector part |
| QuaternionOps.Vec | CT5MEGA/Quaternion.cs:16 | the vector part, from which `new Quaternion(v, w)` rebuilds q |
| QuaternionOps.Inverse | CT5MEGA/Quaternion.cs:19 | keeps w and negates the vector part |
| QuaternionOps.Mul | CT5MEGA/Quaternion.cs:127 | the vector-part formula equals the Hamilton product on components |
| QuaternionOps.SqrMagnitude | CT5MEGA/Quaternion.cs:21 | non-negative, and zero exactly for the zero quaternion |
| QuaternionOps.InverseInvolution | CT5MEGA/Quaternion.cs:19 | q.Inverse.Inverse = q |
| QuaternionOps.MulIdentity | CT5MEGA/Quaternion.cs:127 | (1, (0, 0, 0)) is a two-sided identity |
| QuaternionOps.MulInverse | CT5MEGA/Quaternion.cs:19-21 | q * q.Inverse = q.Inverse * q = (w^2 + x^2 + y^2 + z^2, 0) |
| QuaternionOps.InverseOfProduct | CT5MEGA/Quaternion.cs:127 | (a * b).Inverse = b.Inverse * a.Inverse |
| QuaternionOps.Hamilton | CT5MEGA/Quaternion.cs:127 | the Hamilton product written out on components, the independent reference that Mul is proved equal to; MulAssociative and MulNotCommutative state its laws |
| QuaternionOps.MulAssociative | CT5MEGA/Quaternion.cs:127 | `*` is associative |
| QuaternionOps.MulNotCommutative | CT5MEGA/Quaternion.cs:127 | i * j = k but j * i = -k |
| QuaternionOps.FromVector | CT5MEGA/Quaternion.cs:112-118 | `new Quaternion(v, w = 0)`; VecFromVector and Vec state that it stores v and w |
| QuaternionOps.VecFromVector | CT5MEGA/Quaternion.cs:112-118 | `new Quaternion(v, w)` has vector part v and real part w, and with w = 0 equals the tuple constructor |
| BoundingSphereOps.SphereIntersection | CT5MEGA/BoundingSphere.cs:10-14 | the squared distance of the centres is at most the square of the summed radii; SphereIntersectionDistance and SphereIntersectionSymmetric state what it means |
| BoundingSphereOps.Contains | CT5MEGA/BoundingSphere.cs:16 | the distance of the centres plus the inner radius is at most the outer radius; ContainsSelf and ContainsImpliesIntersects state what it means |
| BoundingSphereOps.SphereIntersectionDistance | CT5MEGA/BoundingSphere.cs:10-14 | for radii with a non-negative sum, the squared test holds exactly when the centres are no further apart than the radii |
| BoundingSphereOps.SphereIntersectionSymmetric | CT5MEGA/BoundingSphere.cs:10-14 | the test does not depend on the order of the spheres |
| BoundingSphereOps.SameCentreIntersect | CT5MEGA/BoundingSphere.cs:13 | spheres with the same centre always intersect |
| BoundingSphereOps.UnitSpheresOverlap | CT5MEGA/BoundingSphere.cs:13 | unit spheres 1.5 apart intersect |
| BoundingSphereOps.UnitSpheresApart | CT5MEGA/BoundingSphere.cs:13 | unit spheres 3 apart do not |
| BoundingSphereOps.ContainsSelf | CT5MEGA/BoundingSphere.cs:16 | every sphere contains itself |
| BoundingSphereOps.ContainsImpliesIntersects | CT5MEGA/BoundingSphere.cs:13-16 | a contained sphere of non-negative radius intersects its container |
| BoundingCapsuleOps.SphereIntersect | CT5MEGA/BoundingCapsule.cs:11-36 | the branch distance of lines 15-31 is a number at most the square of the summed radii, so a NaN distance rejects; LineBranchTaken and SphereIntersectOriginDependent state what it means |
| BoundingCapsuleOps.ParallelCapsuleIntersect | CT5MEGA/BoundingCapsule.cs:39-50 | SphereIntersect with the sphere around the nearer cap centre of other; ParallelCapsuleIntersectNearest states which centre is used |
| BoundingCapsuleOps.SphereIntersectCorrected | CT5MEGA/BoundingCapsule.cs:11-36 | the corrected test: the distance to the segment against the summed radii; SphereIntersectCorrectedMeaning and SphereIntersectCorrectedTranslate state what it means |
| BoundingCapsuleOps.SphereDistanceSquared | CT5MEGA/BoundingCapsule.cs:13-32 | the branch taken for each sign of Dot(Centre1, c) and Dot(Centre2, c); NaN exactly when the last branch divides 0 by 0; never negative otherwise |
| BoundingCapsuleOps.LineBranch | CT5MEGA/BoundingCapsule.cs:25-31 | NaN exactly when the cap centres coincide, otherwise non-negative |
| BoundingCapsuleOps.LineDistanceSquared | CT5MEGA/BoundingCapsule.cs:31 | never negative (Cauchy-Schwarz) |
| BoundingCapsuleOps.LineDistanceNonNegative | CT5MEGA/BoundingCapsule.cs:31 | \|AC\|^2 - (AB.AC)^2 / \|AB\|^2 >= 0 |
| BoundingCapsuleOps.DistinctCentres | CT5MEGA/BoundingCapsule.cs:25-31 | distinct cap centres give AB a positive squared length |
| BoundingCapsuleOps.Translate | CT5MEGA/BoundingCapsule.cs:3-7 | moving a capsule keeps its radius and its direction |
| BoundingCapsuleOps.SegmentDistanceSquared | CT5MEGA/BoundingCapsule.cs:13-32 | the corrected distance is never negative |
| BoundingCapsuleOps.ClosestParameter | CT5MEGA/BoundingCapsule.cs:13-32 | the parameter of the nearest segment point lies in [0, 1] |
| BoundingCapsuleProps.LineBranchTaken | CT5MEGA/BoundingCapsule.cs:23-31 | with both dots non-negative and distinct centres the test uses the line distance |
| BoundingCapsuleProps.ParallelCapsuleIntersectNearest | CT5MEGA/BoundingCapsule.cs:39-50 | the test uses whichever of other's cap centres is nearer the midpoint, Centre2 on a tie |
| BoundingCapsuleProps.ToIsSub | CT5MEGA/Vector3D.cs:95-97 | a.To(b) = b - a |
| BoundingCapsuleProps.ToTranslate | CT5MEGA/Vector3D.cs:95-97 | moving both ends keeps the vector between them |
| BoundingCapsuleProps.SubZero | CT5MEGA/BoundingCapsule.cs:45 | the squared length of a.To(b) is DistanceSquared(b, a) |
| BoundingCapsuleSegment.SegmentDistanceAttained | CT5MEGA/BoundingCapsule.cs:13-32 | the corrected distance is attained at the closest parameter |
| BoundingCapsuleSegment.SegmentDistanceMinimal | CT5MEGA/BoundingCapsule.cs:13-32 | no point of the segment is nearer |
| BoundingCapsuleSegment.EndBranchTaken | CT5MEGA/BoundingCapsule.cs:19-21 | past Centre2 the nearest point is Centre2 |
| BoundingCapsuleSegment.InsideBranchTaken | CT5MEGA/BoundingCapsule.cs:23-31 | inside the segment the corrected distance is the line distance |
| BoundingCapsuleSegment.AttainedInside | CT5MEGA/BoundingCapsule.cs:31 | the line distance is attained at Dot(AB, AC) / \|AB\|^2 |
| BoundingCapsuleSegment.OnSegment | CT5MEGA/BoundingCapsule.cs:31 | the squared distance to the point at parameter s is a quadratic in s |
| BoundingCapsuleSegment.SphereIntersectCorrectedMeaning | CT5MEGA/BoundingCapsule.cs:11-36 | the corrected test holds exactly when a sphere of the capsule's radius centred on the segment intersects the sphere |
| BoundingCapsuleSegment.SphereIntersectCorrectedTranslate | CT5MEGA/BoundingCapsule.cs:11-36 | moving capsule and sphere together does not change the corrected test |
| BoundingCapsuleExample.SphereIntersectOriginDependent | CT5MEGA/BoundingCapsule.cs:15-35 | the test as written rejects an overlapping capsule and sphere, accepts the same pair moved by (10, 0, 0), and the corrected test accepts it |
| BoundingCapsuleExample.RodAsWritten | CT5MEGA/BoundingCapsule.cs:15-17 | the rod and ball are rejected through the first branch |
| BoundingCapsuleExample.RodCorrected | CT5MEGA/BoundingCapsule.cs:23-35 | the corrected test accepts them |
| BoundingCapsuleExample.MovedRodAsWritten | CT5MEGA/BoundingCapsule.cs:23-35 | moved by (10, 0, 0), the test as written accepts them |
| BoundingCapsuleExample.TouchingCorrected | CT5MEGA/BoundingCapsule.cs:23-35 | any unit capsule along (4, 0, 0) with a unit sphere at (3, 1, 0) from Centre1 passes the corrected test |
| BoundingCapsuleExample.TouchingAsWritten | CT5MEGA/BoundingCapsule.cs:23-35 | the same pair passes the test as written once it reaches the last branch |

## Left out

- IEEE `float`/`double` rounding, overflow, infinities and NaN: every number is a `real`. The one NaN kept is the 0/0 of the capsule test at BoundingCapsule.cs:31.
- `Maths.Radians` (Maths.cs:7): it only feeds trigonometry.
- `MathF.Sqrt`, `MathF.Cos`, `MathF.Sin` and `Math.Max`/`Math.Min` are not computed. The first three are parameters bounded by `Maths.IsSqrt` and `Maths.IsTrig`. `Max`/`Min` are written out.
- `Angle` in Vector3D, Vector3, Vector4D and Vector4: it needs `MathF.Acos`.
- The axis-angle, Euler-angle and matrix constructors of `Quaternion`, `GetAxisAngle`, `Slerp` and `Slerp2` (Quaternion.cs:35-109, 132-148): they need trigonometry and inverse trigonometry. Notes on them:
  - `Slerp`'s `new(wt, vt)` binds to the degree-based axis-angle constructor.
  - `Slerp2` ignores `t`.
  - Three matrix entries are wrong. At Quaternion.cs:83, y takes the sum `F.z + R.x` that belongs to z. At Quaternion.cs:84, z takes `U.x + U.y`, which includes the diagonal entry U.y. At Quaternion.cs:89, w takes `U.z - R.x` where line 75 pairs R.x with F.z.
- `Quaternion.Rotate` (Quaternion.cs:130): `new Quaternion(p)` binds to the Euler-angle constructor, not to the pure-vector one. That constructor is trigonometric and not modelled.
- `Quaternion.Magnitude` and `Normalised` (Quaternion.cs:21-23): only the squared magnitude is modelled.
- `BoundingCapsule.Height` and `CapsuleIntersect` (BoundingCapsule.cs:8, 53-64): they need a square root of a cross product's length and are not part of this model.
- Matrix4x4.cs is not part of this model: its product operator is commented out. Program.cs is not part of this model either: it is a console demo.
- `ToString`, the `Tuple` properties as a separate type, and the instance short forms (`a.Dot(b)`, `a.Distance(b)`, `a.Equals(b)`): the static forms are modelled, and `QuaternionOps.T` stands for `Vector3D.Tuple`.
- The generic type parameter of `Vector<T>` is unused and dropped. The constructor takes a `nat`, so the exception that C# throws for a negative size is not modelled.
- Vector3DOps.DivComponents, Vector3DOps.DivScalar, Vector4DOps.DivComponents, Vector4DOps.DivScalar: these require a non-zero divisor, because float division by zero is not modelled.
- Vector3DOps.Normalise, Vector4DOps.Normalise and the `Normalise()` methods of Vector3D, Vector3 and Vector4D: these require a non-zero vector, for the same reason.
- Vector3DOps.ClampMagnitude: it requires a non-zero vector or a non-negative bound, since a zero vector longer than a negative bound would be normalised.
- Matrix3DOps.FromForward, Matrix3X3Ops.FromForward, Matrix4DOps.FromForward: these require f not parallel to Y. For such an f, `Cross(Y, F)` is zero and its normalisation at Matrix3D.cs:13 divides by zero.
- Matrix4DOps.Rotation, Matrix4DOps.RotationInefficient, Matrix4DOps.TRS: the cosine and sine are abstract functions, so the entries are stated in terms of them rather than as numbers.
- Vector3DOps.Equals, Vector4DOps.Equals and Vector4Class.Equals: the tolerance 0.00001f is taken as the exact decimal 0.00001.
- `Vector3D.DistanceSquared` and `SqrMagnitude` are called at BoundingSphere.cs:13 and BoundingCapsule.cs:31 but are not defined in Vector3D.cs. They are modelled as the sums of squares of the difference and of the components.

## Findings

| source | as written | input that shows it | evidently intended | confidence | as-written member | corrected member |
|---|---|---|---|---|---|---|
| CT5MEGA/Matrix4D.cs:121 | the third entry of the F row is `2*xz + yw` | the unit quaternion (1/2, 1/2, 1/2, 1/2): the F row as written is (0, 0, 3/4), of squared length 9/16, not 1 | `2*(xz + yw)`, which makes the matrix a rotation for every unit quaternion | high; not executed | Matrix4DOps.RotationQuaternionNotRotation | Matrix4DOps.RotationQuaternionCorrectedIsRotation |
| CT5MEGA/BoundingCapsule.cs:15-31 | the branches test `Dot(Centre1, center)` and `Dot(Centre2, center)`, which are dot products with position vectors, so the answer depends on where the origin is | the capsule (-2,0,0)-(2,0,0) of radius 1 and the unit sphere at (1,1,0) overlap (the sphere's centre is 1 from the segment), yet are rejected; moved by (10,0,0) the same pair is accepted | the squared distance to the segment: branches on Dot(AB, AC) and Dot(AB, BC) | high; not executed | BoundingCapsuleExample.SphereIntersectOriginDependent | BoundingCapsuleSegment.SphereIntersectCorrectedMeaning |
