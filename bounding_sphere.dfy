/** BoundingSphere.cs: a sphere given by its centre and radius, both
    get-only. The radius is a double in the source and a real here; it may
    be negative, since the constructor does not check it. */
module BoundingSphereOps {
  import opened Maths
  import V = Vector3DOps

  datatype BoundingSphere = BoundingSphere(Center: V.Vec3, Radius: real)

  /** `SphereIntersection(sphere1, sphere2)`: the squared distance of the
      centres is at most radii * radii, the square of the summed radii. */
  predicate SphereIntersection(sphere1: BoundingSphere, sphere2: BoundingSphere) {
    V.DistanceSquared(sphere1.Center, sphere2.Center) <= Square(sphere1.Radius + sphere2.Radius)
  }

  /** `a.Contains(other)`: the distance of the centres plus the radius of
      other is at most the radius of a, with MathF.Sqrt given as `sqrt`. */
  predicate Contains(a: BoundingSphere, other: BoundingSphere, sqrt: real -> real)
    requires IsSqrt(sqrt)
  {
    V.Distance(a.Center, other.Center, sqrt) + other.Radius <= a.Radius
  }

  /** For radii that do not sum to a negative number the squared test is
      the geometric one: the centres are no further apart than the radii
      reach. */
  lemma SphereIntersectionDistance(sphere1: BoundingSphere, sphere2: BoundingSphere, sqrt: real -> real)
    requires IsSqrt(sqrt) && sphere1.Radius + sphere2.Radius >= 0.0
    ensures SphereIntersection(sphere1, sphere2)
        <==> V.Distance(sphere1.Center, sphere2.Center, sqrt) <= sphere1.Radius + sphere2.Radius
  {
    var d := V.Distance(sphere1.Center, sphere2.Center, sqrt);
    var radii := sphere1.Radius + sphere2.Radius;
    V.DistanceSquaredIsSquare(sphere1.Center, sphere2.Center, sqrt);
    if d <= radii {
      SquareMonotone(d, radii);
    } else {
      SquareStrictlyMonotone(radii, d);
    }
  }

  /** The test does not depend on the order of its arguments. */
  lemma SphereIntersectionSymmetric(sphere1: BoundingSphere, sphere2: BoundingSphere)
    ensures SphereIntersection(sphere1, sphere2) <==> SphereIntersection(sphere2, sphere1)
  {
    V.DistanceSquaredSymmetric(sphere1.Center, sphere2.Center);
  }

  /** Spheres with the same centre always intersect, whatever their radii. */
  lemma SameCentreIntersect(sphere1: BoundingSphere, sphere2: BoundingSphere)
    requires sphere1.Center == sphere2.Center
    ensures SphereIntersection(sphere1, sphere2)
  {
    assert V.DistanceSquared(sphere1.Center, sphere2.Center) == 0.0;
  }

  /** Unit spheres whose centres are 1.5 apart intersect ... */
  lemma UnitSpheresOverlap()
    ensures SphereIntersection(BoundingSphere(V.Zero, 1.0), BoundingSphere(V.Vec3(1.5, 0.0, 0.0), 1.0))
  {
    assert V.Sub(V.Zero, V.Vec3(1.5, 0.0, 0.0)) == V.Vec3(-1.5, 0.0, 0.0);
    assert Square(-1.5) == 2.25;
  }

  /** ... and unit spheres whose centres are 3 apart do not. */
  lemma UnitSpheresApart()
    ensures !SphereIntersection(BoundingSphere(V.Zero, 1.0), BoundingSphere(V.Vec3(3.0, 0.0, 0.0), 1.0))
  {
    assert V.Sub(V.Zero, V.Vec3(3.0, 0.0, 0.0)) == V.Vec3(-3.0, 0.0, 0.0);
    assert Square(-3.0) == 9.0;
  }

  /** Every sphere contains itself. */
  lemma ContainsSelf(a: BoundingSphere, sqrt: real -> real)
    requires IsSqrt(sqrt)
    ensures Contains(a, a, sqrt)
  {
  }

  /** A sphere of non-negative radius that is contained in another
      intersects it. */
  lemma ContainsImpliesIntersects(a: BoundingSphere, other: BoundingSphere, sqrt: real -> real)
    requires IsSqrt(sqrt) && other.Radius >= 0.0
    requires Contains(a, other, sqrt)
    ensures SphereIntersection(a, other)
  {
    SphereIntersectionDistance(a, other, sqrt);
  }
}
