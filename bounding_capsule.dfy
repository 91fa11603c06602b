/** BoundingCapsule.cs: a capsule given by the two centres of its end caps
    and its radius, all get-only, so no operation changes a capsule or a
    sphere. */
module BoundingCapsuleOps {
  import opened Maths
  import V = Vector3DOps
  import S = BoundingSphereOps

  datatype BoundingCapsule = BoundingCapsule(Centre1: V.Vec3, Centre2: V.Vec3, Radius: real)

  /** A double as far as SphereIntersect needs: a number, or the NaN of 0/0,
      which compares false with everything. */
  datatype Double = Number(value: real) | NaN

  /** `d <= bound` on doubles. */
  predicate AtMost(d: Double, bound: real) {
    d.Number? && d.value <= bound
  }

  // ---- SphereIntersect as written ----

  /** The `distanceSquared` of `SphereIntersect`. The branch is chosen by the
      signs of Dot(Centre1, centre) and Dot(Centre2, centre), products with
      position vectors, so it depends on where the origin is. The last branch
      is the squared distance from the centre to the line through the two
      cap centres; the source also computes BC there and never uses it. When
      Centre1 == Centre2 it divides 0 by 0 and gives NaN. */
  function SphereDistanceSquared(c: BoundingCapsule, centre: V.Vec3): (d: Double)
    ensures V.Dot(c.Centre1, centre) < 0.0 ==> d == Number(V.DistanceSquared(c.Centre1, centre))
    ensures V.Dot(c.Centre1, centre) >= 0.0 && V.Dot(c.Centre2, centre) < 0.0 ==>
      d == Number(V.DistanceSquared(c.Centre2, centre))
    ensures d == NaN <==>
      V.Dot(c.Centre1, centre) >= 0.0 && V.Dot(c.Centre2, centre) >= 0.0 && c.Centre1 == c.Centre2
    ensures d.Number? ==> d.value >= 0.0
  {
    if V.Dot(c.Centre1, centre) < 0.0 then
      Number(V.DistanceSquared(c.Centre1, centre))
    else if V.Dot(c.Centre2, centre) < 0.0 then
      Number(V.DistanceSquared(c.Centre2, centre))
    else
      LineBranch(c, centre)
  }

  /** The last branch, with AB = Centre1.To(Centre2) and AC =
      Centre1.To(centre). AB.SqrMagnitude is zero exactly when the two cap
      centres coincide, and then the quotient is 0/0. */
  function LineBranch(c: BoundingCapsule, centre: V.Vec3): (d: Double)
    ensures d == NaN <==> c.Centre1 == c.Centre2
    ensures d.Number? ==> d.value >= 0.0
  {
    if c.Centre1 == c.Centre2 then
      NaN
    else
      DistinctCentres(c.Centre1, c.Centre2);
      Number(LineDistanceSquared(V.To(c.Centre1, c.Centre2), V.To(c.Centre1, centre)))
  }

  /** `AC.SqrMagnitude - ACdotAB * ACdotAB / AB.SqrMagnitude` for AB != 0:
      by Cauchy-Schwarz never negative. */
  function LineDistanceSquared(AB: V.Vec3, AC: V.Vec3): (r: real)
    requires V.SqrMagnitude(AB) > 0.0
    ensures r >= 0.0
  {
    LineDistanceNonNegative(AB, AC);
    ProjectionRemoved(V.SqrMagnitude(AC), V.Dot(AB, AC), V.SqrMagnitude(AB))
  }

  /** `m - dot * dot / n`: the squared length m of a vector less the square
      of its component along a direction of squared length n. */
  function ProjectionRemoved(m: real, dot: real, n: real): real
    requires n != 0.0
  {
    m - dot * dot / n
  }

  /** `capsule.SphereIntersect(other)`: distanceSquared <= radii * radii. */
  predicate SphereIntersect(c: BoundingCapsule, other: S.BoundingSphere) {
    AtMost(SphereDistanceSquared(c, other.Center), Square(c.Radius + other.Radius))
  }

  /** By Cauchy-Schwarz the squared distance to the line is never negative. */
  lemma LineDistanceNonNegative(ab: V.Vec3, ac: V.Vec3)
    requires V.SqrMagnitude(ab) > 0.0
    ensures ProjectionRemoved(V.SqrMagnitude(ac), V.Dot(ab, ac), V.SqrMagnitude(ab)) >= 0.0
  {
    V.CauchySchwarz(ab, ac);
    QuotientAtMost(V.Dot(ab, ac) * V.Dot(ab, ac), V.SqrMagnitude(ab), V.SqrMagnitude(ac));
  }

  /** The vector between two distinct points has a positive squared length. */
  lemma DistinctCentres(a: V.Vec3, b: V.Vec3)
    requires a != b
    ensures V.SqrMagnitude(V.To(a, b)) > 0.0
  {
    assert V.To(a, b) == V.Sub(b, a);
    assert V.DistanceSquared(b, a) > 0.0;
  }

  lemma QuotientAtMost(x: real, n: real, m: real)
    requires n > 0.0 && x <= n * m
    ensures x / n <= m
  {
  }

  // ---- ParallelCapsuleIntersect ----

  /** `capsule.ParallelCapsuleIntersect(other)`: the sphere of other's radius
      around whichever of other's cap centres is strictly nearer (by squared
      distance) to this capsule's midpoint, Centre2 on a tie, tested with
      SphereIntersect. */
  predicate ParallelCapsuleIntersect(c: BoundingCapsule, other: BoundingCapsule) {
    var centre := V.Lerp(c.Centre1, c.Centre2, 0.5);
    var p := V.To(centre, other.Centre1);
    var q := V.To(centre, other.Centre2);
    if V.SqrMagnitude(p) < V.SqrMagnitude(q) then
      SphereIntersect(c, S.BoundingSphere(other.Centre1, other.Radius))
    else
      SphereIntersect(c, S.BoundingSphere(other.Centre2, other.Radius))
  }

  /** The capsule moved by t. */
  function Translate(c: BoundingCapsule, t: V.Vec3): (r: BoundingCapsule)
    ensures r.Radius == c.Radius
    ensures V.To(r.Centre1, r.Centre2) == V.To(c.Centre1, c.Centre2)
  {
    BoundingCapsule(V.Add(c.Centre1, t), V.Add(c.Centre2, t), c.Radius)
  }

  // ---- SphereIntersect as evidently intended ----

  /** The squared distance from centre to the segment between the two cap
      centres: the branches test Dot(AB, AC) and Dot(AB, BC), vectors along
      the segment, in place of Dot(Centre1, centre) and Dot(Centre2, centre),
      and the last branch needs AB != 0, which Dot(AB, AC) > 0 ensures. */
  function SegmentDistanceSquared(c: BoundingCapsule, centre: V.Vec3): (d: real)
    ensures d >= 0.0
  {
    var AB := V.To(c.Centre1, c.Centre2);
    var AC := V.To(c.Centre1, centre);
    var BC := V.To(c.Centre2, centre);
    if V.Dot(AB, AC) <= 0.0 then
      V.DistanceSquared(c.Centre1, centre)
    else if V.Dot(AB, BC) >= 0.0 then
      V.DistanceSquared(c.Centre2, centre)
    else
      DotPositive(AB, AC);
      LineDistanceSquared(AB, AC)
  }

  /** The parameter along the segment of the point nearest to centre. */
  function ClosestParameter(c: BoundingCapsule, centre: V.Vec3): (t: real)
    ensures 0.0 <= t <= 1.0
  {
    var AB := V.To(c.Centre1, c.Centre2);
    var AC := V.To(c.Centre1, centre);
    var BC := V.To(c.Centre2, centre);
    if V.Dot(AB, AC) <= 0.0 then
      0.0
    else if V.Dot(AB, BC) >= 0.0 then
      1.0
    else
      DotPositive(AB, AC);
      BeyondSecondCentre(c, centre);
      V.Dot(AB, AC) / V.SqrMagnitude(AB)
  }

  /** `capsule.SphereIntersect(other)` as evidently intended. */
  predicate SphereIntersectCorrected(c: BoundingCapsule, other: S.BoundingSphere) {
    SegmentDistanceSquared(c, other.Center) <= Square(c.Radius + other.Radius)
  }

  /** A positive dot product needs a non-zero first factor. */
  lemma DotPositive(u: V.Vec3, v: V.Vec3)
    requires V.Dot(u, v) > 0.0
    ensures V.SqrMagnitude(u) > 0.0
  {
    DotWithZero(u, v);
  }

  lemma DotWithZero(u: V.Vec3, v: V.Vec3)
    ensures u == V.Zero ==> V.Dot(u, v) == 0.0
  {
  }

  /** Dot(AB, BC) = Dot(AB, AC) - |AB|^2, since BC = AC - AB. */
  lemma BeyondSecondCentre(c: BoundingCapsule, centre: V.Vec3)
    ensures V.Dot(V.To(c.Centre1, c.Centre2), V.To(c.Centre2, centre))
         == V.Dot(V.To(c.Centre1, c.Centre2), V.To(c.Centre1, centre)) - V.SqrMagnitude(V.To(c.Centre1, c.Centre2))
  {
    var AB := V.To(c.Centre1, c.Centre2);
    assert V.To(c.Centre2, centre) == V.Sub(V.To(c.Centre1, centre), AB);
    V.SqrMagnitudeDot(AB);
  }

  // ---- a capsule and a sphere that touch ----

  /** The capsule from (-2, 0, 0) to (2, 0, 0) of radius 1 and the unit sphere
      at (1, 1, 0): the sphere touches the capsule (its distance to the
      segment is 1, the radii sum to 2), but Dot(Centre1, centre) = -2 sends
      the test as written to the first branch, the squared distance 10 from
      Centre1 exceeds 4 and the test fails. Moved by (10, 0, 0) the same pair
      passes it. */
  const Rod := BoundingCapsule(V.Vec3(-2.0, 0.0, 0.0), V.Vec3(2.0, 0.0, 0.0), 1.0)
  const Ball := S.BoundingSphere(V.Vec3(1.0, 1.0, 0.0), 1.0)
  const Shift := V.Vec3(10.0, 0.0, 0.0)
}

/** Properties of SphereIntersect and ParallelCapsuleIntersect as written. */
module BoundingCapsuleProps {
  import opened Maths
  import V = Vector3DOps
  import S = BoundingSphereOps
  import opened BoundingCapsuleOps

  /** The test as written reaches its last branch when both dot products
      with the position vectors are non-negative. */
  lemma LineBranchTaken(c: BoundingCapsule, centre: V.Vec3)
    requires V.Dot(c.Centre1, centre) >= 0.0 && V.Dot(c.Centre2, centre) >= 0.0
    requires c.Centre1 != c.Centre2
    ensures V.SqrMagnitude(V.To(c.Centre1, c.Centre2)) > 0.0
    ensures SphereDistanceSquared(c, centre) == Number(LineDistanceSquared(V.To(c.Centre1, c.Centre2), V.To(c.Centre1, centre)))
  {
    DistinctCentres(c.Centre1, c.Centre2);
  }

  lemma LineDistanceFromParts(ab: V.Vec3, ac: V.Vec3, dot: real, n: real, m: real)
    requires n == V.SqrMagnitude(ab) && n > 0.0 && dot == V.Dot(ab, ac) && m == V.SqrMagnitude(ac)
    ensures LineDistanceSquared(ab, ac) == ProjectionRemoved(m, dot, n)
  {
  }

  /** The cap centre of other that ParallelCapsuleIntersect picks is one of
      the two, no further from the midpoint than the other one, and Centre2
      when both are equally far. */
  lemma ParallelCapsuleIntersectNearest(c: BoundingCapsule, other: BoundingCapsule)
    ensures var mid := V.Midpoint(c.Centre1, c.Centre2);
      exists e :: (e == other.Centre1 || e == other.Centre2)
        && V.DistanceSquared(e, mid) <= V.DistanceSquared(other.Centre1, mid)
        && V.DistanceSquared(e, mid) <= V.DistanceSquared(other.Centre2, mid)
        && (V.DistanceSquared(other.Centre1, mid) == V.DistanceSquared(other.Centre2, mid) ==> e == other.Centre2)
        && (ParallelCapsuleIntersect(c, other) <==> SphereIntersect(c, S.BoundingSphere(e, other.Radius)))
  {
    var mid := V.Midpoint(c.Centre1, c.Centre2);
    SubZero(other.Centre1, mid);
    SubZero(other.Centre2, mid);
    if V.DistanceSquared(other.Centre1, mid) < V.DistanceSquared(other.Centre2, mid) {
      var e := other.Centre1;
      assert (e == other.Centre1 || e == other.Centre2)
        && V.DistanceSquared(e, mid) <= V.DistanceSquared(other.Centre2, mid);
    } else {
      var e := other.Centre2;
      assert (e == other.Centre1 || e == other.Centre2)
        && V.DistanceSquared(e, mid) <= V.DistanceSquared(other.Centre1, mid);
    }
  }

  /** The squared length of b - a, as the source computes it, is the squared
      distance. */
  lemma ToIsSub(a: V.Vec3, b: V.Vec3)
    ensures V.To(a, b) == V.Sub(b, a)
  {
  }

  /** Moving both ends by t leaves the vector between them unchanged. */
  lemma ToTranslate(a: V.Vec3, b: V.Vec3, t: V.Vec3)
    ensures V.To(V.Add(a, t), V.Add(b, t)) == V.To(a, b)
  {
    ToIsSub(a, b);
    ToIsSub(V.Add(a, t), V.Add(b, t));
  }

  lemma SubZero(b: V.Vec3, a: V.Vec3)
    ensures V.SqrMagnitude(V.To(a, b)) == V.DistanceSquared(b, a)
  {
    assert V.To(a, b) == V.Sub(b, a);
  }
}

/** Properties of the segment distance, the evidently intended test. */
module BoundingCapsuleSegment {
  import opened Maths
  import V = Vector3DOps
  import S = BoundingSphereOps
  import opened BoundingCapsuleOps
  import opened BoundingCapsuleProps

  /** The corrected distance is attained at the closest parameter ... */
  lemma SegmentDistanceAttained(c: BoundingCapsule, centre: V.Vec3)
    ensures SegmentDistanceSquared(c, centre)
         == V.DistanceSquared(V.Lerp(c.Centre1, c.Centre2, ClosestParameter(c, centre)), centre)
  {
    var AB := V.To(c.Centre1, c.Centre2);
    var AC := V.To(c.Centre1, centre);
    var BC := V.To(c.Centre2, centre);
    if V.Dot(AB, AC) <= 0.0 {
    } else if V.Dot(AB, BC) >= 0.0 {
      EndBranchTaken(c, centre);
    } else {
      InsideBranchTaken(c, centre);
      AttainedInside(c, centre);
    }
  }

  /** Past Centre2 the nearest point is Centre2, at parameter 1. */
  lemma EndBranchTaken(c: BoundingCapsule, centre: V.Vec3)
    requires V.Dot(V.To(c.Centre1, c.Centre2), V.To(c.Centre1, centre)) > 0.0
    requires V.Dot(V.To(c.Centre1, c.Centre2), V.To(c.Centre2, centre)) >= 0.0
    ensures ClosestParameter(c, centre) == 1.0
    ensures SegmentDistanceSquared(c, centre) == V.DistanceSquared(c.Centre2, centre)
  {
  }

  /** Inside the segment the line distance is attained at Dot(AB, AC) / |AB|^2. */
  lemma AttainedInside(c: BoundingCapsule, centre: V.Vec3)
    requires V.SqrMagnitude(V.To(c.Centre1, c.Centre2)) > 0.0
    ensures LineDistanceSquared(V.To(c.Centre1, c.Centre2), V.To(c.Centre1, centre))
         == V.DistanceSquared(V.Lerp(c.Centre1, c.Centre2,
              V.Dot(V.To(c.Centre1, c.Centre2), V.To(c.Centre1, centre)) / V.SqrMagnitude(V.To(c.Centre1, c.Centre2))), centre)
  {
    var AB := V.To(c.Centre1, c.Centre2);
    var AC := V.To(c.Centre1, centre);
    var n := V.SqrMagnitude(AB);
    var dot := V.Dot(AB, AC);
    var m := V.SqrMagnitude(AC);
    AttainedAt(c, centre, dot / n, n, dot, m);
    LineDistanceFromParts(AB, AC, dot, n, m);
  }

  lemma AttainedAt(c: BoundingCapsule, centre: V.Vec3, t: real, n: real, dot: real, m: real)
    requires n == V.SqrMagnitude(V.To(c.Centre1, c.Centre2)) && n > 0.0
    requires dot == V.Dot(V.To(c.Centre1, c.Centre2), V.To(c.Centre1, centre))
    requires m == V.SqrMagnitude(V.To(c.Centre1, centre)) && t == dot / n
    ensures ProjectionRemoved(m, dot, n) == V.DistanceSquared(V.Lerp(c.Centre1, c.Centre2, t), centre)
  {
    OnSegment(c, centre, t, n, dot, m);
    AtVertex(t, n, dot, m);
  }

  /** ... and no point of the segment is nearer. */
  lemma SegmentDistanceMinimal(c: BoundingCapsule, centre: V.Vec3, s: real)
    requires 0.0 <= s <= 1.0
    ensures SegmentDistanceSquared(c, centre) <= V.DistanceSquared(V.Lerp(c.Centre1, c.Centre2, s), centre)
  {
    var AB := V.To(c.Centre1, c.Centre2);
    var AC := V.To(c.Centre1, centre);
    var n := V.SqrMagnitude(AB);
    var dot := V.Dot(AB, AC);
    var m := V.SqrMagnitude(AC);
    if dot <= 0.0 {
      MinimalLeft(c, centre, s, n, dot, m);
    } else if V.Dot(AB, V.To(c.Centre2, centre)) >= 0.0 {
      MinimalRight(c, centre, s, n, dot, m);
    } else {
      MinimalInside(c, centre, s, n, dot, m);
    }
  }

  lemma MinimalLeft(c: BoundingCapsule, centre: V.Vec3, s: real, n: real, dot: real, m: real)
    requires 0.0 <= s <= 1.0
    requires n == V.SqrMagnitude(V.To(c.Centre1, c.Centre2))
    requires dot == V.Dot(V.To(c.Centre1, c.Centre2), V.To(c.Centre1, centre))
    requires m == V.SqrMagnitude(V.To(c.Centre1, centre))
    requires dot <= 0.0
    ensures SegmentDistanceSquared(c, centre) <= V.DistanceSquared(V.Lerp(c.Centre1, c.Centre2, s), centre)
  {
    OnSegment(c, centre, s, n, dot, m);
    SubZero(centre, c.Centre1);
    V.DistanceSquaredSymmetric(centre, c.Centre1);
    LeftOfSegment(s, n, dot, m);
  }

  lemma MinimalRight(c: BoundingCapsule, centre: V.Vec3, s: real, n: real, dot: real, m: real)
    requires 0.0 <= s <= 1.0
    requires n == V.SqrMagnitude(V.To(c.Centre1, c.Centre2))
    requires dot == V.Dot(V.To(c.Centre1, c.Centre2), V.To(c.Centre1, centre))
    requires m == V.SqrMagnitude(V.To(c.Centre1, centre))
    requires dot > 0.0 && V.Dot(V.To(c.Centre1, c.Centre2), V.To(c.Centre2, centre)) >= 0.0
    ensures SegmentDistanceSquared(c, centre) <= V.DistanceSquared(V.Lerp(c.Centre1, c.Centre2, s), centre)
  {
    EndBranchTaken(c, centre);
    OnSegment(c, centre, s, n, dot, m);
    OnSegment(c, centre, 1.0, n, dot, m);
    BeyondSecondCentre(c, centre);
    RightOfSegment(s, n, dot, m);
  }

  lemma MinimalInside(c: BoundingCapsule, centre: V.Vec3, s: real, n: real, dot: real, m: real)
    requires 0.0 <= s <= 1.0
    requires n == V.SqrMagnitude(V.To(c.Centre1, c.Centre2))
    requires dot == V.Dot(V.To(c.Centre1, c.Centre2), V.To(c.Centre1, centre))
    requires m == V.SqrMagnitude(V.To(c.Centre1, centre))
    requires dot > 0.0 && V.Dot(V.To(c.Centre1, c.Centre2), V.To(c.Centre2, centre)) < 0.0
    ensures SegmentDistanceSquared(c, centre) <= V.DistanceSquared(V.Lerp(c.Centre1, c.Centre2, s), centre)
  {
    InsideBranchTaken(c, centre);
    OnSegment(c, centre, s, n, dot, m);
    LineDistanceFromParts(V.To(c.Centre1, c.Centre2), V.To(c.Centre1, centre), dot, n, m);
    InsideSegment(s, n, dot, m);
  }

  /** The quadratic s^2 n - 2 s dot + m. */
  function Quadratic(s: real, n: real, dot: real, m: real): real {
    s * s * n - 2.0 * s * dot + m
  }

  /** The squared distance from centre to the point at parameter s is a
      quadratic in s. */
  lemma OnSegment(c: BoundingCapsule, centre: V.Vec3, s: real, n: real, dot: real, m: real)
    requires n == V.SqrMagnitude(V.To(c.Centre1, c.Centre2))
    requires dot == V.Dot(V.To(c.Centre1, c.Centre2), V.To(c.Centre1, centre))
    requires m == V.SqrMagnitude(V.To(c.Centre1, centre))
    ensures V.DistanceSquared(V.Lerp(c.Centre1, c.Centre2, s), centre) == Quadratic(s, n, dot, m)
  {
    AlongSegment(c, centre, s);
    ExpandScaledDifference(V.To(c.Centre1, c.Centre2), V.To(c.Centre1, centre), s);
  }

  /** The corrected test holds exactly when some sphere of the capsule's
      radius centred on the segment intersects other. */
  lemma SphereIntersectCorrectedMeaning(c: BoundingCapsule, other: S.BoundingSphere)
    ensures SphereIntersectCorrected(c, other) <==>
      exists s :: 0.0 <= s <= 1.0 &&
        S.SphereIntersection(S.BoundingSphere(V.Lerp(c.Centre1, c.Centre2, s), c.Radius), other)
  {
    var t := ClosestParameter(c, other.Center);
    SegmentDistanceAttained(c, other.Center);
    if SphereIntersectCorrected(c, other) {
      assert S.SphereIntersection(S.BoundingSphere(V.Lerp(c.Centre1, c.Centre2, t), c.Radius), other);
    }
    forall s | 0.0 <= s <= 1.0 &&
        S.SphereIntersection(S.BoundingSphere(V.Lerp(c.Centre1, c.Centre2, s), c.Radius), other)
      ensures SphereIntersectCorrected(c, other)
    {
      SegmentDistanceMinimal(c, other.Center, s);
    }
  }

  /** Moving capsule and sphere together does not change the corrected
      test. */
  lemma SphereIntersectCorrectedTranslate(c: BoundingCapsule, other: S.BoundingSphere, t: V.Vec3)
    ensures SphereIntersectCorrected(Translate(c, t), S.BoundingSphere(V.Add(other.Center, t), other.Radius))
        <==> SphereIntersectCorrected(c, other)
  {
    var c' := Translate(c, t);
    var p := other.Center;
    var p' := V.Add(p, t);
    assert V.To(c'.Centre1, p') == V.To(c.Centre1, p);
    assert V.To(c'.Centre2, p') == V.To(c.Centre2, p);
    V.DistanceSquaredTranslate(c.Centre1, p, t);
    V.DistanceSquaredTranslate(c.Centre2, p, t);
  }

  /** The corrected test reaches its last branch when centre projects inside
      the segment. */
  lemma InsideBranchTaken(c: BoundingCapsule, centre: V.Vec3)
    requires V.Dot(V.To(c.Centre1, c.Centre2), V.To(c.Centre1, centre)) > 0.0
    requires V.Dot(V.To(c.Centre1, c.Centre2), V.To(c.Centre2, centre)) < 0.0
    ensures V.SqrMagnitude(V.To(c.Centre1, c.Centre2)) > 0.0
    ensures SegmentDistanceSquared(c, centre) == LineDistanceSquared(V.To(c.Centre1, c.Centre2), V.To(c.Centre1, centre))
    ensures ClosestParameter(c, centre)
         == V.Dot(V.To(c.Centre1, c.Centre2), V.To(c.Centre1, centre)) / V.SqrMagnitude(V.To(c.Centre1, c.Centre2))
  {
    DotPositive(V.To(c.Centre1, c.Centre2), V.To(c.Centre1, centre));
  }

  // ---- helpers of the corrected distance ----

  /** The squared distance from centre to the point at parameter s. */
  lemma AlongSegment(c: BoundingCapsule, centre: V.Vec3, s: real)
    ensures V.DistanceSquared(V.Lerp(c.Centre1, c.Centre2, s), centre)
         == V.SqrMagnitude(V.Sub(V.MulScalar(V.To(c.Centre1, c.Centre2), s), V.To(c.Centre1, centre)))
  {
    assert V.Sub(V.Lerp(c.Centre1, c.Centre2, s), centre)
        == V.Sub(V.MulScalar(V.To(c.Centre1, c.Centre2), s), V.To(c.Centre1, centre));
  }

  /** |s u - v|^2 = s^2 |u|^2 - 2 s (u . v) + |v|^2. */
  lemma ExpandScaledDifference(u: V.Vec3, v: V.Vec3, s: real)
    ensures V.SqrMagnitude(V.Sub(V.MulScalar(u, s), v))
         == Quadratic(s, V.SqrMagnitude(u), V.Dot(u, v), V.SqrMagnitude(v))
  {
    var w := V.Sub(V.MulScalar(u, s), v);
    assert w.x == u.x * s - v.x && w.y == u.y * s - v.y && w.z == u.z * s - v.z;
    assert V.SqrMagnitude(w) == Square(w.x) + Square(w.y) + Square(w.z);
    assert V.Dot(u, v) == u.x * v.x + u.y * v.y + u.z * v.z;
    assert V.SqrMagnitude(u) == Square(u.x) + Square(u.y) + Square(u.z);
    assert V.SqrMagnitude(v) == Square(v.x) + Square(v.y) + Square(v.z);
    ExpandComponent(u.x, v.x, s);
    ExpandComponent(u.y, v.y, s);
    ExpandComponent(u.z, v.z, s);
    QuadraticSum(s, Square(u.x), u.x * v.x, Square(v.x), Square(u.y), u.y * v.y, Square(v.y),
      Square(u.z), u.z * v.z, Square(v.z));
  }

  lemma ExpandComponent(a: real, b: real, s: real)
    ensures Square(a * s - b) == Quadratic(s, Square(a), a * b, Square(b))
  {
  }

  /** Quadratics in the same s add coefficient by coefficient. */
  lemma QuadraticSum(s: real, n1: real, d1: real, m1: real, n2: real, d2: real, m2: real,
                     n3: real, d3: real, m3: real)
    ensures Quadratic(s, n1, d1, m1) + Quadratic(s, n2, d2, m2) + Quadratic(s, n3, d3, m3)
         == Quadratic(s, n1 + n2 + n3, d1 + d2 + d3, m1 + m2 + m3)
  {
  }

  lemma LeftOfSegment(s: real, n: real, dot: real, m: real)
    requires 0.0 <= s && 0.0 <= n && dot <= 0.0
    ensures m <= Quadratic(s, n, dot, m)
  {
    ProductNonNegative(s * s, n);
    ProductNonNegative(s, -dot);
  }

  /** With 0 <= n <= dot it is least at s = 1 over 0 <= s <= 1. */
  lemma RightOfSegment(s: real, n: real, dot: real, m: real)
    requires 0.0 <= s <= 1.0 && 0.0 <= n <= dot
    ensures Quadratic(1.0, n, dot, m) <= Quadratic(s, n, dot, m)
  {
    assert s * s * n - 2.0 * s * dot - (n - 2.0 * dot) == (1.0 - s) * (2.0 * dot - n * (s + 1.0));
    assert n * (s + 1.0) <= 2.0 * n;
    ProductNonNegative(1.0 - s, 2.0 * dot - n * (s + 1.0));
  }

  /** With n > 0 it is least at s = dot / n, where it is m - dot^2 / n. */
  lemma InsideSegment(s: real, n: real, dot: real, m: real)
    requires 0.0 < n
    ensures ProjectionRemoved(m, dot, n) <= Quadratic(s, n, dot, m)
  {
    var t := dot / n;
    assert dot == t * n;
    assert dot * dot / n == t * t * n;
    assert s * s * n - 2.0 * s * dot + m - (m - t * t * n) == n * ((s - t) * (s - t));
    ProductNonNegative(n, (s - t) * (s - t));
  }

  /** The value there. */
  lemma AtVertex(t: real, n: real, dot: real, m: real)
    requires 0.0 < n && t == dot / n
    ensures Quadratic(t, n, dot, m) == ProjectionRemoved(m, dot, n)
  {
    assert dot == t * n;
    assert dot * dot / n == t * t * n;
  }

  lemma ProductNonNegative(a: real, b: real)
    requires 0.0 <= a && 0.0 <= b
    ensures 0.0 <= a * b
  {
  }
}

/** The capsule Rod and the sphere Ball touch; SphereIntersect as written
    rejects them, accepts them once both are moved by Shift, and the segment
    test accepts them. */
module BoundingCapsuleExample {
  import opened Maths
  import V = Vector3DOps
  import S = BoundingSphereOps
  import opened BoundingCapsuleOps
  import opened BoundingCapsuleProps
  import opened BoundingCapsuleSegment

  lemma SphereIntersectOriginDependent()
    ensures !SphereIntersect(Rod, Ball)
    ensures SphereIntersect(Translate(Rod, Shift), S.BoundingSphere(V.Add(Ball.Center, Shift), Ball.Radius))
    ensures SphereIntersectCorrected(Rod, Ball)
  {
    RodAsWritten();
    MovedRodAsWritten();
    RodCorrected();
  }

  lemma RodAsWritten()
    ensures !SphereIntersect(Rod, Ball)
  {
    assert V.Dot(V.Vec3(-2.0, 0.0, 0.0), V.Vec3(1.0, 1.0, 0.0)) == -2.0;
    assert V.Sub(V.Vec3(-2.0, 0.0, 0.0), V.Vec3(1.0, 1.0, 0.0)) == V.Vec3(-3.0, -1.0, 0.0);
    assert V.SqrMagnitude(V.Vec3(-3.0, -1.0, 0.0)) == 10.0;
    assert Square(2.0) == 4.0;
  }

  lemma RodCorrected()
    ensures SphereIntersectCorrected(Rod, Ball)
  {
    RodDirections(Rod, Ball);
    TouchingCorrected(Rod, Ball);
  }

  lemma MovedRodAsWritten()
    ensures SphereIntersect(Translate(Rod, Shift), S.BoundingSphere(V.Add(Ball.Center, Shift), Ball.Radius))
  {
    MovedCase(Rod, Ball, Shift);
  }

  lemma MovedCase(c: BoundingCapsule, o: S.BoundingSphere, t: V.Vec3)
    requires c == Rod && o == Ball && t == Shift
    ensures SphereIntersect(Translate(c, t), S.BoundingSphere(V.Add(o.Center, t), o.Radius))
  {
    RodDirections(c, o);
    MovedDots(c, o, t);
    MovedTouching(c, o, t);
  }

  /** A pair along these directions, moved by t to where both dot products
      are non-negative, passes the test as written. */
  lemma MovedTouching(c: BoundingCapsule, o: S.BoundingSphere, t: V.Vec3)
    requires V.To(c.Centre1, c.Centre2) == V.Vec3(4.0, 0.0, 0.0)
    requires V.To(c.Centre1, o.Center) == V.Vec3(3.0, 1.0, 0.0)
    requires V.Dot(V.Add(c.Centre1, t), V.Add(o.Center, t)) >= 0.0
    requires V.Dot(V.Add(c.Centre2, t), V.Add(o.Center, t)) >= 0.0
    requires V.Add(c.Centre1, t) != V.Add(c.Centre2, t)
    requires c.Radius == 1.0 && o.Radius == 1.0
    ensures SphereIntersect(Translate(c, t), S.BoundingSphere(V.Add(o.Center, t), o.Radius))
  {
    ToTranslate(c.Centre1, o.Center, t);
    TouchingAsWritten(Translate(c, t), S.BoundingSphere(V.Add(o.Center, t), o.Radius));
  }

  /** From Centre1 the rod runs along (4, 0, 0) and the ball's centre is at
      (3, 1, 0); from Centre2 the ball's centre is at (-1, 1, 0). */
  lemma RodDirections(c: BoundingCapsule, o: S.BoundingSphere)
    requires c == Rod && o == Ball
    ensures V.To(c.Centre1, c.Centre2) == V.Vec3(4.0, 0.0, 0.0)
    ensures V.To(c.Centre1, o.Center) == V.Vec3(3.0, 1.0, 0.0)
    ensures V.To(c.Centre2, o.Center) == V.Vec3(-1.0, 1.0, 0.0)
    ensures c.Radius == 1.0 && o.Radius == 1.0
  {
    ToIsSub(c.Centre1, c.Centre2);
    ToIsSub(c.Centre1, o.Center);
    ToIsSub(c.Centre2, o.Center);
  }

  /** Moved by Shift, both cap centres have a non-negative dot product with
      the ball's centre, and they stay apart. */
  lemma MovedDots(c: BoundingCapsule, o: S.BoundingSphere, t: V.Vec3)
    requires c == Rod && o == Ball && t == Shift
    ensures V.Dot(V.Add(c.Centre1, t), V.Add(o.Center, t)) >= 0.0
    ensures V.Dot(V.Add(c.Centre2, t), V.Add(o.Center, t)) >= 0.0
    ensures V.Add(c.Centre1, t) != V.Add(c.Centre2, t)
  {
    MovedPositions(c, o, t);
    PositionDots(V.Add(c.Centre1, t), V.Add(c.Centre2, t), V.Add(o.Center, t));
  }

  /** The rod runs from (8, 0, 0) to (12, 0, 0), the ball sits at (11, 1, 0). */
  lemma MovedPositions(c: BoundingCapsule, o: S.BoundingSphere, t: V.Vec3)
    requires c == Rod && o == Ball && t == Shift
    ensures V.Add(c.Centre1, t) == V.Vec3(8.0, 0.0, 0.0)
    ensures V.Add(c.Centre2, t) == V.Vec3(12.0, 0.0, 0.0)
    ensures V.Add(o.Center, t) == V.Vec3(11.0, 1.0, 0.0)
  {
  }

  lemma PositionDots(a: V.Vec3, b: V.Vec3, p: V.Vec3)
    requires a == V.Vec3(8.0, 0.0, 0.0) && b == V.Vec3(12.0, 0.0, 0.0) && p == V.Vec3(11.0, 1.0, 0.0)
    ensures V.Dot(a, p) >= 0.0 && V.Dot(b, p) >= 0.0 && a != b
  {
  }

  /** Any capsule of radius 1 along (4, 0, 0) with a unit sphere at (3, 1, 0)
      from Centre1 passes the corrected test. */
  lemma TouchingCorrected(c: BoundingCapsule, o: S.BoundingSphere)
    requires V.To(c.Centre1, c.Centre2) == V.Vec3(4.0, 0.0, 0.0)
    requires V.To(c.Centre1, o.Center) == V.Vec3(3.0, 1.0, 0.0)
    requires V.To(c.Centre2, o.Center) == V.Vec3(-1.0, 1.0, 0.0)
    requires c.Radius == 1.0 && o.Radius == 1.0
    ensures SphereIntersectCorrected(c, o)
  {
    DirectionDots(V.To(c.Centre1, c.Centre2), V.To(c.Centre1, o.Center), V.To(c.Centre2, o.Center));
    LineDistanceOne();
    SquareTwo();
    CorrectedFromLine(c, o);
  }

  /** The same pair passes the test as written once it reaches the last
      branch. */
  lemma TouchingAsWritten(c: BoundingCapsule, o: S.BoundingSphere)
    requires V.To(c.Centre1, c.Centre2) == V.Vec3(4.0, 0.0, 0.0)
    requires V.To(c.Centre1, o.Center) == V.Vec3(3.0, 1.0, 0.0)
    requires V.Dot(c.Centre1, o.Center) >= 0.0 && V.Dot(c.Centre2, o.Center) >= 0.0
    requires c.Centre1 != c.Centre2
    requires c.Radius == 1.0 && o.Radius == 1.0
    ensures SphereIntersect(c, o)
  {
    DirectionDots(V.To(c.Centre1, c.Centre2), V.To(c.Centre1, o.Center), V.Vec3(-1.0, 1.0, 0.0));
    LineDistanceOne();
    SquareTwo();
    AsWrittenFromLine(c, o);
  }

  lemma DirectionDots(ab: V.Vec3, ap: V.Vec3, bp: V.Vec3)
    requires ab == V.Vec3(4.0, 0.0, 0.0) && ap == V.Vec3(3.0, 1.0, 0.0) && bp == V.Vec3(-1.0, 1.0, 0.0)
    ensures V.Dot(ab, ap) > 0.0 && V.Dot(ab, bp) < 0.0 && V.SqrMagnitude(ab) > 0.0
  {
  }

  lemma SquareTwo()
    ensures Square(1.0 + 1.0) == 4.0
  {
  }

  /** The test as written holds when it reaches its last branch and the
      line distance is within reach. */
  lemma AsWrittenFromLine(c: BoundingCapsule, other: S.BoundingSphere)
    requires V.Dot(c.Centre1, other.Center) >= 0.0 && V.Dot(c.Centre2, other.Center) >= 0.0
    requires c.Centre1 != c.Centre2 && V.SqrMagnitude(V.To(c.Centre1, c.Centre2)) > 0.0
    requires LineDistanceSquared(V.To(c.Centre1, c.Centre2), V.To(c.Centre1, other.Center))
          <= Square(c.Radius + other.Radius)
    ensures SphereIntersect(c, other)
  {
    LineBranchTaken(c, other.Center);
  }

  /** The corrected test holds when centre projects inside the segment and
      the line distance is within reach. */
  lemma CorrectedFromLine(c: BoundingCapsule, other: S.BoundingSphere)
    requires V.Dot(V.To(c.Centre1, c.Centre2), V.To(c.Centre1, other.Center)) > 0.0
    requires V.Dot(V.To(c.Centre1, c.Centre2), V.To(c.Centre2, other.Center)) < 0.0
    requires V.SqrMagnitude(V.To(c.Centre1, c.Centre2)) > 0.0
    requires LineDistanceSquared(V.To(c.Centre1, c.Centre2), V.To(c.Centre1, other.Center))
          <= Square(c.Radius + other.Radius)
    ensures SphereIntersectCorrected(c, other)
  {
    InsideBranchTaken(c, other.Center);
  }

  /** Both examples end on the line distance from (3, 1, 0) to the direction
      (4, 0, 0): 10 - 12 * 12 / 16 = 1. */
  lemma LineDistanceOne()
    ensures LineDistanceSquared(V.Vec3(4.0, 0.0, 0.0), V.Vec3(3.0, 1.0, 0.0)) == 1.0
  {
    LineDistanceFromParts(V.Vec3(4.0, 0.0, 0.0), V.Vec3(3.0, 1.0, 0.0), 12.0, 16.0, 10.0);
    assert ProjectionRemoved(10.0, 12.0, 16.0) == 1.0;
  }
}
