/** The collision-volume geometry of the simulation: is a point inside an object's
    volume, and does a segment cross it (rts/Sim/Misc/CollisionHandler.cpp).

    A volume is an ellipsoid, a cylinder or a box, centred on the origin of its own
    "volume space" and aligned with its axes. The object's transform and its inverse
    are not modelled: a `Collidable` carries the map from world space into volume
    space as a function, and the shape tests take volume-space points. */
module Collision {
  import opened Wrappers
  import opened Vectors

  /** The tolerance under which the engine treats a discriminant or a direction
      component as zero. Its value lives in a header that is not part of this model. */
  const EPS: PosReal

  /** `COLVOL_TYPE_*`; a tag outside the three known ones falls through every switch. */
  datatype VolumeType = Ellipsoid | Cylinder | Box | UnknownVolume(tag: int)

  /** `COLVOL_TEST_*`. */
  datatype TestType = Discrete | Continuous | UnknownTest(tag: int)

  datatype VolumeData = VolumeData(
    axisScales: Float3,
    axisHScales: Float3,
    axisHScalesSq: Float3,
    axisHIScales: Float3,
    axisOffsets: Float3,
    volumeBoundingRadius: real,
    volumeBoundingRadiusSq: real,
    volumeType: VolumeType,
    testType: TestType,
    primaryAxis: Axis,
    secondaryAxes: (Axis, Axis),
    spherical: bool)

  /** The two axes of a cylinder's cross-section, in the order the engine uses. */
  function SecondaryOf(a: Axis): (Axis, Axis) {
    match a
    case X => (Y, Z)
    case Y => (X, Z)
    case Z => (X, Y)
  }

  /** The derived half-scales of one axis agree with the half-scale. */
  predicate AxisScalesValid(d: VolumeData, a: Axis) {
    var h := d.axisHScales.At(a);
    h > 0.0 && d.axisHScalesSq.At(a) == h * h && d.axisHScalesSq.At(a) > 0.0
    && d.axisHIScales.At(a) * h == 1.0
  }

  /** The invariant of a volume: the cached squares and inverses are those of the
      half-scales, the bounding radius squared is the square of the radius, and the
      secondary axes are the two axes other than the primary one. */
  predicate ValidVolume(d: VolumeData) {
    AxisScalesValid(d, X) && AxisScalesValid(d, Y) && AxisScalesValid(d, Z)
    && d.volumeBoundingRadius >= 0.0
    && d.volumeBoundingRadiusSq == d.volumeBoundingRadius * d.volumeBoundingRadius
    && d.secondaryAxes == SecondaryOf(d.primaryAxis)
  }

  /** `(v * v) / hSq`, one term of a surface equation. */
  function Ratio(v: real, hSq: real): real
    requires hSq != 0.0
  {
    (v * v) / hSq
  }

  // ---------------------------------------------------------------------------
  // Point tests

  /** Left-hand side of the ellipsoid surface equation at a volume-space point. */
  function EllipsoidValue(d: VolumeData, p: Float3): real
    requires ValidVolume(d)
  {
    Ratio(p.x, d.axisHScalesSq.x) + Ratio(p.y, d.axisHScalesSq.y) + Ratio(p.z, d.axisHScalesSq.z)
  }

  /** Left-hand side of the cylinder's cross-section equation at a volume-space point. */
  function CrossSectionValue(d: VolumeData, p: Float3): real
    requires ValidVolume(d)
  {
    var (s0, s1) := d.secondaryAxes;
    Ratio(p.At(s0), d.axisHScalesSq.At(s0)) + Ratio(p.At(s1), d.axisHScalesSq.At(s1))
  }

  /** The primary-axis coordinate lies strictly between the two end caps. */
  predicate BetweenCaps(d: VolumeData, p: Float3) {
    var h := d.axisHScales.At(d.primaryAxis);
    -h < p.At(d.primaryAxis) && p.At(d.primaryAxis) < h
  }

  /** One coordinate lies strictly inside a box's half-extent. */
  predicate StrictlyWithin(v: real, h: real) {
    -h < v && v < h
  }

  predicate InEllipsoid(d: VolumeData, p: Float3)
    requires ValidVolume(d)
  {
    EllipsoidValue(d, p) <= 1.0
  }

  predicate InCylinder(d: VolumeData, p: Float3)
    requires ValidVolume(d)
  {
    BetweenCaps(d, p) && CrossSectionValue(d, p) <= 1.0
  }

  predicate InBox(d: VolumeData, p: Float3) {
    StrictlyWithin(p.x, d.axisHScales.x) && StrictlyWithin(p.y, d.axisHScales.y)
    && StrictlyWithin(p.z, d.axisHScales.z)
  }

  /** `Collision(d, m, p)` once `p` has been mapped into volume space: the shape test.
      A spherical ellipsoid compares the squared distance with the squared radius. */
  function PointInVolume(d: VolumeData, pi: Float3): (hit: bool)
    requires ValidVolume(d)
    ensures d.volumeType == Ellipsoid && !d.spherical ==> (hit <==> InEllipsoid(d, pi))
    ensures d.volumeType == Ellipsoid && d.spherical ==> (hit <==> pi.Dot(pi) <= d.axisHScalesSq.x)
    ensures d.volumeType == Cylinder ==> (hit <==> InCylinder(d, pi))
    ensures d.volumeType == Box ==> (hit <==> InBox(d, pi))
    ensures d.volumeType.UnknownVolume? ==> !hit
  {
    match d.volumeType
    case Ellipsoid =>
      if d.spherical then pi.Dot(pi) <= d.axisHScalesSq.x else EllipsoidValue(d, pi) <= 1.0
    case Cylinder => InCylinder(d, pi)
    case Box => InBox(d, pi)
    case UnknownVolume(_) => false
  }

  /** A collidable object as the geometry sees it: its volume, its mid-point in world
      space, and the map from world space into volume space (the inverse of the
      object's transform translated by its mid-point offset and `axisOffsets`). */
  datatype Collidable = Collidable(volume: VolumeData, midPos: Float3, toVolume: Float3 -> Float3)

  /** `Collision(unit, p)` and `Collision(feature, p)`: reject by the bounding sphere,
      accept every survivor when the volume is spherical, else run the shape test. */
  function Collision(obj: Collidable, p: Float3): (hit: bool)
    requires ValidVolume(obj.volume)
    ensures obj.midPos.Sub(p).SqLength() > obj.volume.volumeBoundingRadiusSq ==> !hit
    ensures obj.midPos.Sub(p).SqLength() <= obj.volume.volumeBoundingRadiusSq ==>
      (hit <==> obj.volume.spherical || PointInVolume(obj.volume, obj.toVolume(p)))
  {
    var d := obj.volume;
    if obj.midPos.Sub(p).SqLength() > d.volumeBoundingRadiusSq then false
    else if d.spherical then true
    else PointInVolume(d, obj.toVolume(p))
  }

  // ---------------------------------------------------------------------------
  // Segment queries

  /** `CollisionQuery`: up to two candidate hit parameters along the normalised
      direction, their points, and whether each one is a valid hit. */
  datatype Query = Query(b0: bool, b1: bool, t0: real, t1: real, p0: Float3, p1: Float3)

  /** What a segment test returns, and the record it writes through the query
      pointer (`None` when it returns without writing). */
  datatype Outcome = Outcome(hit: bool, written: Option<Query>)

  /** The record written when the segment starts inside the volume. */
  const StartInside := Outcome(true, Some(Query(true, true, 0.0, 0.0, Zero, Zero)))

  /** An early `return false` that leaves the record alone. */
  const Miss := Outcome(false, None)

  /** The caller's record after a test: `q` is `None` for a null query pointer, and a
      test writes only through a non-null pointer. */
  function Deliver(o: Outcome, q: Option<Query>): (after: Option<Query>)
    ensures q.None? ==> after.None?
    ensures o.written.None? ==> after == q
    ensures q.Some? && o.written.Some? ==> after == o.written
  {
    if q.Some? && o.written.Some? then o.written else q
  }

  /** A candidate point is no farther from the segment's start than its end is. */
  predicate WithinSegment(p: Float3, pi0: Float3, pi1: Float3) {
    p.Sub(pi0).SqLength() <= pi1.Sub(pi0).SqLength()
  }

  /** The ray direction of the cylinder and box tests, normalised in volume space. */
  function SegmentDir(pi0: Float3, pi1: Float3): Float3 {
    Normalize(pi1.Sub(pi0))
  }

  /** `a t^2 + b t + c`, the equation each curved surface is solved through. */
  datatype Quadratic = Quadratic(a: real, b: real, c: real) {
    function Discriminant(): real { b * b - 4.0 * a * c }
    function At(t: real): real { a * t * t + b * t + c }
  }

  // ---------------------------------------------------------------------------
  // Ellipsoid

  /** A volume-space point mapped into the unit-sphere space of an ellipsoid. */
  function SphereSpace(d: VolumeData, p: Float3): Float3 {
    p.Mul(d.axisHIScales)
  }

  /** The ray of an ellipsoid test in unit-sphere space: its origin and the
      normalised direction towards the segment's end. */
  function SphereRay(d: VolumeData, pi0: Float3, pi1: Float3): (Float3, Float3) {
    var pii0 := SphereSpace(d, pi0);
    (pii0, Normalize(SphereSpace(d, pi1).Sub(pii0)))
  }

  /** The ellipsoid surface along the ray, with `A` fixed at 1 because the direction
      is normalised. */
  function EllipsoidQuadratic(d: VolumeData, pi0: Float3, pi1: Float3): Quadratic {
    var (pii0, dir) := SphereRay(d, pi0, pi1);
    Quadratic(1.0, pii0.Scale(2.0).Dot(dir), pii0.Dot(pii0) - 1.0)
  }

  /** A point along the sphere-space ray, mapped back into volume space. */
  function EllipsoidPoint(d: VolumeData, pi0: Float3, pi1: Float3, t: real): Float3 {
    var (pii0, dir) := SphereRay(d, pi0, pi1);
    PointAt(pii0, dir, t).Mul(d.axisHScales)
  }

  /** `IntersectEllipsoid`. */
  function IntersectEllipsoid(d: VolumeData, pi0: Float3, pi1: Float3): (o: Outcome)
    requires ValidVolume(d)
    ensures SphereSpace(d, pi0).Dot(SphereSpace(d, pi0)) <= 1.0 ==> o == StartInside
    ensures SphereSpace(d, pi0).Dot(SphereSpace(d, pi0)) > 1.0 ==>
      (o.written.None? <==> EllipsoidQuadratic(d, pi0, pi1).Discriminant() < -(EPS as real))
    ensures o.written.None? ==> !o.hit
    ensures o.written.Some? && o != StartInside ==>
      var q := o.written.value;
      o.hit == (q.b0 || q.b1)
      && q.p0 == EllipsoidPoint(d, pi0, pi1, q.t0)
      && (q.b0 <==> q.t0 > 0.0 && WithinSegment(q.p0, pi0, pi1))
      && (q.b1 ==> q.t1 > 0.0 && WithinSegment(q.p1, pi0, pi1))
      && (EllipsoidQuadratic(d, pi0, pi1).Discriminant() >= EPS ==>
            q.p1 == EllipsoidPoint(d, pi0, pi1, q.t1) && (q.b1 <==> q.t1 > 0.0 && WithinSegment(q.p1, pi0, pi1)))
      && (EllipsoidQuadratic(d, pi0, pi1).Discriminant() < EPS ==> !q.b1 && 2.0 * q.t0 == -EllipsoidQuadratic(d, pi0, pi1).b)
  {
    var pii0 := SphereSpace(d, pi0);
    if pii0.Dot(pii0) <= 1.0 then StartInside
    else
      var quad := EllipsoidQuadratic(d, pi0, pi1);
      var D := quad.Discriminant();
      if D < -(EPS as real) then Miss
      else if D < EPS then
        var t0 := -quad.b * 0.5;
        var p0 := EllipsoidPoint(d, pi0, pi1, t0);
        var b0 := t0 > 0.0 && WithinSegment(p0, pi0, pi1);
        Outcome(b0, Some(Query(b0, false, t0, 0.0, p0, Zero)))
      else
        var rD := Sqrt(D);
        var t0 := (-quad.b + rD) * 0.5;
        var t1 := (-quad.b - rD) * 0.5;
        var p0 := EllipsoidPoint(d, pi0, pi1, t0);
        var p1 := EllipsoidPoint(d, pi0, pi1, t1);
        var b0 := t0 > 0.0 && WithinSegment(p0, pi0, pi1);
        var b1 := t1 > 0.0 && WithinSegment(p1, pi0, pi1);
        Outcome(b0 || b1, Some(Query(b0, b1, t0, t1, p0, p1)))
  }

  /** Both roots of a quadratic, written as `(-b +- r) / 2a` with `r` a square root of
      the discriminant, are zeros of it. */
  lemma RootOfQuadratic(q: Quadratic, r: real, t: real)
    requires q.a != 0.0 && r * r == q.Discriminant()
    requires t * (2.0 * q.a) == -q.b + r || t * (2.0 * q.a) == -q.b - r
    ensures q.At(t) == 0.0
  {
    var u := t * (2.0 * q.a);
    assert 4.0 * q.a * q.At(t) == u * u + 2.0 * q.b * u + 4.0 * q.a * q.c;
    assert (u + q.b) * (u + q.b) == r * r;
    assert 4.0 * q.a * q.At(t) == 0.0;
  }

  /** Scaling by the cached inverse half-scale and squaring gives the surface term. */
  lemma InverseScaledSquare(v: real, h: real, hSq: real, hi: real)
    requires h > 0.0 && hSq > 0.0 && hSq == h * h && hi * h == 1.0
    ensures (v * hi) * (v * hi) == Ratio(v, hSq)
  {
    assert (hi * hi) * hSq == (hi * h) * (hi * h);
    assert (hi * hi) * hSq == 1.0;
    assert ((v * v) * (hi * hi)) * hSq == (v * v) * ((hi * hi) * hSq);
    assert (v * hi) * (v * hi) == (v * v) * (hi * hi);
  }

  /** Scaling a unit-space coordinate back by the half-scale undoes the surface term. */
  lemma ScaledBackSquare(u: real, h: real, hSq: real)
    requires h > 0.0 && hSq > 0.0 && hSq == h * h
    ensures Ratio(u * h, hSq) == u * u
  {
    assert (u * h) * (u * h) == (u * u) * hSq;
  }

  /** In unit-sphere space the squared distance from the centre is the ellipsoid's
      surface equation. */
  lemma SphereSpaceMeasuresEllipsoid(d: VolumeData, p: Float3)
    requires ValidVolume(d)
    ensures SphereSpace(d, p).Dot(SphereSpace(d, p)) == EllipsoidValue(d, p)
  {
    InverseScaledSquare(p.x, d.axisHScales.x, d.axisHScalesSq.x, d.axisHIScales.x);
    InverseScaledSquare(p.y, d.axisHScales.y, d.axisHScalesSq.y, d.axisHIScales.y);
    InverseScaledSquare(p.z, d.axisHScales.z, d.axisHScalesSq.z, d.axisHIScales.z);
  }

  /** The ellipsoid test reports "started inside" exactly when the segment starts in
      the ellipsoid. */
  lemma EllipsoidStartInsideAgrees(d: VolumeData, pi0: Float3, pi1: Float3)
    requires ValidVolume(d)
    ensures IntersectEllipsoid(d, pi0, pi1) == StartInside <==> InEllipsoid(d, pi0)
  {
    SphereSpaceMeasuresEllipsoid(d, pi0);
  }

  /** A point given in unit-sphere space and mapped back lies on the ellipsoid surface
      exactly when it lies on the unit sphere. */
  lemma ScaledBackMeasuresEllipsoid(d: VolumeData, u: Float3)
    requires ValidVolume(d)
    ensures EllipsoidValue(d, u.Mul(d.axisHScales)) == u.SqLength()
  {
    ScaledBackSquare(u.x, d.axisHScales.x, d.axisHScalesSq.x);
    ScaledBackSquare(u.y, d.axisHScales.y, d.axisHScalesSq.y);
    ScaledBackSquare(u.z, d.axisHScales.z, d.axisHScalesSq.z);
  }

  /** With a unit direction, the squared distance from the sphere's centre along the
      ray is the ellipsoid quadratic plus one. */
  lemma EllipsoidQuadraticAlongRay(d: VolumeData, pi0: Float3, pi1: Float3, t: real)
    requires SphereRay(d, pi0, pi1).1.SqLength() == 1.0
    ensures PointAt(SphereRay(d, pi0, pi1).0, SphereRay(d, pi0, pi1).1, t).SqLength()
            == EllipsoidQuadratic(d, pi0, pi1).At(t) + 1.0
  {
    var (pii0, dir) := SphereRay(d, pi0, pi1);
    UnitRayQuadratic(pii0, dir, t);
  }

  lemma UnitRayQuadratic(o: Float3, dir: Float3, t: real)
    requires dir.SqLength() == 1.0
    ensures PointAt(o, dir, t).SqLength() == Quadratic(1.0, o.Scale(2.0).Dot(dir), o.Dot(o) - 1.0).At(t) + 1.0
  {
    SqLengthAlongRay(o, dir, t);
    var b := o.Scale(2.0).Dot(dir);
    assert b == 2.0 * o.Dot(dir);
    assert Quadratic(1.0, b, o.Dot(o) - 1.0).At(t) == t * t + b * t + (o.Dot(o) - 1.0);
  }

  /** When the segment has length in sphere space and the discriminant is clear of zero,
      both candidates of the ellipsoid test lie on the ellipsoid's surface. */
  lemma EllipsoidRootsOnSurface(d: VolumeData, pi0: Float3, pi1: Float3)
    requires SqrtLaw(Sqrt) && ValidVolume(d)
    requires SphereSpace(d, pi1).Sub(SphereSpace(d, pi0)).SqLength() > 0.0
    requires SphereSpace(d, pi0).Dot(SphereSpace(d, pi0)) > 1.0
    requires EllipsoidQuadratic(d, pi0, pi1).Discriminant() >= EPS
    ensures IntersectEllipsoid(d, pi0, pi1).written.Some?
    ensures EllipsoidValue(d, IntersectEllipsoid(d, pi0, pi1).written.value.p0) == 1.0
    ensures EllipsoidValue(d, IntersectEllipsoid(d, pi0, pi1).written.value.p1) == 1.0
  {
    var (pii0, dir) := SphereRay(d, pi0, pi1);
    NormalizeUnitLength(SphereSpace(d, pi1).Sub(pii0));
    var quad := EllipsoidQuadratic(d, pi0, pi1);
    var rD := Sqrt(quad.Discriminant());
    assert rD * rD == quad.Discriminant();
    var q := IntersectEllipsoid(d, pi0, pi1).written.value;
    assert q.t0 == (-quad.b + rD) * 0.5 && q.t1 == (-quad.b - rD) * 0.5;
    RootOfQuadratic(quad, rD, q.t0);
    RootOfQuadratic(quad, rD, q.t1);
    EllipsoidQuadraticAlongRay(d, pi0, pi1, q.t0);
    EllipsoidQuadraticAlongRay(d, pi0, pi1, q.t1);
    ScaledBackMeasuresEllipsoid(d, PointAt(pii0, dir, q.t0));
    ScaledBackMeasuresEllipsoid(d, PointAt(pii0, dir, q.t1));
  }

  // ---------------------------------------------------------------------------
  // Cylinder

  /** The start point in unit-cylinder space: the secondary coordinates are divided by
      their half-scales, the primary coordinate is kept as it is. */
  function CylinderSpace(d: VolumeData, p: Float3): Float3 {
    var hi := d.axisHIScales;
    match d.primaryAxis
    case X => Float3(p.x, p.y * hi.y, p.z * hi.z)
    case Y => Float3(p.x * hi.x, p.y, p.z * hi.z)
    case Z => Float3(p.x * hi.x, p.y * hi.y, p.z)
  }

  /** The early-exit test of the cylinder solver. */
  predicate CylinderStartsInside(d: VolumeData, pi0: Float3) {
    var pii0 := CylinderSpace(d, pi0);
    BetweenCaps(d, pi0) && pii0.Dot(pii0) <= 1.0
  }

  /** `(2 p v) / hSq`, one term of the linear coefficient. */
  function CrossTerm(p: real, v: real, hSq: real): real
    requires hSq != 0.0
  {
    (2.0 * (p * v)) / hSq
  }

  /** The 2-D ellipse of the cross-section along the ray, over the two axes other than
      the primary one. */
  function CylinderQuadratic(d: VolumeData, pi0: Float3, dir: Float3): Quadratic
    requires ValidVolume(d)
  {
    var (s0, s1) := SecondaryOf(d.primaryAxis);
    var hSq0 := d.axisHScalesSq.At(s0);
    var hSq1 := d.axisHScalesSq.At(s1);
    Quadratic(
      Ratio(dir.At(s0), hSq0) + Ratio(dir.At(s1), hSq1),
      CrossTerm(pi0.At(s0), dir.At(s0), hSq0) + CrossTerm(pi0.At(s1), dir.At(s1), hSq1),
      Ratio(pi0.At(s0), hSq0) + Ratio(pi0.At(s1), hSq1) - 1.0)
  }

  /** The two end-cap plane normals, `+e` and `-e` along the primary axis. */
  function CapNormals(a: Axis): (Float3, Float3) {
    match a
    case X => (Float3(1.0, 0.0, 0.0), Float3(-1.0, 0.0, 0.0))
    case Y => (Float3(0.0, 1.0, 0.0), Float3(0.0, -1.0, 0.0))
    case Z => (Float3(0.0, 0.0, 1.0), Float3(0.0, 0.0, -1.0))
  }

  /** `-(n . pi0 + offset) / (n . dir)`, the ray parameter where it meets a cap plane.
      A zero denominator yields 0, which no `t > 0` test accepts. */
  function CapParam(n: Float3, pi0: Float3, dir: Float3, offset: real): real {
    var den := n.Dot(dir);
    if den == 0.0 then 0.0 else Quotient(-(n.Dot(pi0) + offset), den)
  }

  /** The parameters computed for the two caps: the first plane with offset `+h`, the
      second with offset `-h`. */
  function CapParams(d: VolumeData, pi0: Float3, dir: Float3): (real, real) {
    var (n0, n1) := CapNormals(d.primaryAxis);
    var h := d.axisHScales.At(d.primaryAxis);
    (CapParam(n0, pi0, dir, h), CapParam(n1, pi0, dir, -h))
  }

  /** A cap candidate: ahead of the start and inside the cap's ellipse. */
  predicate CapAccepts(d: VolumeData, t: real, p: Float3)
    requires ValidVolume(d)
  {
    t > 0.0 && CrossSectionValue(d, p) <= 1.0
  }

  /** A side candidate: between the caps and not beyond the segment's end (the engine
      does not ask for `t > 0` here). */
  predicate SideAccepts(d: VolumeData, p: Float3, pi0: Float3, pi1: Float3) {
    BetweenCaps(d, p) && WithinSegment(p, pi0, pi1)
  }

  /** The candidates of the one-root case. The root is taken as `-D / 2A`; when `A` is
      zero that quotient is not a number and its between-caps test fails. Otherwise
      both cap planes are tried, without a segment-length test. */
  function CylinderTangent(d: VolumeData, pi0: Float3, pi1: Float3): (q: Query)
    requires ValidVolume(d)
    ensures q.b0 ==> SideAccepts(d, q.p0, pi0, pi1) || CapAccepts(d, q.t0, q.p0)
    ensures q.b1 ==> CapAccepts(d, q.t1, q.p1)
    ensures q.p0 == PointAt(pi0, SegmentDir(pi0, pi1), q.t0)
    ensures var dir := SegmentDir(pi0, pi1);
      var quad := CylinderQuadratic(d, pi0, dir);
      var D := quad.Discriminant();
      if quad.a != 0.0 && BetweenCaps(d, PointAt(pi0, dir, Quotient(-D, 2.0 * quad.a))) then
        q.t0 == Quotient(-D, 2.0 * quad.a) && !q.b1 && (q.b0 <==> WithinSegment(q.p0, pi0, pi1))
      else
        (q.t0, q.t1) == CapParams(d, pi0, dir) && q.p1 == PointAt(pi0, dir, q.t1)
        && (q.b0 <==> CapAccepts(d, q.t0, q.p0)) && (q.b1 <==> CapAccepts(d, q.t1, q.p1))
  {
    var dir := SegmentDir(pi0, pi1);
    var quad := CylinderQuadratic(d, pi0, dir);
    var D := quad.Discriminant();
    if quad.a != 0.0 && BetweenCaps(d, PointAt(pi0, dir, Quotient(-D, 2.0 * quad.a))) then
      var t0 := Quotient(-D, 2.0 * quad.a);
      var p0 := PointAt(pi0, dir, t0);
      Query(WithinSegment(p0, pi0, pi1), false, t0, 0.0, p0, Zero)
    else
      var (t0, t1) := CapParams(d, pi0, dir);
      var p0 := PointAt(pi0, dir, t0);
      var p1 := PointAt(pi0, dir, t1);
      Query(CapAccepts(d, t0, p0), CapAccepts(d, t1, p1), t0, t1, p0, p1)
  }

  /** The candidates of the two-root case: the two side points, each valid when it is
      between the caps and not beyond the segment's end. */
  function CylinderSides(d: VolumeData, pi0: Float3, pi1: Float3): (q: Query)
    requires ValidVolume(d)
    requires CylinderQuadratic(d, pi0, SegmentDir(pi0, pi1)).a != 0.0
    ensures q.b0 <==> SideAccepts(d, q.p0, pi0, pi1)
    ensures q.b1 <==> SideAccepts(d, q.p1, pi0, pi1)
    ensures q.p0 == PointAt(pi0, SegmentDir(pi0, pi1), q.t0)
    ensures q.p1 == PointAt(pi0, SegmentDir(pi0, pi1), q.t1)
  {
    var dir := SegmentDir(pi0, pi1);
    var quad := CylinderQuadratic(d, pi0, dir);
    var rD := Sqrt(quad.Discriminant());
    var t0 := Quotient(-quad.b + rD, 2.0 * quad.a);
    var t1 := Quotient(-quad.b - rD, 2.0 * quad.a);
    var p0 := PointAt(pi0, dir, t0);
    var p1 := PointAt(pi0, dir, t1);
    Query(SideAccepts(d, p0, pi0, pi1), SideAccepts(d, p1, pi0, pi1), t0, t1, p0, p1)
  }

  /** The fallback when neither candidate is valid: both cap planes again, now also
      bounded by the segment's length. */
  function CylinderCaps(d: VolumeData, pi0: Float3, pi1: Float3): (q: Query)
    requires ValidVolume(d)
    ensures q.b0 <==> CapAccepts(d, q.t0, q.p0) && WithinSegment(q.p0, pi0, pi1)
    ensures q.b1 <==> CapAccepts(d, q.t1, q.p1) && WithinSegment(q.p1, pi0, pi1)
    ensures q.p0 == PointAt(pi0, SegmentDir(pi0, pi1), q.t0)
    ensures q.p1 == PointAt(pi0, SegmentDir(pi0, pi1), q.t1)
  {
    var dir := SegmentDir(pi0, pi1);
    var (t0, t1) := CapParams(d, pi0, dir);
    var p0 := PointAt(pi0, dir, t0);
    var p1 := PointAt(pi0, dir, t1);
    Query(CapAccepts(d, t0, p0) && WithinSegment(p0, pi0, pi1),
          CapAccepts(d, t1, p1) && WithinSegment(p1, pi0, pi1), t0, t1, p0, p1)
  }

  lemma RatioNonNegative(v: real, hSq: real)
    requires hSq > 0.0
    ensures Ratio(v, hSq) >= 0.0
  {
    SquareNonNegative(v);
  }

  lemma RatioZero(v: real, hSq: real)
    requires hSq > 0.0 && Ratio(v, hSq) == 0.0
    ensures v == 0.0
  {
    assert v * v == Ratio(v, hSq) * hSq;
    SquareZero(v);
  }

  /** A ray with no movement across the cross-section has a zero discriminant, so the
      two-root case always has `A != 0`. */
  lemma CylinderFlatQuadratic(d: VolumeData, pi0: Float3, dir: Float3)
    requires ValidVolume(d)
    ensures CylinderQuadratic(d, pi0, dir).a == 0.0 ==>
      CylinderQuadratic(d, pi0, dir).b == 0.0 && CylinderQuadratic(d, pi0, dir).Discriminant() == 0.0
  {
    if CylinderQuadratic(d, pi0, dir).a != 0.0 {
      return;
    }
    var (s0, s1) := SecondaryOf(d.primaryAxis);
    var hSq0 := d.axisHScalesSq.At(s0);
    var hSq1 := d.axisHScalesSq.At(s1);
    assert hSq0 > 0.0 && hSq1 > 0.0 by {
      assert AxisScalesValid(d, s0) && AxisScalesValid(d, s1);
    }
    RatioNonNegative(dir.At(s0), hSq0);
    RatioNonNegative(dir.At(s1), hSq1);
    RatioZero(dir.At(s0), hSq0);
    RatioZero(dir.At(s1), hSq1);
  }

  /** The candidates before the cap fallback: the tangent case when the discriminant
      is within `EPS` of zero, the two side roots when it is larger. */
  function CylinderCandidates(d: VolumeData, pi0: Float3, pi1: Float3): (q: Query)
    requires ValidVolume(d)
    ensures q.p0 == PointAt(pi0, SegmentDir(pi0, pi1), q.t0)
    ensures q.b0 ==> SideAccepts(d, q.p0, pi0, pi1) || CapAccepts(d, q.t0, q.p0)
    ensures q.b1 ==> SideAccepts(d, q.p1, pi0, pi1) || CapAccepts(d, q.t1, q.p1)
  {
    var quad := CylinderQuadratic(d, pi0, SegmentDir(pi0, pi1));
    if quad.Discriminant() < EPS then CylinderTangent(d, pi0, pi1)
    else
      CylinderFlatQuadratic(d, pi0, SegmentDir(pi0, pi1));
      CylinderSides(d, pi0, pi1)
  }

  /** `IntersectCylinder`: the early exit, the discriminant reject, then the tangent or
      two-root candidates, replaced by the cap fallback when neither is valid. */
  function IntersectCylinder(d: VolumeData, pi0: Float3, pi1: Float3): (o: Outcome)
    requires ValidVolume(d)
    ensures CylinderStartsInside(d, pi0) ==> o == StartInside
    ensures !CylinderStartsInside(d, pi0) ==>
      (o.written.None? <==> CylinderQuadratic(d, pi0, SegmentDir(pi0, pi1)).Discriminant() < -(EPS as real))
    ensures o.written.None? ==> !o.hit
    ensures !CylinderStartsInside(d, pi0) && o.written.Some? ==>
      var q := o.written.value;
      o.hit == (q.b0 || q.b1)
      && q.p0 == PointAt(pi0, SegmentDir(pi0, pi1), q.t0)
      && (q.b0 ==> SideAccepts(d, q.p0, pi0, pi1) || CapAccepts(d, q.t0, q.p0))
      && (q.b1 ==> SideAccepts(d, q.p1, pi0, pi1) || CapAccepts(d, q.t1, q.p1))
  {
    if CylinderStartsInside(d, pi0) then StartInside
    else
      var quad := CylinderQuadratic(d, pi0, SegmentDir(pi0, pi1));
      var D := quad.Discriminant();
      if D < -(EPS as real) then Miss
      else
        var first := CylinderCandidates(d, pi0, pi1);
        var q := if !first.b0 && !first.b1 then CylinderCaps(d, pi0, pi1) else first;
        Outcome(q.b0 || q.b1, Some(q))
  }

  /** The early exit's dot product is the primary coordinate's square plus the
      cross-section value. */
  lemma CylinderSpaceDot(d: VolumeData, p: Float3)
    requires ValidVolume(d)
    ensures CylinderSpace(d, p).Dot(CylinderSpace(d, p))
            == p.At(d.primaryAxis) * p.At(d.primaryAxis) + CrossSectionValue(d, p)
  {
    var h := d.axisHScales;
    var hSq := d.axisHScalesSq;
    var hi := d.axisHIScales;
    match d.primaryAxis
    case X =>
      assert AxisScalesValid(d, Y) && AxisScalesValid(d, Z);
      InverseScaledSquare(p.y, h.y, hSq.y, hi.y);
      InverseScaledSquare(p.z, h.z, hSq.z, hi.z);
    case Y =>
      assert AxisScalesValid(d, X) && AxisScalesValid(d, Z);
      InverseScaledSquare(p.x, h.x, hSq.x, hi.x);
      InverseScaledSquare(p.z, h.z, hSq.z, hi.z);
    case Z =>
      assert AxisScalesValid(d, X) && AxisScalesValid(d, Y);
      InverseScaledSquare(p.x, h.x, hSq.x, hi.x);
      InverseScaledSquare(p.y, h.y, hSq.y, hi.y);
  }

  /** The cylinder's early exit only fires for points inside the cylinder. */
  lemma CylinderStartInsideSound(d: VolumeData, p: Float3)
    requires ValidVolume(d)
    requires CylinderStartsInside(d, p)
    ensures InCylinder(d, p)
  {
    CylinderStartsInsideMeasure(d, p);
    SquareNonNegative(p.At(d.primaryAxis));
  }

  /** Both cap-plane parameters are the same number: the second normal is negated and
      so is its offset, which describes the first plane again. The `+h` cap is never
      tried. */
  lemma CapPlanesCoincide(d: VolumeData, pi0: Float3, dir: Float3)
    ensures CapParams(d, pi0, dir).0 == CapParams(d, pi0, dir).1
  {
  }

  /** When the ray is not parallel to the caps, the cap candidate lies on the `-h`
      plane. */
  lemma CapCandidateOnNearPlane(d: VolumeData, pi0: Float3, dir: Float3)
    requires dir.At(d.primaryAxis) != 0.0
    ensures PointAt(pi0, dir, CapParams(d, pi0, dir).0).At(d.primaryAxis)
            == -d.axisHScales.At(d.primaryAxis)
  {
    var a := d.primaryAxis;
    var (n0, _) := CapNormals(a);
    QuotientTimes(-(n0.Dot(pi0) + d.axisHScales.At(a)), n0.Dot(dir));
  }

  /** One coordinate's share of the cross-section equation along the ray. */
  lemma RatioAlongRay(p: real, v: real, hSq: real, t: real)
    requires hSq != 0.0
    ensures Ratio(p + v * t, hSq) == Ratio(p, hSq) + t * CrossTerm(p, v, hSq) + t * t * Ratio(v, hSq)
  {
    assert (p + v * t) * (p + v * t) == p * p + t * (2.0 * (p * v)) + t * t * (v * v);
  }

  lemma CoordinateAlongRay(pi0: Float3, dir: Float3, t: real, a: Axis)
    ensures PointAt(pi0, dir, t).At(a) == pi0.At(a) + dir.At(a) * t
  {
  }

  /** A quadratic whose coefficients are sums, evaluated term by term. */
  lemma SumOfTwoQuadratics(q: Quadratic, a0: real, a1: real, b0: real, b1: real, c0: real, c1: real, t: real)
    requires q == Quadratic(a0 + a1, b0 + b1, c0 + c1 - 1.0)
    ensures q.At(t) == (c0 + t * b0 + t * t * a0) + (c1 + t * b1 + t * t * a1) - 1.0
  {
    assert (a0 + a1) * t * t == t * t * a0 + t * t * a1;
    assert (b0 + b1) * t == t * b0 + t * b1;
  }

  /** The cross-section quadratic over two coordinates, evaluated at `t`, is the
      cross-section sum at the moved coordinates `x0`, `x1`, minus one. */
  lemma CrossSectionQuadraticAt(q: Quadratic, c: real, p0: real, p1: real, v0: real, v1: real,
                                hSq0: real, hSq1: real, t: real, x0: real, x1: real)
    requires hSq0 != 0.0 && hSq1 != 0.0
    requires q == Quadratic(Ratio(v0, hSq0) + Ratio(v1, hSq1), CrossTerm(p0, v0, hSq0) + CrossTerm(p1, v1, hSq1),
                            Ratio(p0, hSq0) + Ratio(p1, hSq1) - 1.0)
    requires x0 == p0 + v0 * t && x1 == p1 + v1 * t
    requires c == Ratio(x0, hSq0) + Ratio(x1, hSq1)
    ensures q.At(t) == c - 1.0
  {
    RatioAlongRay(p0, v0, hSq0, t);
    RatioAlongRay(p1, v1, hSq1, t);
    SumOfTwoQuadratics(q, Ratio(v0, hSq0), Ratio(v1, hSq1), CrossTerm(p0, v0, hSq0), CrossTerm(p1, v1, hSq1),
      Ratio(p0, hSq0), Ratio(p1, hSq1), t);
  }

  /** The cylinder quadratic at `t` is the cross-section equation at the ray's point,
      minus one. */
  lemma CylinderQuadraticAlongRay(d: VolumeData, pi0: Float3, dir: Float3, t: real)
    requires ValidVolume(d)
    ensures CylinderQuadratic(d, pi0, dir).At(t) == CrossSectionValue(d, PointAt(pi0, dir, t)) - 1.0
  {
    var (s0, s1) := SecondaryOf(d.primaryAxis);
    assert AxisScalesValid(d, s0) && AxisScalesValid(d, s1);
    var p := PointAt(pi0, dir, t);
    CoordinateAlongRay(pi0, dir, t, s0);
    CoordinateAlongRay(pi0, dir, t, s1);
    CrossSectionQuadraticAt(CylinderQuadratic(d, pi0, dir), CrossSectionValue(d, p),
      pi0.At(s0), pi0.At(s1), dir.At(s0), dir.At(s1), d.axisHScalesSq.At(s0), d.axisHScalesSq.At(s1),
      t, p.At(s0), p.At(s1));
  }

  /** Both quotients `(-b +- r) / 2a` are zeros of the quadratic when `r` squares to
      its discriminant. */
  lemma QuadraticRoots(quad: Quadratic, r: real)
    requires quad.a != 0.0 && r * r == quad.Discriminant()
    ensures quad.At(Quotient(-quad.b + r, 2.0 * quad.a)) == 0.0
    ensures quad.At(Quotient(-quad.b - r, 2.0 * quad.a)) == 0.0
  {
    QuotientTimes(-quad.b + r, 2.0 * quad.a);
    QuotientTimes(-quad.b - r, 2.0 * quad.a);
    RootOfQuadratic(quad, r, Quotient(-quad.b + r, 2.0 * quad.a));
    RootOfQuadratic(quad, r, Quotient(-quad.b - r, 2.0 * quad.a));
  }

  /** A zero of the cylinder quadratic is a point on the curved surface. */
  lemma RootOnCrossSection(d: VolumeData, pi0: Float3, dir: Float3, t: real)
    requires ValidVolume(d) && CylinderQuadratic(d, pi0, dir).At(t) == 0.0
    ensures CrossSectionValue(d, PointAt(pi0, dir, t)) == 1.0
  {
    CylinderQuadraticAlongRay(d, pi0, dir, t);
  }

  /** Both roots `(-b +- r) / 2a` of the cylinder quadratic, for an `r` that squares to
      its discriminant, give points on the curved surface. */
  lemma RootsOnCrossSection(d: VolumeData, pi0: Float3, dir: Float3, quad: Quadratic, rD: real)
    requires ValidVolume(d) && CylinderQuadratic(d, pi0, dir) == quad
    requires quad.a != 0.0 && rD * rD == quad.Discriminant()
    ensures CrossSectionValue(d, PointAt(pi0, dir, Quotient(-quad.b + rD, 2.0 * quad.a))) == 1.0
    ensures CrossSectionValue(d, PointAt(pi0, dir, Quotient(-quad.b - rD, 2.0 * quad.a))) == 1.0
  {
    QuadraticRoots(quad, rD);
    RootOnCrossSection(d, pi0, dir, Quotient(-quad.b + rD, 2.0 * quad.a));
    RootOnCrossSection(d, pi0, dir, Quotient(-quad.b - rD, 2.0 * quad.a));
  }

  /** Given the law of the square root, both side candidates of the two-root case lie on
      the cylinder's curved surface. */
  lemma CylinderSideRootsOnSurface(d: VolumeData, pi0: Float3, pi1: Float3)
    requires SqrtLaw(Sqrt) && ValidVolume(d)
    requires CylinderQuadratic(d, pi0, SegmentDir(pi0, pi1)).Discriminant() >= EPS
    ensures CylinderQuadratic(d, pi0, SegmentDir(pi0, pi1)).a != 0.0
    ensures CrossSectionValue(d, CylinderSides(d, pi0, pi1).p0) == 1.0
    ensures CrossSectionValue(d, CylinderSides(d, pi0, pi1).p1) == 1.0
  {
    var dir := SegmentDir(pi0, pi1);
    var quad := CylinderQuadratic(d, pi0, dir);
    CylinderFlatQuadratic(d, pi0, dir);
    var rD := Sqrt(quad.Discriminant());
    RootsOnCrossSection(d, pi0, dir, quad, rD);
    CylinderSidesAt(d, pi0, pi1, dir, quad, rD);
  }

  /** A started-outside test whose first candidates include a valid one reports them. */
  lemma CylinderReportsCandidates(d: VolumeData, pi0: Float3, pi1: Float3, q: Query)
    requires ValidVolume(d) && !CylinderStartsInside(d, pi0)
    requires CylinderQuadratic(d, pi0, SegmentDir(pi0, pi1)).Discriminant() >= -(EPS as real)
    requires CylinderCandidates(d, pi0, pi1) == q && (q.b0 || q.b1)
    ensures IntersectCylinder(d, pi0, pi1) == Outcome(true, Some(q))
  {
  }

  /** A started-outside test whose first candidates are both invalid reports the cap
      fallback. */
  lemma CylinderReportsCaps(d: VolumeData, pi0: Float3, pi1: Float3, q: Query)
    requires ValidVolume(d) && !CylinderStartsInside(d, pi0)
    requires CylinderQuadratic(d, pi0, SegmentDir(pi0, pi1)).Discriminant() >= -(EPS as real)
    requires !CylinderCandidates(d, pi0, pi1).b0 && !CylinderCandidates(d, pi0, pi1).b1
    requires CylinderCaps(d, pi0, pi1) == q
    ensures IntersectCylinder(d, pi0, pi1) == Outcome(q.b0 || q.b1, Some(q))
  {
  }

  lemma CylinderTwoRootStage(d: VolumeData, pi0: Float3, pi1: Float3)
    requires ValidVolume(d)
    requires CylinderQuadratic(d, pi0, SegmentDir(pi0, pi1)).Discriminant() >= EPS
    ensures CylinderQuadratic(d, pi0, SegmentDir(pi0, pi1)).a != 0.0
    ensures CylinderCandidates(d, pi0, pi1) == CylinderSides(d, pi0, pi1)
  {
    CylinderFlatQuadratic(d, pi0, SegmentDir(pi0, pi1));
  }

  /** The one-root case with `A == 0` goes straight to the cap planes. */
  lemma CylinderFlatTangent(d: VolumeData, pi0: Float3, pi1: Float3, t0: real, t1: real)
    requires ValidVolume(d)
    requires CylinderQuadratic(d, pi0, SegmentDir(pi0, pi1)).a == 0.0
    requires CapParams(d, pi0, SegmentDir(pi0, pi1)) == (t0, t1)
    ensures CylinderTangent(d, pi0, pi1)
            == Query(CapAccepts(d, t0, PointAt(pi0, SegmentDir(pi0, pi1), t0)),
                     CapAccepts(d, t1, PointAt(pi0, SegmentDir(pi0, pi1), t1)),
                     t0, t1, PointAt(pi0, SegmentDir(pi0, pi1), t0), PointAt(pi0, SegmentDir(pi0, pi1), t1))
  {
  }

  lemma CylinderTangentStage(d: VolumeData, pi0: Float3, pi1: Float3)
    requires ValidVolume(d)
    requires CylinderQuadratic(d, pi0, SegmentDir(pi0, pi1)).Discriminant() < EPS
    ensures CylinderCandidates(d, pi0, pi1) == CylinderTangent(d, pi0, pi1)
  {
  }

  /** The early exit divides the secondary coordinates by their half-scales but keeps
      the primary one as it is: a start passes when the square of its primary
      coordinate and its cross-section value add up to at most one. */
  lemma CylinderStartsInsideMeasure(d: VolumeData, p: Float3)
    requires ValidVolume(d)
    ensures CylinderStartsInside(d, p) <==>
      BetweenCaps(d, p) && p.At(d.primaryAxis) * p.At(d.primaryAxis) + CrossSectionValue(d, p) <= 1.0
  {
    CylinderSpaceDot(d, p);
  }

  /** So a start inside the cylinder but more than one unit from its centre along the
      primary axis is not caught by the early exit, and the test goes on to the
      surface candidates as if the segment started outside. */
  lemma CylinderEarlyExitMissesInside(d: VolumeData, p: Float3)
    requires ValidVolume(d)
    requires p.At(d.primaryAxis) * p.At(d.primaryAxis) > 1.0
    ensures !CylinderStartsInside(d, p)
  {
    CylinderStartsInsideMeasure(d, p);
    var (s0, s1) := d.secondaryAxes;
    assert AxisScalesValid(d, s0) && AxisScalesValid(d, s1);
    RatioNonNegative(p.At(s0), d.axisHScalesSq.At(s0));
    RatioNonNegative(p.At(s1), d.axisHScalesSq.At(s1));
  }

  /** With a zero discriminant and `A != 0`, the vertex `-B / 2A` is a root. */
  lemma VertexRoot(quad: Quadratic, t: real)
    requires quad.a != 0.0 && quad.Discriminant() == 0.0
    requires t * (2.0 * quad.a) == -quad.b
    ensures quad.At(t) == 0.0
  {
    var u := t * (2.0 * quad.a);
    assert (4.0 * quad.a) * quad.At(t) == u * u + 2.0 * quad.b * u + 4.0 * quad.a * quad.c;
    assert (4.0 * quad.a) * quad.At(t) == 0.0;
    ZeroProduct(4.0 * quad.a, quad.At(t));
  }

  /** With a zero discriminant and `A != 0`, `C` is zero exactly when `B` is. */
  lemma DoubleRootAtZero(quad: Quadratic)
    requires quad.a != 0.0 && quad.Discriminant() == 0.0
    ensures quad.c == 0.0 <==> quad.b == 0.0
  {
    if quad.c == 0.0 {
      SquareZero(quad.b);
    }
  }

  /** The one-root case takes its parameter from the discriminant, `-D / 2A`, where the
      ray grazes the side at `-B / 2A`. When the discriminant is exactly zero the
      parameter is 0, so a start between the caps is itself reported as the hit; the
      grazing point is on the surface, but the start is on it only when `B` is zero,
      that is when the start is the grazing point. */
  lemma CylinderTangentReportsStart(d: VolumeData, pi0: Float3, pi1: Float3)
    requires ValidVolume(d) && !CylinderStartsInside(d, pi0) && BetweenCaps(d, pi0)
    requires CylinderQuadratic(d, pi0, SegmentDir(pi0, pi1)).a != 0.0
    requires CylinderQuadratic(d, pi0, SegmentDir(pi0, pi1)).Discriminant() == 0.0
    ensures IntersectCylinder(d, pi0, pi1) == Outcome(true, Some(Query(true, false, 0.0, 0.0, pi0, Zero)))
    ensures var quad := CylinderQuadratic(d, pi0, SegmentDir(pi0, pi1));
      CrossSectionValue(d, PointAt(pi0, SegmentDir(pi0, pi1), Quotient(-quad.b, 2.0 * quad.a))) == 1.0
      && (CrossSectionValue(d, pi0) == 1.0 <==> Quotient(-quad.b, 2.0 * quad.a) == 0.0)
  {
    var dir := SegmentDir(pi0, pi1);
    var quad := CylinderQuadratic(d, pi0, dir);
    assert Quotient(-quad.Discriminant(), 2.0 * quad.a) == 0.0;
    assert PointAt(pi0, dir, 0.0) == pi0;
    SquareNonNegative(pi1.x - pi0.x);
    SquareNonNegative(pi1.y - pi0.y);
    SquareNonNegative(pi1.z - pi0.z);
    assert WithinSegment(pi0, pi0, pi1);
    CylinderTangentStage(d, pi0, pi1);
    var t := Quotient(-quad.b, 2.0 * quad.a);
    QuotientTimes(-quad.b, 2.0 * quad.a);
    VertexRoot(quad, t);
    CylinderQuadraticAlongRay(d, pi0, dir, t);
    CylinderQuadraticAlongRay(d, pi0, dir, 0.0);
    assert PointAt(pi0, dir, 0.0) == pi0;
    DoubleRootAtZero(quad);
  }

  /** The squared distance travelled along a ray. */
  lemma DistanceAlongRay(pi0: Float3, dir: Float3, t: real)
    ensures PointAt(pi0, dir, t).Sub(pi0).SqLength() == t * t * dir.SqLength()
  {
    assert PointAt(pi0, dir, t).Sub(pi0) == dir.Scale(t);
    assert (dir.x * t) * (dir.x * t) == t * t * (dir.x * dir.x);
    assert (dir.y * t) * (dir.y * t) == t * t * (dir.y * dir.y);
    assert (dir.z * t) * (dir.z * t) == t * t * (dir.z * dir.z);
  }

  /** A point along the unit direction is within the segment when its parameter's
      square is at most the segment's squared length. */
  lemma SideAcceptsByDistance(d: VolumeData, pi0: Float3, pi1: Float3, t: real)
    requires SqrtLaw(Sqrt) && pi1.Sub(pi0).SqLength() > 0.0
    ensures SideAccepts(d, PointAt(pi0, SegmentDir(pi0, pi1), t), pi0, pi1)
            <==> BetweenCaps(d, PointAt(pi0, SegmentDir(pi0, pi1), t)) && t * t <= pi1.Sub(pi0).SqLength()
  {
    NormalizeUnitLength(pi1.Sub(pi0));
    DistanceAlongRay(pi0, SegmentDir(pi0, pi1), t);
  }

  /** The two-root case accepts a side point by its distance from the start alone,
      whichever way along the ray it lies: a point behind the start passes as one
      ahead of it does. */
  lemma CylinderSideIgnoresDirection(d: VolumeData, pi0: Float3, pi1: Float3)
    requires SqrtLaw(Sqrt) && ValidVolume(d)
    requires pi1.Sub(pi0).SqLength() > 0.0
    requires CylinderQuadratic(d, pi0, SegmentDir(pi0, pi1)).a != 0.0
    ensures var q := CylinderSides(d, pi0, pi1);
      (q.b0 <==> BetweenCaps(d, q.p0) && q.t0 * q.t0 <= pi1.Sub(pi0).SqLength())
      && (q.b1 <==> BetweenCaps(d, q.p1) && q.t1 * q.t1 <= pi1.Sub(pi0).SqLength())
  {
    var q := CylinderSides(d, pi0, pi1);
    SideAcceptsByDistance(d, pi0, pi1, q.t0);
    SideAcceptsByDistance(d, pi0, pi1, q.t1);
  }

  /** Hence a segment that starts outside the cylinder and runs away from it is
      reported as hitting it behind its start, when the near side point lies between
      the caps no farther back than the segment is long. */
  lemma CylinderHitsBehindStart(d: VolumeData, pi0: Float3, pi1: Float3)
    requires SqrtLaw(Sqrt) && ValidVolume(d) && !CylinderStartsInside(d, pi0)
    requires pi1.Sub(pi0).SqLength() > 0.0
    requires CylinderQuadratic(d, pi0, SegmentDir(pi0, pi1)).Discriminant() >= EPS
    requires CylinderQuadratic(d, pi0, SegmentDir(pi0, pi1)).a != 0.0
    requires var q := CylinderSides(d, pi0, pi1);
      q.t0 < 0.0 && BetweenCaps(d, q.p0) && q.t0 * q.t0 <= pi1.Sub(pi0).SqLength()
    ensures IntersectCylinder(d, pi0, pi1).hit
    ensures IntersectCylinder(d, pi0, pi1).written == Some(CylinderSides(d, pi0, pi1))
    ensures IntersectCylinder(d, pi0, pi1).written.value.t0 < 0.0
  {
    CylinderSideIgnoresDirection(d, pi0, pi1);
    CylinderTwoRootStage(d, pi0, pi1);
    CylinderReportsCandidates(d, pi0, pi1, CylinderSides(d, pi0, pi1));
  }

  /** A ray parallel to the caps meets no cap plane. The engine's division by zero then
      yields an infinite or undefined parameter whose point fails the cross-section
      test; the model yields 0, which fails `t > 0`: either way no cap candidate is
      valid. */
  lemma CapParallelNeverAccepted(d: VolumeData, pi0: Float3, pi1: Float3)
    requires ValidVolume(d)
    requires SegmentDir(pi0, pi1).At(d.primaryAxis) == 0.0
    ensures CapParams(d, pi0, SegmentDir(pi0, pi1)) == (0.0, 0.0)
    ensures !CylinderCaps(d, pi0, pi1).b0 && !CylinderCaps(d, pi0, pi1).b1
  {
  }

  // ---------------------------------------------------------------------------
  // Concrete cylinder cases

  /** A cylinder of radius 3 and half-height 5 standing on the y axis. */
  const ScenarioCylinder := VolumeData(
    Float3(6.0, 10.0, 6.0), Float3(3.0, 5.0, 3.0), Float3(9.0, 25.0, 9.0),
    Float3(1.0 / 3.0, 0.2, 1.0 / 3.0), Zero, 6.0, 36.0, Cylinder, Continuous, Y, (X, Z), false)

  lemma ScenarioCylinderValid()
    ensures ValidVolume(ScenarioCylinder)
  {
  }

  /** The vector arithmetic of the side scenario's direction, one fact per lemma and
      kept apart from any fact about `Sqrt`. */
  lemma ThroughSideSpan()
    ensures Float3(10.0, 0.0, 0.0).Sub(Float3(-10.0, 0.0, 0.0)) == Float3(20.0, 0.0, 0.0)
  {
  }

  lemma ThroughSideSpanLength()
    ensures Float3(20.0, 0.0, 0.0).SqLength() == 400.0
  {
  }

  lemma ThroughSideSpanScaled()
    ensures Float3(20.0, 0.0, 0.0).Scale(Quotient(1.0, 20.0)) == Float3(1.0, 0.0, 0.0)
  {
  }

  /** The side scenario's segment runs along the x axis. */
  lemma ThroughSideDirection()
    requires Sqrt(400.0) == 20.0
    ensures SegmentDir(Float3(-10.0, 0.0, 0.0), Float3(10.0, 0.0, 0.0)) == Float3(1.0, 0.0, 0.0)
  {
    ThroughSideSpan();
    ThroughSideSpanLength();
    ThroughSideSpanScaled();
  }

  /** The side scenario's quadratic along the x axis, and its start outside. */
  lemma ThroughSideQuadratic()
    ensures ValidVolume(ScenarioCylinder)
    ensures !CylinderStartsInside(ScenarioCylinder, Float3(-10.0, 0.0, 0.0))
    ensures CylinderQuadratic(ScenarioCylinder, Float3(-10.0, 0.0, 0.0), Float3(1.0, 0.0, 0.0))
            == Quadratic(1.0 / 9.0, -20.0 / 9.0, 91.0 / 9.0)
    ensures Quadratic(1.0 / 9.0, -20.0 / 9.0, 91.0 / 9.0).Discriminant() == 4.0 / 9.0
  {
    ScenarioCylinderValid();
  }

  /** The two side roots of the scenario's quadratic, given a root of its discriminant
      of 2/3, and their points, both accepted. */
  lemma ThroughSideRoots()
    ensures Quotient(-(-20.0 / 9.0) + 2.0 / 3.0, 2.0 * (1.0 / 9.0)) == 13.0
    ensures Quotient(-(-20.0 / 9.0) - 2.0 / 3.0, 2.0 * (1.0 / 9.0)) == 7.0
    ensures PointAt(Float3(-10.0, 0.0, 0.0), Float3(1.0, 0.0, 0.0), 13.0) == Float3(3.0, 0.0, 0.0)
    ensures PointAt(Float3(-10.0, 0.0, 0.0), Float3(1.0, 0.0, 0.0), 7.0) == Float3(-3.0, 0.0, 0.0)
    ensures SideAccepts(ScenarioCylinder, Float3(3.0, 0.0, 0.0), Float3(-10.0, 0.0, 0.0), Float3(10.0, 0.0, 0.0))
    ensures SideAccepts(ScenarioCylinder, Float3(-3.0, 0.0, 0.0), Float3(-10.0, 0.0, 0.0), Float3(10.0, 0.0, 0.0))
  {
  }

  /** The two-root candidates written out for a known direction, quadratic and root
      of its discriminant. */
  lemma CylinderSidesAt(d: VolumeData, pi0: Float3, pi1: Float3, dir: Float3, quad: Quadratic, rD: real)
    requires ValidVolume(d) && SegmentDir(pi0, pi1) == dir
    requires CylinderQuadratic(d, pi0, dir) == quad && quad.a != 0.0
    requires Sqrt(quad.Discriminant()) == rD
    ensures CylinderSides(d, pi0, pi1)
            == Query(SideAccepts(d, PointAt(pi0, dir, Quotient(-quad.b + rD, 2.0 * quad.a)), pi0, pi1),
                     SideAccepts(d, PointAt(pi0, dir, Quotient(-quad.b - rD, 2.0 * quad.a)), pi0, pi1),
                     Quotient(-quad.b + rD, 2.0 * quad.a), Quotient(-quad.b - rD, 2.0 * quad.a),
                     PointAt(pi0, dir, Quotient(-quad.b + rD, 2.0 * quad.a)),
                     PointAt(pi0, dir, Quotient(-quad.b - rD, 2.0 * quad.a)))
  {
  }

  /** The side scenario's discriminant clears `EPS`. */
  lemma ThroughSideDiscriminant()
    requires Sqrt(400.0) == 20.0 && EPS <= 4.0 / 9.0
    ensures ValidVolume(ScenarioCylinder)
    ensures CylinderQuadratic(ScenarioCylinder, Float3(-10.0, 0.0, 0.0), SegmentDir(Float3(-10.0, 0.0, 0.0), Float3(10.0, 0.0, 0.0))).Discriminant() >= EPS
  {
    ThroughSideDirection();
    ThroughSideQuadratic();
  }

  /** When both side points of the two-root case are accepted, they are the candidates. */
  lemma CylinderSidesAccepted(d: VolumeData, pi0: Float3, pi1: Float3, dir: Float3, quad: Quadratic,
                              rD: real, t0: real, t1: real, p0: Float3, p1: Float3)
    requires ValidVolume(d) && SegmentDir(pi0, pi1) == dir
    requires CylinderQuadratic(d, pi0, dir) == quad && quad.Discriminant() >= EPS
    requires quad.a != 0.0 && Sqrt(quad.Discriminant()) == rD
    requires Quotient(-quad.b + rD, 2.0 * quad.a) == t0 && Quotient(-quad.b - rD, 2.0 * quad.a) == t1
    requires PointAt(pi0, dir, t0) == p0 && PointAt(pi0, dir, t1) == p1
    requires SideAccepts(d, p0, pi0, pi1) && SideAccepts(d, p1, pi0, pi1)
    ensures CylinderCandidates(d, pi0, pi1) == Query(true, true, t0, t1, p0, p1)
  {
    CylinderTwoRootStage(d, pi0, pi1);
    CylinderSidesAt(d, pi0, pi1, dir, quad, rD);
  }

  /** The side scenario's candidates: both side points, 13 and 7 along the ray. */
  lemma ThroughSideCandidates()
    requires Sqrt(400.0) == 20.0 && Sqrt(4.0 / 9.0) == 2.0 / 3.0 && EPS <= 4.0 / 9.0
    ensures ValidVolume(ScenarioCylinder)
    ensures CylinderCandidates(ScenarioCylinder, Float3(-10.0, 0.0, 0.0), Float3(10.0, 0.0, 0.0))
            == Query(true, true, 13.0, 7.0, Float3(3.0, 0.0, 0.0), Float3(-3.0, 0.0, 0.0))
  {
    ThroughSideDirection();
    ThroughSideQuadratic();
    ThroughSideRoots();
    CylinderSidesAccepted(ScenarioCylinder, Float3(-10.0, 0.0, 0.0), Float3(10.0, 0.0, 0.0), Float3(1.0, 0.0, 0.0),
      Quadratic(1.0 / 9.0, -20.0 / 9.0, 91.0 / 9.0), 2.0 / 3.0, 13.0, 7.0, Float3(3.0, 0.0, 0.0), Float3(-3.0, 0.0, 0.0));
  }

  lemma ThroughSideOutcome()
    requires Sqrt(400.0) == 20.0 && Sqrt(4.0 / 9.0) == 2.0 / 3.0 && EPS <= 4.0 / 9.0
    ensures ValidVolume(ScenarioCylinder)
    ensures IntersectCylinder(ScenarioCylinder, Float3(-10.0, 0.0, 0.0), Float3(10.0, 0.0, 0.0))
            == Outcome(true, Some(Query(true, true, 13.0, 7.0, Float3(3.0, 0.0, 0.0), Float3(-3.0, 0.0, 0.0))))
  {
    ThroughSideQuadratic();
    ThroughSideDiscriminant();
    ThroughSideCandidates();
    CylinderReportsCandidates(ScenarioCylinder, Float3(-10.0, 0.0, 0.0), Float3(10.0, 0.0, 0.0),
      Query(true, true, 13.0, 7.0, Float3(3.0, 0.0, 0.0), Float3(-3.0, 0.0, 0.0)));
  }

  /** A segment across the cylinder through its axis, from x = -10 to x = 10, meets the
      curved side at x = 3 and x = -3. */
  lemma CylinderScenarioThroughSide()
    requires SqrtLaw(Sqrt) && EPS <= 4.0 / 9.0
    ensures ValidVolume(ScenarioCylinder)
    ensures IntersectCylinder(ScenarioCylinder, Float3(-10.0, 0.0, 0.0), Float3(10.0, 0.0, 0.0))
            == Outcome(true, Some(Query(true, true, 13.0, 7.0, Float3(3.0, 0.0, 0.0), Float3(-3.0, 0.0, 0.0))))
  {
    SqrtOfSquare(20.0);
    SqrtOfSquare(2.0 / 3.0);
    ThroughSideOutcome();
  }

  // ---------------------------------------------------------------------------
  // Box

  /** The initial parameter window of the slab method, `[-BoxFar, BoxFar]`. */
  const BoxFar := 9999999.9

  predicate InWindow(t: real) {
    -BoxFar <= t <= BoxFar
  }

  /** A direction component the box test treats as zero. */
  predicate Parallel(dc: real) {
    -(EPS as real) < dc < (EPS as real)
  }

  /** One axis of the box admits the ray at `t`: for a parallel component the start's
      coordinate must lie in the closed slab, otherwise the point at `t` must. */
  predicate SlabAdmits(h: real, p: real, dc: real, t: real) {
    if Parallel(dc) then -h <= p <= h else -h <= p + dc * t <= h
  }

  /** The parameters where the ray crosses the slab's two planes, in the engine's order
      for the sign of the component, then swapped if out of order. */
  function SlabCrossings(h: real, p: real, dc: real): (real, real)
    requires dc != 0.0
  {
    var (t0, t1) :=
      if dc > 0.0 then (Quotient(-h - p, dc), Quotient(h - p, dc))
      else (Quotient(h - p, dc), Quotient(-h - p, dc));
    if t0 > t1 then (t1, t0) else (t0, t1)
  }

  /** One axis of the slab method applied to the window `[tn, tf]`: `None` is an early
      `return false`, `Some` the narrowed window. */
  function SlabNarrow(h: real, p: real, dc: real, tn: real, tf: real): Option<(real, real)> {
    if Parallel(dc) then
      if p < -h || p > h then None else Some((tn, tf))
    else
      var (t0, t1) := SlabCrossings(h, p, dc);
      var tn' := if t0 > tn then t0 else tn;
      var tf' := if t1 < tf then t1 else tf;
      if tn' > tf' then None
      else if tf' < 0.0 then None
      else Some((tn', tf'))
  }

  /** Continues the slab method with one more axis unless it has already stopped. */
  function SlabThen(w: Option<(real, real)>, h: real, p: real, dc: real): Option<(real, real)> {
    if w.None? then None else SlabNarrow(h, p, dc, w.value.0, w.value.1)
  }

  /** The window left after the x, y and z slabs. */
  function BoxWindow(d: VolumeData, pi0: Float3, dir: Float3): Option<(real, real)> {
    var h := d.axisHScales;
    var wx := SlabNarrow(h.x, pi0.x, dir.x, -BoxFar, BoxFar);
    var wy := SlabThen(wx, h.y, pi0.y, dir.y);
    SlabThen(wy, h.z, pi0.z, dir.z)
  }

  /** `IntersectBox` as a function of its inputs. */
  function BoxOutcome(d: VolumeData, pi0: Float3, pi1: Float3): (o: Outcome)
    ensures InBox(d, pi0) ==> o == StartInside
    ensures !InBox(d, pi0) ==> (o.written.None? <==> BoxWindow(d, pi0, SegmentDir(pi0, pi1)).None?)
    ensures o.written.None? ==> !o.hit
    ensures !InBox(d, pi0) && o.written.Some? ==>
      var q := o.written.value;
      o.hit == (q.b0 || q.b1)
      && BoxWindow(d, pi0, SegmentDir(pi0, pi1)) == Some((q.t0, q.t1))
      && q.p0 == PointAt(pi0, SegmentDir(pi0, pi1), q.t0)
      && q.p1 == PointAt(pi0, SegmentDir(pi0, pi1), q.t1)
      && (q.b0 <==> WithinSegment(q.p0, pi0, pi1))
      && (q.b1 <==> WithinSegment(q.p1, pi0, pi1))
  {
    if InBox(d, pi0) then StartInside
    else
      var dir := SegmentDir(pi0, pi1);
      match BoxWindow(d, pi0, dir)
      case None => Miss
      case Some((tn, tf)) =>
        var p0 := PointAt(pi0, dir, tn);
        var p1 := PointAt(pi0, dir, tf);
        var b0 := WithinSegment(p0, pi0, pi1);
        var b1 := WithinSegment(p1, pi0, pi1);
        Outcome(b0 || b1, Some(Query(b0, b1, tn, tf, p0, p1)))
  }

  /** One axis of `IntersectBox`: the crossings, the swap through `t2`, and the
      narrowing of `tn` and `tf`. */
  method SlabStep(h: real, p: real, dc: real, tn: real, tf: real) returns (ok: bool, tn': real, tf': real)
    ensures ok <==> SlabNarrow(h, p, dc, tn, tf).Some?
    ensures ok ==> SlabNarrow(h, p, dc, tn, tf) == Some((tn', tf'))
  {
    tn', tf' := tn, tf;
    if -(EPS as real) < dc && dc < (EPS as real) {
      if p < -h || p > h {
        return false, tn', tf';
      }
    } else {
      var t0, t1;
      if dc > 0.0 {
        t0 := Quotient(-h - p, dc);
        t1 := Quotient(h - p, dc);
      } else {
        t1 := Quotient(-h - p, dc);
        t0 := Quotient(h - p, dc);
      }
      if t0 > t1 {
        var t2 := t1;
        t1 := t0;
        t0 := t2;
      }
      if t0 > tn' {
        tn' := t0;
      }
      if t1 < tf' {
        tf' := t1;
      }
      if tn' > tf' {
        return false, tn', tf';
      }
      if tf' < 0.0 {
        return false, tn', tf';
      }
    }
    return true, tn', tf';
  }

  /** `IntersectBox`: the early exit, the three slabs, then the two window ends as the
      candidates, each valid when no farther from the start than the segment's end. */
  method IntersectBox(d: VolumeData, pi0: Float3, pi1: Float3) returns (o: Outcome)
    ensures o == BoxOutcome(d, pi0, pi1)
  {
    var h := d.axisHScales;
    if -h.x < pi0.x && pi0.x < h.x && -h.y < pi0.y && pi0.y < h.y && -h.z < pi0.z && pi0.z < h.z {
      return StartInside;
    }
    var tn, tf := -BoxFar, BoxFar;
    var dir := SegmentDir(pi0, pi1);
    var ok;
    ok, tn, tf := SlabStep(h.x, pi0.x, dir.x, tn, tf);
    if !ok {
      return Miss;
    }
    ok, tn, tf := SlabStep(h.y, pi0.y, dir.y, tn, tf);
    if !ok {
      return Miss;
    }
    ok, tn, tf := SlabStep(h.z, pi0.z, dir.z, tn, tf);
    if !ok {
      return Miss;
    }
    var p0 := PointAt(pi0, dir, tn);
    var p1 := PointAt(pi0, dir, tf);
    var segLenSq := pi1.Sub(pi0).SqLength();
    var b0 := p0.Sub(pi0).SqLength() <= segLenSq;
    var b1 := p1.Sub(pi0).SqLength() <= segLenSq;
    return Outcome(b0 || b1, Some(Query(b0, b1, tn, tf, p0, p1)));
  }

  /** The three slabs all admit the ray at `t`. */
  predicate BoxAdmits(d: VolumeData, pi0: Float3, dir: Float3, t: real) {
    var h := d.axisHScales;
    SlabAdmits(h.x, pi0.x, dir.x, t) && SlabAdmits(h.y, pi0.y, dir.y, t)
    && SlabAdmits(h.z, pi0.z, dir.z, t)
  }

  /** The closed box, faces included. */
  predicate InClosedBox(d: VolumeData, p: Float3) {
    var h := d.axisHScales;
    -h.x <= p.x <= h.x && -h.y <= p.y <= h.y && -h.z <= p.z <= h.z
  }

  /** Comparing a quotient is comparing the product, the sense depending on the sign of
      the divisor. */
  lemma QuotientCompare(x: real, y: real, t: real)
    requires y != 0.0
    ensures y > 0.0 ==> (Quotient(x, y) <= t <==> x <= t * y) && (t <= Quotient(x, y) <==> t * y <= x)
    ensures y < 0.0 ==> (Quotient(x, y) <= t <==> t * y <= x) && (t <= Quotient(x, y) <==> x <= t * y)
  {
    QuotientTimes(x, y);
    var q := Quotient(x, y);
    assert (q - t) * y == x - t * y;
    ProductSign(q - t, y);
  }

  lemma ProductSign(a: real, y: real)
    requires y != 0.0
    ensures y > 0.0 ==> (a <= 0.0 <==> a * y <= 0.0) && (a >= 0.0 <==> a * y >= 0.0)
    ensures y < 0.0 ==> (a <= 0.0 <==> a * y >= 0.0) && (a >= 0.0 <==> a * y <= 0.0)
  {
  }

  /** With a positive half-extent the crossings come out ordered, and the ray is
      between them exactly when its point is in the closed slab. */
  lemma SlabCrossingsExact(h: real, p: real, dc: real, t: real)
    requires h > 0.0 && dc != 0.0
    ensures SlabCrossings(h, p, dc).0 <= SlabCrossings(h, p, dc).1
    ensures SlabCrossings(h, p, dc).0 <= t <= SlabCrossings(h, p, dc).1 <==> -h <= p + dc * t <= h
  {
    var lo, hi := Quotient(-h - p, dc), Quotient(h - p, dc);
    QuotientCompare(-h - p, dc, t);
    QuotientCompare(h - p, dc, t);
    QuotientCompare(-h - p, dc, hi);
    QuotientTimes(h - p, dc);
  }

  /** One slab step keeps exactly the part of the window the slab admits, and stops
      early only when no admitted parameter in the window is ahead of the start. */
  lemma SlabNarrowExact(h: real, p: real, dc: real, tn: real, tf: real, t: real)
    requires h > 0.0
    ensures SlabNarrow(h, p, dc, tn, tf).Some? ==>
      (SlabNarrow(h, p, dc, tn, tf).value.0 <= t <= SlabNarrow(h, p, dc, tn, tf).value.1
       <==> tn <= t <= tf && SlabAdmits(h, p, dc, t))
    ensures SlabNarrow(h, p, dc, tn, tf).None? ==> (tn <= t <= tf && SlabAdmits(h, p, dc, t) ==> t < 0.0)
  {
    if !Parallel(dc) {
      SlabCrossingsExact(h, p, dc, t);
    }
  }

  /** After a step on a non-parallel axis the window is ordered and ends ahead of the
      start; a parallel axis leaves it as it was. */
  lemma SlabNarrowBounds(h: real, p: real, dc: real, tn: real, tf: real)
    requires SlabNarrow(h, p, dc, tn, tf).Some?
    ensures tn <= SlabNarrow(h, p, dc, tn, tf).value.0 && SlabNarrow(h, p, dc, tn, tf).value.1 <= tf
    ensures Parallel(dc) ==> SlabNarrow(h, p, dc, tn, tf) == Some((tn, tf))
    ensures !Parallel(dc) ==>
      SlabNarrow(h, p, dc, tn, tf).value.0 <= SlabNarrow(h, p, dc, tn, tf).value.1
      && 0.0 <= SlabNarrow(h, p, dc, tn, tf).value.1
  {
  }

  /** The final window is the set of parameters in the initial window that every slab
      admits; when the method stops early, none of those is ahead of the start. */
  lemma BoxWindowExact(d: VolumeData, pi0: Float3, dir: Float3, t: real)
    requires ValidVolume(d)
    ensures BoxWindow(d, pi0, dir).Some? ==>
      (BoxWindow(d, pi0, dir).value.0 <= t <= BoxWindow(d, pi0, dir).value.1
       <==> InWindow(t) && BoxAdmits(d, pi0, dir, t))
    ensures BoxWindow(d, pi0, dir).None? ==> (InWindow(t) && BoxAdmits(d, pi0, dir, t) ==> t < 0.0)
  {
    assert AxisScalesValid(d, X) && AxisScalesValid(d, Y) && AxisScalesValid(d, Z);
    var h := d.axisHScales;
    var wx := SlabNarrow(h.x, pi0.x, dir.x, -BoxFar, BoxFar);
    SlabNarrowExact(h.x, pi0.x, dir.x, -BoxFar, BoxFar, t);
    if wx.Some? {
      var wy := SlabNarrow(h.y, pi0.y, dir.y, wx.value.0, wx.value.1);
      SlabNarrowExact(h.y, pi0.y, dir.y, wx.value.0, wx.value.1, t);
      if wy.Some? {
        SlabNarrowExact(h.z, pi0.z, dir.z, wy.value.0, wy.value.1, t);
      }
    }
  }

  /** The final window is ordered, within the initial one, and ends ahead of the start. */
  lemma BoxWindowBounds(d: VolumeData, pi0: Float3, dir: Float3)
    requires BoxWindow(d, pi0, dir).Some?
    ensures InWindow(BoxWindow(d, pi0, dir).value.0) && InWindow(BoxWindow(d, pi0, dir).value.1)
    ensures BoxWindow(d, pi0, dir).value.0 <= BoxWindow(d, pi0, dir).value.1
    ensures 0.0 <= BoxWindow(d, pi0, dir).value.1
  {
    var h := d.axisHScales;
    var wx := SlabNarrow(h.x, pi0.x, dir.x, -BoxFar, BoxFar);
    SlabNarrowBounds(h.x, pi0.x, dir.x, -BoxFar, BoxFar);
    var wy := SlabNarrow(h.y, pi0.y, dir.y, wx.value.0, wx.value.1);
    SlabNarrowBounds(h.y, pi0.y, dir.y, wx.value.0, wx.value.1);
    SlabNarrowBounds(h.z, pi0.z, dir.z, wy.value.0, wy.value.1);
  }

  /** When no direction component is treated as zero, the slabs admit `t` exactly when
      the ray's point at `t` is in the closed box. */
  lemma BoxAdmitsClosedBox(d: VolumeData, pi0: Float3, dir: Float3, t: real)
    requires !Parallel(dir.x) && !Parallel(dir.y) && !Parallel(dir.z)
    ensures BoxAdmits(d, pi0, dir, t) <==> InClosedBox(d, PointAt(pi0, dir, t))
  {
  }

  /** A reported box hit is a parameter that every slab admits, within the window, no
      farther from the start than the segment's end. */
  lemma BoxHitAdmitted(d: VolumeData, pi0: Float3, pi1: Float3)
    requires ValidVolume(d) && !InBox(d, pi0) && BoxOutcome(d, pi0, pi1).hit
    ensures var q := BoxOutcome(d, pi0, pi1).written.value;
      (q.b0 && InWindow(q.t0) && BoxAdmits(d, pi0, SegmentDir(pi0, pi1), q.t0))
      || (q.b1 && 0.0 <= q.t1 && InWindow(q.t1) && BoxAdmits(d, pi0, SegmentDir(pi0, pi1), q.t1))
  {
    var dir := SegmentDir(pi0, pi1);
    var q := BoxOutcome(d, pi0, pi1).written.value;
    BoxWindowBounds(d, pi0, dir);
    BoxWindowExact(d, pi0, dir, q.t0);
    BoxWindowExact(d, pi0, dir, q.t1);
  }

  // ---------------------------------------------------------------------------
  // Segment test and dispatch

  /** The segment's range `[min, max]` on one axis lies wholly outside `[-h, h]`. */
  predicate AxisRangeMisses(a0: real, a1: real, h: real) {
    Max(a0, a1) < -h || Min(a0, a1) > h
  }

  /** The bounding-box reject of `Intersect`. */
  predicate BoundingBoxMisses(d: VolumeData, pi0: Float3, pi1: Float3) {
    var h := d.axisHScales;
    AxisRangeMisses(pi0.x, pi1.x, h.x) || AxisRangeMisses(pi0.y, pi1.y, h.y)
    || AxisRangeMisses(pi0.z, pi1.z, h.z)
  }

  /** The point a fraction `s` of the way from `pi0` to `pi1`. */
  function Lerp(pi0: Float3, pi1: Float3, s: real): Float3 {
    pi0.Add(pi1.Sub(pi0).Scale(s))
  }

  lemma BetweenEnds(a0: real, a1: real, s: real)
    requires 0.0 <= s <= 1.0
    ensures Min(a0, a1) <= a0 + (a1 - a0) * s <= Max(a0, a1)
  {
    var w := a1 - a0;
    assert a0 + w * s == a0 * (1.0 - s) + a1 * s;
    MulNonNegative(w, s);
    MulNonNegative(w, 1.0 - s);
    MulNonNegative(-w, s);
    MulNonNegative(-w, 1.0 - s);
  }

  lemma MulNonNegative(a: real, b: real)
    ensures a >= 0.0 && b >= 0.0 ==> a * b >= 0.0
  {
  }

  /** The reject is sound: a rejected segment has no point in the closed box. */
  lemma BoundingBoxRejectSound(d: VolumeData, pi0: Float3, pi1: Float3, s: real)
    requires BoundingBoxMisses(d, pi0, pi1) && 0.0 <= s <= 1.0
    ensures !InClosedBox(d, Lerp(pi0, pi1, s))
  {
    BetweenEnds(pi0.x, pi1.x, s);
    BetweenEnds(pi0.y, pi1.y, s);
    BetweenEnds(pi0.z, pi1.z, s);
  }

  /** Touching the box is not rejected: a segment with an end in the closed box, faces
      included, always reaches the shape solver. */
  lemma BoundingBoxKeepsTouching(d: VolumeData, pi0: Float3, pi1: Float3)
    requires InClosedBox(d, pi0) || InClosedBox(d, pi1)
    ensures !BoundingBoxMisses(d, pi0, pi1)
  {
  }

  /** `Intersect(d, m, p0, p1, q)` once the end points are in volume space: the
      bounding-box reject, then the solver of the volume's shape; an unknown shape
      reports no hit and writes nothing. */
  function VolumeOutcome(d: VolumeData, pi0: Float3, pi1: Float3): (o: Outcome)
    requires ValidVolume(d)
    ensures BoundingBoxMisses(d, pi0, pi1) ==> o == Miss
    ensures d.volumeType.UnknownVolume? ==> o == Miss
    ensures o.written.None? ==> !o.hit
  {
    if BoundingBoxMisses(d, pi0, pi1) then Miss
    else
      match d.volumeType
      case Ellipsoid => IntersectEllipsoid(d, pi0, pi1)
      case Cylinder => IntersectCylinder(d, pi0, pi1)
      case Box => BoxOutcome(d, pi0, pi1)
      case UnknownVolume(_) => Miss
  }

  /** A coordinate whose surface term is at most one lies within the half-scale. */
  lemma RatioBound(v: real, h: real, hSq: real)
    requires h > 0.0 && hSq > 0.0 && hSq == h * h && Ratio(v, hSq) <= 1.0
    ensures -h <= v <= h
  {
    assert v * v <= hSq by {
      assert v * v == Ratio(v, hSq) * hSq;
      assert Ratio(v, hSq) * hSq <= 1.0 * hSq;
    }
  }

  /** A point inside the ellipsoid is in its bounding box. */
  lemma EllipsoidInBox(d: VolumeData, p: Float3)
    requires ValidVolume(d) && InEllipsoid(d, p)
    ensures InClosedBox(d, p)
  {
    var h := d.axisHScales;
    var hSq := d.axisHScalesSq;
    assert AxisScalesValid(d, X) && AxisScalesValid(d, Y) && AxisScalesValid(d, Z);
    RatioNonNegative(p.x, hSq.x);
    RatioNonNegative(p.y, hSq.y);
    RatioNonNegative(p.z, hSq.z);
    RatioBound(p.x, h.x, hSq.x);
    RatioBound(p.y, h.y, hSq.y);
    RatioBound(p.z, h.z, hSq.z);
  }

  /** A point inside the cylinder is in its bounding box. */
  lemma CylinderInBox(d: VolumeData, p: Float3)
    requires ValidVolume(d) && InCylinder(d, p)
    ensures InClosedBox(d, p)
  {
    var (s0, s1) := d.secondaryAxes;
    var hSq := d.axisHScalesSq;
    RatioNonNegative(p.At(s0), hSq.At(s0));
    RatioNonNegative(p.At(s1), hSq.At(s1));
    AxisBound(d, p, s0);
    AxisBound(d, p, s1);
    AxisBoundsClosedBox(d, p, d.primaryAxis, s0, s1);
  }

  /** A coordinate whose surface term is at most one lies within its axis' half-scale. */
  lemma AxisBound(d: VolumeData, p: Float3, a: Axis)
    requires AxisScalesValid(d, a) && Ratio(p.At(a), d.axisHScalesSq.At(a)) <= 1.0
    ensures -d.axisHScales.At(a) <= p.At(a) <= d.axisHScales.At(a)
  {
    RatioBound(p.At(a), d.axisHScales.At(a), d.axisHScalesSq.At(a));
  }

  /** Bounds on the primary axis and on its two secondary axes bound every axis. */
  lemma AxisBoundsClosedBox(d: VolumeData, p: Float3, a: Axis, s0: Axis, s1: Axis)
    requires (s0, s1) == SecondaryOf(a)
    requires -d.axisHScales.At(a) < p.At(a) < d.axisHScales.At(a)
    requires -d.axisHScales.At(s0) <= p.At(s0) <= d.axisHScales.At(s0)
    requires -d.axisHScales.At(s1) <= p.At(s1) <= d.axisHScales.At(s1)
    ensures InClosedBox(d, p)
  {
  }

  /** A segment that starts inside its volume, as the shape's own early exit sees it,
      is not rejected by the bounding box and is reported as started inside. */
  lemma VolumeStartsInside(d: VolumeData, pi0: Float3, pi1: Float3)
    requires ValidVolume(d)
    requires (d.volumeType == Ellipsoid && SphereSpace(d, pi0).Dot(SphereSpace(d, pi0)) <= 1.0)
      || (d.volumeType == Cylinder && CylinderStartsInside(d, pi0))
      || (d.volumeType == Box && InBox(d, pi0))
    ensures VolumeOutcome(d, pi0, pi1) == StartInside
  {
    if d.volumeType == Ellipsoid {
      SphereSpaceMeasuresEllipsoid(d, pi0);
      EllipsoidInBox(d, pi0);
    } else if d.volumeType == Cylinder {
      CylinderStartInsideSound(d, pi0);
      CylinderInBox(d, pi0);
    }
    BoundingBoxKeepsTouching(d, pi0, pi1);
  }

  /** `Intersect(d, m, p0, p1, q)` in volume space. */
  method IntersectVolume(d: VolumeData, pi0: Float3, pi1: Float3) returns (o: Outcome)
    requires ValidVolume(d)
    ensures o == VolumeOutcome(d, pi0, pi1)
  {
    var h := d.axisHScales;
    if Max(pi0.x, pi1.x) < -h.x || Min(pi0.x, pi1.x) > h.x {
      return Miss;
    }
    if Max(pi0.y, pi1.y) < -h.y || Min(pi0.y, pi1.y) > h.y {
      return Miss;
    }
    if Max(pi0.z, pi1.z) < -h.z || Min(pi0.z, pi1.z) > h.z {
      return Miss;
    }
    match d.volumeType
    case Ellipsoid =>
      o := IntersectEllipsoid(d, pi0, pi1);
    case Cylinder =>
      o := IntersectCylinder(d, pi0, pi1);
    case Box =>
      o := IntersectBox(d, pi0, pi1);
    case UnknownVolume(_) =>
      o := Miss;
  }

  /** `Intersect(unit, p0, p1, q)` and `Intersect(feature, p0, p1, q)`: both ends are
      mapped into volume space and the segment test runs there; the caller's record
      is written only through a non-null pointer. */
  method Intersect(obj: Collidable, p0: Float3, p1: Float3, q: Option<Query>) returns (hit: bool, after: Option<Query>)
    requires ValidVolume(obj.volume)
    ensures hit == VolumeOutcome(obj.volume, obj.toVolume(p0), obj.toVolume(p1)).hit
    ensures after == Deliver(VolumeOutcome(obj.volume, obj.toVolume(p0), obj.toVolume(p1)), q)
  {
    var o := IntersectVolume(obj.volume, obj.toVolume(p0), obj.toVolume(p1));
    hit := o.hit;
    after := Deliver(o, q);
  }

  /** 2^32: the test counters are `unsigned int`. */
  const U32: nat := 0x1_0000_0000

  /** `x += 1` on an `unsigned int`, wrapping to 0 after the largest value. */
  function Inc32(x: nat): (r: nat)
    requires x < U32
    ensures r < U32
    ensures x + 1 < U32 ==> r == x + 1
    ensures x + 1 == U32 ==> r == 0
  {
    (x + 1) % U32
  }

  /** The engine's collision handler: the two static test counters and the hit test
      that dispatches on a volume's test type. */
  class CollisionHandler {
    var numCollisionTests: nat
    var numIntersectionTests: nat

    ghost predicate Valid()
      reads this
    {
      numCollisionTests < U32 && numIntersectionTests < U32
    }

    constructor ()
      ensures Valid()
      ensures numCollisionTests == 0 && numIntersectionTests == 0
    {
      numCollisionTests := 0;
      numIntersectionTests := 0;
    }

    /** `DetectHit(unit, ...)` and `DetectHit(feature, ...)`: a discrete test runs the
        point test on `p0` and counts a collision test; a continuous test runs the
        segment test and counts an intersection test; any other tag reports no hit
        and counts nothing. */
    method DetectHit(obj: Collidable, p0: Float3, p1: Float3, q: Option<Query>) returns (r: bool, after: Option<Query>)
      requires Valid() && ValidVolume(obj.volume)
      modifies this
      ensures Valid()
      ensures obj.volume.testType == Discrete ==>
        r == Collision(obj, p0) && after == q
        && numCollisionTests == Inc32(old(numCollisionTests))
        && numIntersectionTests == old(numIntersectionTests)
      ensures obj.volume.testType == Continuous ==>
        r == VolumeOutcome(obj.volume, obj.toVolume(p0), obj.toVolume(p1)).hit
        && after == Deliver(VolumeOutcome(obj.volume, obj.toVolume(p0), obj.toVolume(p1)), q)
        && numIntersectionTests == Inc32(old(numIntersectionTests))
        && numCollisionTests == old(numCollisionTests)
      ensures obj.volume.testType.UnknownTest? ==> !r && after == q && unchanged(this)
    {
      r, after := false, q;
      match obj.volume.testType
      case Discrete =>
        r := Collision(obj, p0);
        numCollisionTests := Inc32(numCollisionTests);
      case Continuous =>
        r, after := Intersect(obj, p0, p1, q);
        numIntersectionTests := Inc32(numIntersectionTests);
      case UnknownTest(_) =>
    }
  }
}
