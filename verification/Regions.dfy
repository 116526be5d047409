// Regions of the plane, rectangles that bound them up to parts without area, and strict
// containment under affine maps.
module Regions {
  import opened DisplayListOps
  import opened Geometry

  /** A region of the device, or of local space. */
  type Region = Point -> bool

  predicate StrictlyIn(p: Point, r: Rect) {
    r.left < p.x < r.right && r.top < p.y < r.bottom
  }

  predicate Near(p: Point, q: Point, e: real) {
    q.x - e <= p.x <= q.x + e && q.y - e <= p.y <= q.y + e
  }

  /** The region holds everything within some distance of the point. */
  ghost predicate Interior(region: Region, q: Point) {
    exists e: real :: e > 0.0 && HoldsAround(region, q, e)
  }

  ghost predicate HoldsAround(region: Region, q: Point, e: real) {
    forall p :: Near(p, q, e) ==> region(p)
  }

  /** Bounds contain a region, up to parts of it that have no area. */
  ghost predicate Bounds(r: Rect, region: Region) {
    forall q :: Interior(region, q) ==> StrictlyIn(q, r)
  }

  predicate IsEmpty(r: Rect) {
    !(r.left < r.right && r.top < r.bottom)
  }

  /** What intersecting a rectangle with another leaves of it. */
  function Overlap(a: Rect, b: Rect): Rect {
    Rect(Max(a.left, b.left), Max(a.top, b.top), Min(a.right, b.right), Min(a.bottom, b.bottom))
  }

  /** Nothing but what both have strictly inside them. */
  lemma StrictOverlap(a: Rect, b: Rect)
    ensures forall q :: StrictlyIn(q, Overlap(a, b)) <==> StrictlyIn(q, a) && StrictlyIn(q, b)
    ensures IsEmpty(Overlap(a, b)) <==> forall q :: !(StrictlyIn(q, a) && StrictlyIn(q, b))
  {
    var c := Overlap(a, b);
    var q := Point((c.left + c.right) / 2.0, (c.top + c.bottom) / 2.0);
    if !IsEmpty(c) { assert StrictlyIn(q, c); }
  }

  /** What lies in whole pixels around a rectangle is less than a pixel from it. */
  lemma NearRounded(q: Point, r: Rect)
    requires In(q, ToRect(RoundOut(r)))
    ensures In(q, Outset(r, 1.0, 1.0))
  {
  }

  lemma SmallerRegion(r: Rect, clip: Region, smaller: Region)
    requires Bounds(r, clip) && forall q :: smaller(q) ==> clip(q)
    ensures Bounds(r, smaller)
  {
    forall q | Interior(smaller, q)
      ensures Interior(clip, q)
    {
      var e: real :| e > 0.0 && HoldsAround(smaller, q, e);
      assert HoldsAround(clip, q, e);
    }
  }

  /** The corners of the neighbourhood are points of the region. */
  lemma InteriorIsStrict(region: Region, q: Point, r: Rect)
    requires Interior(region, q) && forall p :: region(p) ==> In(p, r)
    ensures StrictlyIn(q, r)
  {
    var e: real :| e > 0.0 && HoldsAround(region, q, e);
    var a, b := Point(q.x - e, q.y - e), Point(q.x + e, q.y + e);
    assert Near(a, q, e) && Near(b, q, e);
    assert region(a) && region(b);
  }

  /** A clip cut down to part of a rectangle is bounded by the overlap. */
  lemma WithinRect(r: Rect, clip: Region, mapped: Rect, rest: Region)
    requires Bounds(r, clip)
    requires forall q :: rest(q) ==> clip(q) && In(q, mapped)
    ensures Bounds(Overlap(r, mapped), rest)
    ensures IsEmpty(Overlap(r, mapped)) ==> forall q :: !Interior(rest, q)
  {
    SmallerRegion(r, clip, rest);
    forall q | Interior(rest, q)
      ensures StrictlyIn(q, Overlap(r, mapped))
    {
      InteriorIsStrict(rest, q, mapped);
    }
  }

  // ----- Strictly inside stays strictly inside -----

  /** Strictly between, unless all three are the same. */
  predicate StrictlyBetween(u0: real, u: real, u1: real, moves: bool) {
    if moves then u0 < u < u1 || u1 < u < u0 else u0 == u == u1
  }

  lemma StrictSign(a: real, d: real)
    requires d > 0.0
    ensures a > 0.0 ==> a * d > 0.0
    ensures a < 0.0 ==> a * d < 0.0
  {
  }

  lemma StrictSlope(a: real, low: real, x: real, high: real)
    requires low < x < high
    ensures StrictlyBetween(a * low, a * x, a * high, a != 0.0)
  {
    StrictSign(a, x - low);
    StrictSign(a, high - x);
    ProductOfDifference(a, low, x);
    ProductOfDifference(a, x, high);
  }

  lemma CornersStrict(u0: real, u: real, u1: real, v0: real, v: real, v1: real, c: real,
                      p0: real, p1: real, p2: real, p3: real, q: real, across: bool, down: bool)
    requires StrictlyBetween(u0, u, u1, across) && StrictlyBetween(v0, v, v1, down) && (across || down)
    requires p0 == u0 + v0 + c && p1 == u1 + v0 + c && p2 == u1 + v1 + c && p3 == u0 + v1 + c && q == u + v + c
    ensures Min4(p0, p1, p2, p3) < q < Max4(p0, p1, p2, p3)
  {
  }

  lemma RowStrict(a: real, b: real, c: real, r: Rect, p: Point)
    requires StrictlyIn(p, r) && (a != 0.0 || b != 0.0)
    ensures CornerMin(a, b, c, r) < Row(a, b, c, p) < CornerMax(a, b, c, r)
  {
    StrictSlope(a, r.left, p.x, r.right);
    StrictSlope(b, r.top, p.y, r.bottom);
    CornersStrict(a * r.left, a * p.x, a * r.right, b * r.top, b * p.y, b * r.bottom, c,
                  Row(a, b, c, Point(r.left, r.top)), Row(a, b, c, Point(r.right, r.top)),
                  Row(a, b, c, Point(r.right, r.bottom)), Row(a, b, c, Point(r.left, r.bottom)), Row(a, b, c, p),
                  a != 0.0, b != 0.0);
  }

  lemma NoZeroRow(m: Matrix)
    requires Det(m) != 0.0
    ensures (m.sx != 0.0 || m.kx != 0.0) && (m.ky != 0.0 || m.sy != 0.0)
  {
  }

  /** An invertible matrix takes the inside of a rectangle to the inside of its mapped
      bounds. */
  lemma StaysStrict(m: Matrix, r: Rect, p: Point)
    requires Det(m) != 0.0 && StrictlyIn(p, r)
    ensures StrictlyIn(Map(m, p), MapRect(m, r))
  {
    NoZeroRow(m);
    RowStrict(m.sx, m.kx, m.tx, r, p);
    RowStrict(m.ky, m.sy, m.ty, r, p);
  }

  lemma NothingInside(region: Region)
    requires forall q :: !region(q)
    ensures forall q :: !Interior(region, q)
  {
    forall q | Interior(region, q)
      ensures false
    {
      var e: real :| e > 0.0 && HoldsAround(region, q, e);
      assert Near(q, q, e);
    }
  }

  lemma InteriorIsOpen(region: Region, q: Point, e: real, p: Point)
    requires e > 0.0 && HoldsAround(region, q, e) && Near(p, q, e / 2.0)
    ensures Interior(region, p)
  {
    assert HoldsAround(region, p, e / 2.0);
  }

  lemma InteriorOfRect(region: Region, r: Rect)
    requires forall q :: region(q) ==> In(q, r)
    ensures Bounds(r, region)
  {
    forall q | Interior(region, q)
      ensures StrictlyIn(q, r)
    {
      InteriorIsStrict(region, q, r);
    }
  }

  lemma Outside(region: Region, q: Point, r: Rect)
    requires Interior(region, q) && !In(q, r)
    ensures exists e: real :: e > 0.0 && HoldsAround(region, q, e) && forall p :: Near(p, q, e) ==> !In(p, r)
  {
    var e: real :| e > 0.0 && HoldsAround(region, q, e);
    var gap := if q.x < r.left then r.left - q.x else if q.x > r.right then q.x - r.right
               else if q.y < r.top then r.top - q.y else q.y - r.bottom;
    var near := Min(e, gap / 2.0);
    assert forall p :: Near(p, q, near) ==> Near(p, q, e);
    assert HoldsAround(region, q, near);
  }

  // ----- Images of local regions, and clips -----

  /** An SkMatrix with its perspective row. */
  datatype M33 = M33(
    m00: real, m01: real, m02: real,
    m10: real, m11: real, m12: real,
    m20: real, m21: real, m22: real)

  function AffinePart(m: M33): Matrix {
    Matrix(m.m00, m.m01, m.m02, m.m10, m.m11, m.m12)
  }

  predicate HasPerspective(m: M33) {
    m.m20 != 0.0 || m.m21 != 0.0 || m.m22 != 1.0
  }

  function WithoutPerspective(m: Matrix): M33 {
    M33(m.sx, m.kx, m.tx, m.ky, m.sy, m.ty, 0.0, 0.0, 1.0)
  }

  /** A point of local space lands on a point of the device. */
  ghost predicate Lands(m: M33, p: Point, q: Point) {
    var w := m.m20 * p.x + m.m21 * p.y + m.m22;
    w > 0.0 && m.m00 * p.x + m.m01 * p.y + m.m02 == q.x * w && m.m10 * p.x + m.m11 * p.y + m.m12 == q.y * w
  }

  ghost predicate InImage(m: M33, inside: Region, q: Point) {
    exists p :: inside(p) && Lands(m, p, q)
  }

  /** What a clip call leaves of a clip. */
  ghost function Clipped(clip: Region, m: M33, inside: Region, inverse: bool, op: ClipOp): Region {
    q => clip(q) && ((InImage(m, inside, q) != inverse) == (op == Intersect))
  }

  lemma LandsAffinely(m: M33, p: Point, q: Point)
    requires !HasPerspective(m)
    ensures Lands(m, p, q) <==> q == Map(AffinePart(m), p)
  {
  }

  /** The image of a shape lies in its mapped bounds. */
  lemma ImageIsBounded(m: M33, inside: Region, bounds: Rect, q: Point)
    requires !HasPerspective(m) && InImage(m, inside, q) && forall p :: inside(p) ==> In(p, bounds)
    ensures In(q, MapRect(AffinePart(m), bounds))
  {
    var p :| inside(p) && Lands(m, p, q);
    LandsAffinely(m, p, q);
    MapRectContains(AffinePart(m), bounds, p);
  }
}
