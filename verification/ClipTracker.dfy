// DisplayListMatrixClipTracker: a matrix kept as 3x3 until it has to be 4x4, refining a
// plain stack of 4x4 matrices, and a cull rectangle that bounds the clip.
module ClipTracker {
  import opened Basics
  import opened DisplayListOps
  import opened Geometry
  import opened Regions
  import opened Vectors

  const UNIT33: M33 := M33(1.0, 0.0, 0.0, 0.0, 1.0, 0.0, 0.0, 0.0, 1.0)

  // ----- 3x3 within 4x4 -----

  function Embed(m: M33): M44 {
    M44(m.m00, m.m01, 0.0, m.m02,
        m.m10, m.m11, 0.0, m.m12,
        0.0, 0.0, 1.0, 0.0,
        m.m20, m.m21, 0.0, m.m22)
  }

  function AsM33(m: M44): M33 {
    M33(m.m00, m.m01, m.m03, m.m10, m.m11, m.m13, m.m30, m.m31, m.m33)
  }

  predicate Is3x3(m: M44) {
    && m.m02 == 0.0
    && m.m12 == 0.0
    && m.m20 == 0.0 && m.m21 == 0.0 && m.m22 == 1.0 && m.m23 == 0.0
    && m.m32 == 0.0
  }

  function Dot3(a: real, b: real, c: real, x: real, y: real, z: real): real {
    a * x + b * y + c * z
  }

  function Product33(a: M33, b: M33): M33 {
    M33(Dot3(a.m00, a.m01, a.m02, b.m00, b.m10, b.m20), Dot3(a.m00, a.m01, a.m02, b.m01, b.m11, b.m21), Dot3(a.m00, a.m01, a.m02, b.m02, b.m12, b.m22),
        Dot3(a.m10, a.m11, a.m12, b.m00, b.m10, b.m20), Dot3(a.m10, a.m11, a.m12, b.m01, b.m11, b.m21), Dot3(a.m10, a.m11, a.m12, b.m02, b.m12, b.m22),
        Dot3(a.m20, a.m21, a.m22, b.m00, b.m10, b.m20), Dot3(a.m20, a.m21, a.m22, b.m01, b.m11, b.m21), Dot3(a.m20, a.m21, a.m22, b.m02, b.m12, b.m22))
  }

  /** The test picks out exactly the 4x4 matrices that a 3x3 matrix stands for. */
  lemma Is3x3IsTheImage(m: M44)
    ensures Is3x3(m) <==> exists n :: Embed(n) == m
    ensures Is3x3(m) <==> Embed(AsM33(m)) == m
  {
    if Is3x3(m) {
      assert Embed(AsM33(m)) == m;
    }
  }

  lemma EmbedRow(a: real, b: real, d: real, n: M33)
    ensures var row := RowTimes(a, b, 0.0, d, Embed(n));
            && row.0 == Dot3(a, b, d, n.m00, n.m10, n.m20)
            && row.1 == Dot3(a, b, d, n.m01, n.m11, n.m21)
            && row.2 == 0.0
            && row.3 == Dot3(a, b, d, n.m02, n.m12, n.m22)
  {
  }

  lemma EmbedDepthRow(n: M33)
    ensures RowTimes(0.0, 0.0, 1.0, 0.0, Embed(n)) == (0.0, 0.0, 1.0, 0.0)
  {
  }

  /** And it does not matter where products are taken. */
  lemma EmbedRespectsProducts(a: M33, b: M33)
    ensures Product(Embed(a), Embed(b)) == Embed(Product33(a, b))
  {
    EmbedRow(a.m00, a.m01, a.m02, b);
    EmbedRow(a.m10, a.m11, a.m12, b);
    EmbedDepthRow(b);
    EmbedRow(a.m20, a.m21, a.m22, b);
  }

  // ----- What a product does to points -----

  lemma ScaledRow3(k: real, b0: real, b1: real, b2: real, x: real, y: real)
    ensures k * (b0 * x + b1 * y + b2) == (k * b0) * x + (k * b1) * y + k * b2
  {
  }

  lemma SumRow3(p0: real, q0: real, r0: real, p1: real, q1: real, r1: real, p2: real, q2: real, r2: real, x: real, y: real)
    ensures (p0 + q0 + r0) * x + (p1 + q1 + r1) * y + (p2 + q2 + r2)
         == (p0 * x + p1 * y + p2) + (q0 * x + q1 * y + q2) + (r0 * x + r1 * y + r2)
  {
  }

  lemma PullOut(a0: real, a1: real, a2: real, x: real, y: real, w: real)
    ensures a0 * (x * w) + a1 * (y * w) + a2 * w == w * (a0 * x + a1 * y + a2)
  {
  }

  /** One row of a product, at a point that the right factor takes to r with weight w. */
  lemma Row3Acts(a0: real, a1: real, a2: real, b: M33, p: Point, r: Point, w: real, c0: real, c1: real, c2: real)
    requires c0 == Dot3(a0, a1, a2, b.m00, b.m10, b.m20)
    requires c1 == Dot3(a0, a1, a2, b.m01, b.m11, b.m21)
    requires c2 == Dot3(a0, a1, a2, b.m02, b.m12, b.m22)
    requires b.m00 * p.x + b.m01 * p.y + b.m02 == r.x * w
    requires b.m10 * p.x + b.m11 * p.y + b.m12 == r.y * w
    requires b.m20 * p.x + b.m21 * p.y + b.m22 == w
    ensures c0 * p.x + c1 * p.y + c2 == w * (a0 * r.x + a1 * r.y + a2)
  {
    SumRow3(a0 * b.m00, a1 * b.m10, a2 * b.m20, a0 * b.m01, a1 * b.m11, a2 * b.m21, a0 * b.m02, a1 * b.m12, a2 * b.m22, p.x, p.y);
    ScaledRow3(a0, b.m00, b.m01, b.m02, p.x, p.y);
    ScaledRow3(a1, b.m10, b.m11, b.m12, p.x, p.y);
    ScaledRow3(a2, b.m20, b.m21, b.m22, p.x, p.y);
    PullOut(a0, a1, a2, r.x, r.y, w);
  }

  lemma CommonFactor(w: real, x: real, q: real, v: real)
    requires w > 0.0
    ensures w * x == q * (w * v) <==> x == q * v
    ensures w * v > 0.0 <==> v > 0.0
  {
    assert q * (w * v) == w * (q * v);
    if w * x == w * (q * v) { assert w * (x - q * v) == 0.0; }
  }

  /** Landing through a product is landing through its right factor and then through its left
      one. */
  lemma LandsThroughProduct(a: M33, b: M33, p: Point, r: Point, q: Point)
    requires Lands(b, p, r)
    ensures Lands(Product33(a, b), p, q) <==> Lands(a, r, q)
  {
    var w, c := b.m20 * p.x + b.m21 * p.y + b.m22, Product33(a, b);
    Row3Acts(a.m00, a.m01, a.m02, b, p, r, w, c.m00, c.m01, c.m02);
    Row3Acts(a.m10, a.m11, a.m12, b, p, r, w, c.m10, c.m11, c.m12);
    Row3Acts(a.m20, a.m21, a.m22, b, p, r, w, c.m20, c.m21, c.m22);
    SameLanding(w, a, r, q, c, p);
  }

  lemma SameLanding(w: real, a: M33, r: Point, q: Point, c: M33, p: Point)
    requires w > 0.0
    requires c.m00 * p.x + c.m01 * p.y + c.m02 == w * (a.m00 * r.x + a.m01 * r.y + a.m02)
    requires c.m10 * p.x + c.m11 * p.y + c.m12 == w * (a.m10 * r.x + a.m11 * r.y + a.m12)
    requires c.m20 * p.x + c.m21 * p.y + c.m22 == w * (a.m20 * r.x + a.m21 * r.y + a.m22)
    ensures Lands(c, p, q) <==> Lands(a, r, q)
  {
    var v := a.m20 * r.x + a.m21 * r.y + a.m22;
    CommonFactor(w, a.m00 * r.x + a.m01 * r.y + a.m02, q.x, v);
    CommonFactor(w, a.m10 * r.x + a.m11 * r.y + a.m12, q.y, v);
  }

  /** Without perspective, products are those of affine maps. */
  lemma AffineProduct(a: M33, b: M33)
    requires !HasPerspective(a) && !HasPerspective(b)
    ensures !HasPerspective(Product33(a, b)) && AffinePart(Product33(a, b)) == Concat(AffinePart(a), AffinePart(b))
  {
  }

  // ----- What the matrix does to rectangles -----

  function Det33(m: M33): real {
    m.m00 * (m.m11 * m.m22 - m.m12 * m.m21)
    - m.m01 * (m.m10 * m.m22 - m.m12 * m.m20)
    + m.m02 * (m.m10 * m.m21 - m.m11 * m.m20)
  }

  lemma DetOfAffine(m: M33)
    requires !HasPerspective(m)
    ensures Det33(m) == Det(AffinePart(m))
  {
  }

  /** Rectangles go to rectangles. */
  predicate StaysRect(m: Matrix) {
    (m.kx == 0.0 && m.ky == 0.0) || (m.sx == 0.0 && m.sy == 0.0 && m.kx != 0.0 && m.ky != 0.0)
  }

  lemma AxesUnder(m: Matrix)
    ensures Map(m, Point(1.0, 0.0)) == Point(Map(m, Point(0.0, 0.0)).x + m.sx, Map(m, Point(0.0, 0.0)).y + m.ky)
    ensures Map(m, Point(0.0, 1.0)) == Point(Map(m, Point(0.0, 0.0)).x + m.kx, Map(m, Point(0.0, 0.0)).y + m.sy)
  {
  }

  /** Horizontal and vertical sides stay horizontal or vertical. */
  ghost predicate SidesStay(m: Matrix) {
    forall p: Point, q: Point {:trigger Map(m, p), Map(m, q)} :: p.x == q.x || p.y == q.y ==>
      Map(m, p).x == Map(m, q).x || Map(m, p).y == Map(m, q).y
  }

  /** The test for rectangles is exact for matrices that can be inverted. */
  lemma WhenRectsStay(m: Matrix)
    requires Det(m) != 0.0
    ensures StaysRect(m) <==> SidesStay(m)
  {
    if SidesStay(m) {
      var o, right, down := Point(0.0, 0.0), Point(1.0, 0.0), Point(0.0, 1.0);
      AxesUnder(m);
      assert Map(m, o).x == Map(m, right).x || Map(m, o).y == Map(m, right).y;
      assert Map(m, o).x == Map(m, down).x || Map(m, o).y == Map(m, down).y;
    }
  }

  const EMPTY_RECT: Rect := Rect(0.0, 0.0, 0.0, 0.0)

  function Round(a: real): int {
    (a + 0.5).Floor
  }

  /** The nearest integer, and the larger of two. */
  lemma RoundIsNearest(a: real, n: int)
    ensures Round(a) == n <==> n as real - 0.5 <= a < n as real + 0.5
  {
  }

  function RoundRect(r: Rect): Rect {
    Rect(Round(r.left) as real, Round(r.top) as real, Round(r.right) as real, Round(r.bottom) as real)
  }

  function IntersectCull(cull: Rect, m: Matrix, clip: Rect, aa: bool): Rect {
    if IsEmpty(clip) then EMPTY_RECT else
    var mapped := MapRect(m, clip);
    var rect := if aa then ToRect(RoundOut(mapped)) else mapped;
    if IsEmpty(Overlap(cull, rect)) then EMPTY_RECT else Overlap(cull, rect)
  }

  /** The part of the cull rectangle left beside a rectangle taken out of it, as computed. */
  function SliceCull(cull: Rect, rect: Rect): Rect {
    if rect.left <= cull.left && rect.right >= cull.right then
      var top, bottom := Max(rect.bottom, cull.top), Min(rect.top, cull.bottom);
      if top < bottom then cull.(top := top, bottom := bottom) else EMPTY_RECT
    else if rect.top <= cull.top && rect.bottom >= cull.bottom then
      var left, right := Max(rect.right, cull.left), Min(rect.left, cull.right);
      if left < right then cull.(left := left, right := right) else EMPTY_RECT
    else cull
  }

  function DifferenceCull(cull: Rect, m: Matrix, clip: Rect, aa: bool): Rect {
    if IsEmpty(clip) || IsEmpty(Overlap(clip, cull)) then cull
    else if !StaysRect(m) then cull
    else if aa && IsEmpty(RoundRect(MapRect(m, clip))) then cull
    else SliceCull(cull, if aa then RoundRect(MapRect(m, clip)) else MapRect(m, clip))
  }

  /** The matrix may be reported to have perspective without need, but not the other way. */
  function ClipCull(cull: Rect, m: M33, perspective: bool, clip: Rect, op: ClipOp, aa: bool): Rect {
    if IsEmpty(cull) || perspective then cull
    else if op == Intersect then IntersectCull(cull, AffinePart(m), clip, aa)
    else DifferenceCull(cull, AffinePart(m), clip, aa)
  }

  function LocalCull(cull: Rect, m: M33, perspective: bool): Rect
    requires HasPerspective(m) ==> perspective
  {
    if IsEmpty(cull) then cull
    else if Det33(m) == 0.0 then EMPTY_RECT
    else if perspective then MAX_CULL_RECT
    else
      DetOfAffine(m);
      MapRect(Inverse(AffinePart(m)), cull)
  }

  predicate ContentCulled(cull: Rect, m: M33, perspective: bool, content: Rect) {
    if IsEmpty(cull) || IsEmpty(content) then true
    else if perspective then false
    else IsEmpty(Overlap(MapRect(AffinePart(m), content), cull))
  }

  // ----- Nothing is wider than it must be -----

  /** Content is culled exactly if the cull rectangle or the content is empty or, short of
      perspective, the mapped content and the cull rectangle have nothing strictly inside
      both. */
  lemma WhenContentIsCulled(cull: Rect, m: M33, perspective: bool, content: Rect)
    ensures ContentCulled(cull, m, perspective, content) <==>
              IsEmpty(cull) || IsEmpty(content) ||
              (!perspective && forall q :: !(StrictlyIn(q, MapRect(AffinePart(m), content)) && StrictlyIn(q, cull)))
  {
    StrictOverlap(MapRect(AffinePart(m), content), cull);
  }

  /** The rectangle holds every local point that lands in the cull rectangle. */
  ghost predicate HoldsWhatLands(s: Rect, m: Matrix, cull: Rect) {
    forall p {:trigger Map(m, p)} :: In(Map(m, p), cull) ==> In(p, s)
  }

  /** The local cull rectangle is the smallest that holds all local points that land in the
      cull rectangle; a matrix that cannot be inverted leaves nothing, and one with
      perspective everything. */
  lemma LocalCullIsLeast(cull: Rect, m: M33, perspective: bool, s: Rect)
    requires (HasPerspective(m) ==> perspective) && !IsEmpty(cull)
    ensures Det33(m) == 0.0 ==> IsEmpty(LocalCull(cull, m, perspective))
    ensures Det33(m) != 0.0 && perspective ==> LocalCull(cull, m, perspective) == MAX_CULL_RECT
    ensures Det33(m) != 0.0 && !perspective && HoldsWhatLands(s, AffinePart(m), cull) ==>
              Covers(s, LocalCull(cull, m, perspective))
  {
    if Det33(m) != 0.0 && !perspective && HoldsWhatLands(s, AffinePart(m), cull) {
      DetOfAffine(m);
      LeastPreimage(cull, AffinePart(m), s);
    }
  }

  lemma LeastPreimage(cull: Rect, m: Matrix, s: Rect)
    requires Det(m) != 0.0 && Sorted(cull) && HoldsWhatLands(s, m, cull)
    ensures Covers(s, MapRect(Inverse(m), cull))
  {
    forall q | In(q, cull)
      ensures In(Map(Inverse(m), q), s)
    {
      MapsInverse(m, q);
    }
    MapRectIsLeast(Inverse(m), cull, s);
  }

  /** An intersection leaves strictly inside what was there before and within the mapped clip,
      rounded out by less than a pixel if it is anti-aliased. */
  lemma IntersectNarrows(cull: Rect, m: Matrix, clip: Rect, aa: bool, q: Point)
    ensures StrictlyIn(q, IntersectCull(cull, m, clip, aa)) ==>
              StrictlyIn(q, cull) && !IsEmpty(clip) && In(q, Outset(MapRect(m, clip), 1.0, 1.0))
    ensures !aa ==> (StrictlyIn(q, IntersectCull(cull, m, clip, aa)) <==>
                       !IsEmpty(clip) && StrictlyIn(q, cull) && StrictlyIn(q, MapRect(m, clip)))
  {
    var mapped := MapRect(m, clip);
    var rect := if aa then ToRect(RoundOut(mapped)) else mapped;
    StrictOverlap(cull, rect);
    if aa && In(q, rect) { NearRounded(q, mapped); }
    assert !StrictlyIn(q, EMPTY_RECT);
  }

  // ----- Clips -----

  /** A shape lies in its bounds, and bounds without area enclose nothing. */
  ghost predicate Encloses(bounds: Rect, inside: Region) {
    forall p :: inside(p) ==> In(p, bounds) && !IsEmpty(bounds)
  }

  /** Intersecting with a shape that is not inversely filled keeps the cull rectangle a bound
      of the clip, with or without perspective. */
  lemma IntersectKeepsBounds(cull: Rect, m: M33, perspective: bool, clip: Region, inside: Region, bounds: Rect, aa: bool)
    requires Bounds(cull, clip) && Encloses(bounds, inside) && (HasPerspective(m) ==> perspective)
    ensures Bounds(ClipCull(cull, m, perspective, bounds, Intersect, aa), Clipped(clip, m, inside, false, Intersect))
  {
    var rest := Clipped(clip, m, inside, false, Intersect);
    SmallerRegion(cull, clip, rest);
    if !IsEmpty(cull) && !perspective {
      if IsEmpty(bounds) {
        assert forall q :: !rest(q);
        NothingInside(rest);
      } else {
        var mapped := MapRect(AffinePart(m), bounds);
        var rect := if aa then ToRect(RoundOut(mapped)) else mapped;
        RoundOutCovers(mapped);
        forall q | rest(q)
          ensures In(q, rect)
        {
          ImageIsBounded(m, inside, bounds, q);
        }
        WithinRect(cull, clip, rect, rest);
      }
    }
  }

  /** The rectangle taken out spans the cull rectangle from side to side. */
  predicate Spans(cull: Rect, m: M33, perspective: bool, clip: Rect, aa: bool) {
    !IsEmpty(cull) && !perspective && !IsEmpty(clip) && !IsEmpty(Overlap(clip, cull)) && StaysRect(AffinePart(m)) &&
    (aa ==> !IsEmpty(RoundRect(MapRect(AffinePart(m), clip)))) &&
    Across(cull, if aa then RoundRect(MapRect(AffinePart(m), clip)) else MapRect(AffinePart(m), clip))
  }

  predicate Across(cull: Rect, rect: Rect) {
    || (rect.left <= cull.left && rect.right >= cull.right)
    || (rect.top <= cull.top && rect.bottom >= cull.bottom)
  }

  lemma SliceIsNothing(cull: Rect, rect: Rect)
    requires Sorted(rect)
    ensures SliceCull(cull, rect) == if Across(cull, rect) then EMPTY_RECT else cull
  {
  }

  lemma RoundMonotone(a: real, b: real)
    requires a <= b
    ensures Round(a) <= Round(b)
  {
  }

  lemma RoundKeepsOrder(r: Rect)
    requires Sorted(r)
    ensures Sorted(RoundRect(r))
  {
    RoundMonotone(r.left, r.right);
    RoundMonotone(r.top, r.bottom);
  }

  /** A difference either leaves the cull rectangle alone or, if its rectangle spans it,
      always empties it, however much of it would be left. */
  lemma DifferenceNeverSlices(cull: Rect, m: M33, perspective: bool, clip: Rect, aa: bool)
    ensures ClipCull(cull, m, perspective, clip, Difference, aa)
         == if Spans(cull, m, perspective, clip, aa) then EMPTY_RECT else cull
  {
    var mapped := MapRect(AffinePart(m), clip);
    RoundKeepsOrder(mapped);
    SliceIsNothing(cull, RoundRect(mapped));
    SliceIsNothing(cull, mapped);
  }

  /** So a difference keeps the cull rectangle a bound exactly if it does not span it, or
      leaves a clip without area. */
  lemma WhenDifferenceKeepsBounds(cull: Rect, m: M33, perspective: bool, clip: Region, inside: Region, inverse: bool,
                                  bounds: Rect, aa: bool)
    requires Bounds(cull, clip)
    ensures var rest := Clipped(clip, m, inside, inverse, Difference);
            Bounds(ClipCull(cull, m, perspective, bounds, Difference, aa), rest)
            <==> !Spans(cull, m, perspective, bounds, aa) || forall q :: !Interior(rest, q)
  {
    var rest := Clipped(clip, m, inside, inverse, Difference);
    DifferenceNeverSlices(cull, m, perspective, bounds, aa);
    SmallerRegion(cull, clip, rest);
    assert forall q :: !StrictlyIn(q, EMPTY_RECT);
  }

  function MappedBounds(m: M33, bounds: Rect, aa: bool): Rect {
    var mapped := MapRect(AffinePart(m), bounds);
    if aa then ToRect(RoundOut(mapped)) else mapped
  }

  /** Every interior point of a clip is in a rectangle. */
  ghost predicate InteriorWithin(clip: Region, r: Rect) {
    forall q :: Interior(clip, q) ==> In(q, r)
  }

  /** An inversely filled path is clipped to as if it were not. That keeps the cull rectangle
      a bound exactly if it is not touched, or the clip was within the bounds of the path
      already - or had no area, if those have none. */
  ghost predicate InverseFillIsHarmless(cull: Rect, m: M33, perspective: bool, clip: Region, bounds: Rect, aa: bool) {
    || IsEmpty(cull) || perspective
    || (if IsEmpty(bounds) then forall q :: !Interior(clip, q) else InteriorWithin(clip, MappedBounds(m, bounds, aa)))
  }

  lemma WhenInverseFillKeepsBounds(cull: Rect, m: M33, perspective: bool, clip: Region, inside: Region, bounds: Rect, aa: bool)
    requires Bounds(cull, clip) && Encloses(bounds, inside) && (HasPerspective(m) ==> perspective)
    ensures Bounds(ClipCull(cull, m, perspective, bounds, Intersect, aa), Clipped(clip, m, inside, true, Intersect))
            <==> InverseFillIsHarmless(cull, m, perspective, clip, bounds, aa)
  {
    var rest, cull' := Clipped(clip, m, inside, true, Intersect), ClipCull(cull, m, perspective, bounds, Intersect, aa);
    SmallerRegion(cull, clip, rest);
    if !IsEmpty(cull) && !perspective {
      if IsEmpty(bounds) {
        assert forall q :: rest(q) == clip(q);
        SameInterior(rest, clip);
        assert forall q :: !StrictlyIn(q, cull');
      } else {
        if InteriorWithin(clip, MappedBounds(m, bounds, aa)) {
          HarmlessKeepsBounds(cull, clip, MappedBounds(m, bounds, aa), rest);
        }
        if Bounds(cull', rest) {
          BoundKeptIsHarmless(cull, m, clip, inside, bounds, aa);
        }
      }
    }
  }

  lemma SameInterior(a: Region, b: Region)
    requires forall q :: a(q) == b(q)
    ensures forall q :: Interior(a, q) == Interior(b, q)
  {
    forall q
      ensures Interior(a, q) == Interior(b, q)
    {
      assert forall e :: HoldsAround(a, q, e) == HoldsAround(b, q, e);
    }
  }

  lemma HarmlessKeepsBounds(cull: Rect, clip: Region, mapped: Rect, rest: Region)
    requires Bounds(cull, clip) && InteriorWithin(clip, mapped) && forall q :: rest(q) ==> clip(q)
    ensures Bounds(if IsEmpty(Overlap(cull, mapped)) then EMPTY_RECT else Overlap(cull, mapped), rest)
  {
    forall q | Interior(rest, q)
      ensures StrictlyIn(q, Overlap(cull, mapped))
    {
      var e: real :| e > 0.0 && HoldsAround(rest, q, e);
      assert HoldsAround(clip, q, e);
      InteriorIsOpen(clip, q, e, Point(q.x - e / 2.0, q.y - e / 2.0));
      InteriorIsOpen(clip, q, e, Point(q.x + e / 2.0, q.y + e / 2.0));
      assert Interior(clip, q);
    }
  }

  /** Away from the shape, taking it out leaves the clip alone. */
  lemma BesideShape(clip: Region, m: M33, inside: Region, bounds: Rect, q: Point, e: real, inverse: bool, op: ClipOp)
    requires Encloses(bounds, inside) && !HasPerspective(m) && e > 0.0 && HoldsAround(clip, q, e)
    requires forall p :: Near(p, q, e) ==> !In(p, MapRect(AffinePart(m), bounds))
    requires inverse == (op == Intersect)
    ensures Interior(Clipped(clip, m, inside, inverse, op), q)
  {
    var rest := Clipped(clip, m, inside, inverse, op);
    forall p | Near(p, q, e)
      ensures rest(p)
    {
      if InImage(m, inside, p) {
        ImageIsBounded(m, inside, bounds, p);
      }
    }
    assert HoldsAround(rest, q, e);
  }

  lemma BoundKeptIsHarmless(cull: Rect, m: M33, clip: Region, inside: Region, bounds: Rect, aa: bool)
    requires Encloses(bounds, inside) && !HasPerspective(m) && !IsEmpty(cull) && !IsEmpty(bounds)
    requires Bounds(ClipCull(cull, m, false, bounds, Intersect, aa), Clipped(clip, m, inside, true, Intersect))
    ensures InteriorWithin(clip, MappedBounds(m, bounds, aa))
  {
    var rest, mapped := Clipped(clip, m, inside, true, Intersect), MappedBounds(m, bounds, aa);
    RoundOutCovers(MapRect(AffinePart(m), bounds));
    forall q | Interior(clip, q)
      ensures In(q, mapped)
    {
      if !In(q, mapped) {
        Outside(clip, q, mapped);
        var e: real :| e > 0.0 && HoldsAround(clip, q, e) && forall p :: Near(p, q, e) ==> !In(p, mapped);
        BesideShape(clip, m, inside, bounds, q, e, true, Intersect);
      }
    }
  }

  /** The clips that keep the cull rectangle a bound. */
  ghost predicate KeepsBounds(cull: Rect, m: M33, perspective: bool, clip: Region, inside: Region, inverse: bool,
                              bounds: Rect, op: ClipOp, aa: bool) {
    if op == Difference then
      !Spans(cull, m, perspective, bounds, aa) || forall q :: !Interior(Clipped(clip, m, inside, inverse, op), q)
    else inverse ==> InverseFillIsHarmless(cull, m, perspective, clip, bounds, aa)
  }

  lemma WhenClipKeepsBounds(cull: Rect, m: M33, perspective: bool, clip: Region, inside: Region, inverse: bool,
                            bounds: Rect, op: ClipOp, aa: bool)
    requires Bounds(cull, clip) && Encloses(bounds, inside) && (HasPerspective(m) ==> perspective)
    ensures Bounds(ClipCull(cull, m, perspective, bounds, op, aa), Clipped(clip, m, inside, inverse, op))
            <==> KeepsBounds(cull, m, perspective, clip, inside, inverse, bounds, op, aa)
  {
    if op == Difference {
      WhenDifferenceKeepsBounds(cull, m, perspective, clip, inside, inverse, bounds, aa);
    } else if inverse {
      WhenInverseFillKeepsBounds(cull, m, perspective, clip, inside, bounds, aa);
    } else {
      IntersectKeepsBounds(cull, m, perspective, clip, inside, bounds, aa);
    }
  }

  /** The cull rectangle only shrinks. */
  lemma CullShrinks(cull: Rect, m: M33, perspective: bool, clip: Rect, op: ClipOp, aa: bool)
    ensures forall q :: StrictlyIn(q, ClipCull(cull, m, perspective, clip, op, aa)) ==> StrictlyIn(q, cull)
  {
    DifferenceNeverSlices(cull, m, perspective, clip, aa);
  }

  /** Culled content has no area within the clip. */
  lemma CulledContentCannotShow(cull: Rect, m: M33, perspective: bool, clip: Region, content: Rect, inside: Region)
    requires Bounds(cull, clip) && ContentCulled(cull, m, perspective, content) && (HasPerspective(m) ==> perspective)
    requires forall p :: inside(p) ==> StrictlyIn(p, content)
    ensures var shown := Clipped(clip, m, inside, false, Intersect); forall q :: !Interior(shown, q)
  {
    var rest := Clipped(clip, m, inside, false, Intersect);
    SmallerRegion(cull, clip, rest);
    if IsEmpty(content) {
      assert forall q :: !rest(q);
      NothingInside(rest);
    } else if !IsEmpty(cull) {
      var mapped := MapRect(AffinePart(m), content);
      forall q | rest(q)
        ensures In(q, mapped)
      {
        ImageIsBounded(m, inside, content, q);
      }
      WithinRect(cull, clip, mapped, rest);
    }
  }

  /** Every local point that shows is in the local cull rectangle, if the matrix is affine
      and can be inverted. */
  lemma LocalCullBounds(cull: Rect, m: M33, clip: Region, p: Point, q: Point)
    requires Bounds(cull, clip) && Interior(clip, q) && Lands(m, p, q)
    requires !HasPerspective(m) && Det33(m) != 0.0
    ensures In(p, LocalCull(cull, m, false))
  {
    DetOfAffine(m);
    LandsAffinely(m, p, q);
    InverseMaps(AffinePart(m), p);
    MapRectContains(Inverse(AffinePart(m)), cull, q);
  }

  // ----- Inputs on which the bound is lost -----

  /** A square clip, and an inversely filled path around the middle of it: the corners are
      still clipped to, but the cull rectangle has shrunk to the middle. */
  lemma InverseFillLosesBounds(cull: Rect, bounds: Rect, clip: Region, inside: Region)
    requires cull == Rect(0.0, 0.0, 10.0, 10.0) && clip == (q => In(q, cull))
    requires bounds == Rect(4.0, 4.0, 6.0, 6.0) && inside == (q => In(q, bounds))
    ensures Bounds(cull, clip)
    ensures !Bounds(ClipCull(cull, UNIT33, false, bounds, Intersect, false), Clipped(clip, UNIT33, inside, true, Intersect))
  {
    var q := Point(1.0, 1.0);
    InteriorOfRect(clip, cull);
    assert HoldsAround(clip, q, 1.0);
    UnitMapsRect(bounds);
    WhenInverseFillKeepsBounds(cull, UNIT33, false, clip, inside, bounds, false);
    assert Interior(clip, q) && !In(q, bounds);
  }

  /** A rectangle that spans the cull rectangle is taken out, but part of the clip is beside
      it. */
  lemma SpanningDifferenceLosesBounds(cull: Rect, m: M33, bounds: Rect, clip: Region, inside: Region, q: Point)
    requires m == UNIT33 && Bounds(cull, clip) && Encloses(bounds, inside) && HoldsAround(clip, q, 1.0)
    requires !IsEmpty(cull) && !IsEmpty(bounds) && !IsEmpty(Overlap(bounds, cull)) && Across(cull, bounds)
    requires forall p :: Near(p, q, 1.0) ==> !In(p, bounds)
    ensures !Bounds(ClipCull(cull, m, false, bounds, Difference, false), Clipped(clip, m, inside, false, Difference))
  {
    UnitIsPlain();
    UnitMapsRect(bounds);
    SpansUnrounded(cull, m, bounds);
    BesideShape(clip, m, inside, bounds, q, 1.0, false, Difference);
    WhenDifferenceKeepsBounds(cull, m, false, clip, inside, false, bounds, false);
  }

  /** A square clip whose upper half is taken out: the lower half is still clipped to, but the
      cull rectangle is empty. */
  lemma DifferenceLosesBounds(cull: Rect, m: M33, bounds: Rect, clip: Region, inside: Region)
    requires cull == Rect(0.0, 0.0, 10.0, 10.0) && m == UNIT33 && clip == (q => In(q, cull))
    requires bounds == Rect(0.0, 0.0, 10.0, 5.0) && inside == (q => In(q, bounds))
    ensures Bounds(cull, clip)
    ensures !Bounds(ClipCull(cull, m, false, bounds, Difference, false), Clipped(clip, m, inside, false, Difference))
  {
    UpperHalf(cull, bounds, clip, inside, Point(5.0, 8.0));
    SpanningDifferenceLosesBounds(cull, m, bounds, clip, inside, Point(5.0, 8.0));
  }

  lemma UpperHalf(cull: Rect, bounds: Rect, clip: Region, inside: Region, q: Point)
    requires cull == Rect(0.0, 0.0, 10.0, 10.0) && clip == (p => In(p, cull))
    requires bounds == Rect(0.0, 0.0, 10.0, 5.0) && inside == (p => In(p, bounds)) && q == Point(5.0, 8.0)
    ensures Bounds(cull, clip) && Encloses(bounds, inside) && HoldsAround(clip, q, 1.0)
    ensures !IsEmpty(cull) && !IsEmpty(bounds) && !IsEmpty(Overlap(bounds, cull)) && Across(cull, bounds)
    ensures forall p :: Near(p, q, 1.0) ==> !In(p, bounds)
  {
    InteriorOfRect(clip, cull);
  }

  lemma SpansUnrounded(cull: Rect, m: M33, bounds: Rect)
    requires !IsEmpty(cull) && !HasPerspective(m) && !IsEmpty(bounds) && !IsEmpty(Overlap(bounds, cull))
    requires StaysRect(AffinePart(m)) && Across(cull, MapRect(AffinePart(m), bounds))
    ensures Spans(cull, m, false, bounds, false)
  {
  }

  lemma UnitIsPlain()
    ensures !HasPerspective(UNIT33) && StaysRect(AffinePart(UNIT33))
  {
  }

  lemma UnitMapsRect(r: Rect)
    requires Sorted(r)
    ensures MapRect(AffinePart(UNIT33), r) == r
  {
  }

  // ----- The tracker -----

  /** One saved state: the matrix in the smaller form as long as that is enough. */
  datatype Data = Data3x3(matrix: M33, cull: Rect) | Data4x4(m44: M44, cull: Rect) {
    function Matrix3x3(): M33 {
      if Data3x3? then matrix else AsM33(m44)
    }

    function Matrix4x4(): M44 {
      if Data3x3? then Embed(matrix) else m44
    }

    predicate Perspective() {
      if Data3x3? then matrix.m20 != 0.0 || matrix.m21 != 0.0 || matrix.m22 != 1.0
      else m44.m30 != 0.0 || m44.m31 != 0.0 || m44.m32 != 0.0 || m44.m33 != 1.0
    }
  }

  predicate Perspective44(m: M44) {
    m.m30 != 0.0 || m.m31 != 0.0 || m.m32 != 0.0 || m.m33 != 1.0
  }

  /** Everything that can be asked of a saved state depends on the 4x4 matrix it stands for
      and the cull rectangle, not on the form of the matrix. */
  lemma FormDoesNotMatter(d: Data)
    ensures d.Matrix3x3() == AsM33(d.Matrix4x4())
    ensures d.Perspective() == Perspective44(d.Matrix4x4())
    ensures HasPerspective(d.Matrix3x3()) ==> d.Perspective()
  {
  }

  class MatrixClipTracker {
    var saved: seq<Data>

    /** The plain stack of 4x4 matrices, and the real clips. */
    ghost var reference: seq<M44>
    ghost var clips: seq<Region>

    ghost predicate Valid()
      reads this
    {
      && |saved| == |reference| == |clips| >= 1
      && forall k :: 0 <= k < |saved| ==> saved[k].Matrix4x4() == reference[k]
    }

    /** At every level the cull rectangle bounds the clip. */
    ghost predicate Conservative()
      requires Valid()
      reads this
    {
      forall k :: 0 <= k < |saved| ==> Bounds(saved[k].cull, clips[k])
    }

    function Current(): Data
      requires saved != []
      reads this`saved
    {
      Last(saved)
    }

    constructor (cullRect: Rect, m44: M44, ghost clip: Region)
      ensures Valid() && reference == [m44] && clips == [clip]
      ensures Current().cull == cullRect && Current().Data3x3? == Is3x3(m44)
      ensures Bounds(cullRect, clip) ==> Conservative()
    {
      saved := [if Is3x3(m44) then Data3x3(AsM33(m44), cullRect) else Data4x4(m44, cullRect)];
      reference, clips := [m44], [clip];
      new;
      Is3x3IsTheImage(m44);
    }

    constructor With3x3(cullRect: Rect, m: M33, ghost clip: Region)
      ensures Valid() && reference == [Embed(m)] && clips == [clip]
      ensures Current() == Data3x3(m, cullRect)
      ensures Bounds(cullRect, clip) ==> Conservative()
    {
      saved := [Data3x3(m, cullRect)];
      reference, clips := [Embed(m)], [clip];
    }

    method Save()
      requires Valid()
      modifies this
      ensures Valid() && (old(Conservative()) ==> Conservative())
      ensures saved == old(saved) + [old(Current())]
      ensures reference == old(reference) + [old(Last(reference))] && clips == old(clips) + [old(Last(clips))]
    {
      saved := saved + [saved[|saved| - 1]];
      reference, clips := reference + [Last(reference)], clips + [Last(clips)];
    }

    /** What was saved is back exactly. Callers do not restore more than they have saved. */
    method Restore()
      requires Valid() && |saved| > 1
      modifies this
      ensures Valid() && (old(Conservative()) ==> Conservative())
      ensures saved == old(Init(saved)) && reference == old(Init(reference)) && clips == old(Init(clips))
    {
      saved := saved[..|saved| - 1];
      reference, clips := Init(reference), Init(clips);
    }

    method RestoreToCount(restoreCount: int)
      requires Valid()
      modifies this
      ensures Valid() && (old(Conservative()) ==> Conservative())
      ensures var count := if restoreCount < 1 then 1 else if restoreCount > old(|saved|) then old(|saved|) else restoreCount;
              && saved == old(saved)[..count] && reference == old(reference)[..count] && clips == old(clips)[..count]
    {
      var count := if restoreCount < 1 then 1 else restoreCount;
      while count < |saved|
        invariant Valid() && (old(Conservative()) ==> Conservative())
        invariant |saved| <= old(|saved|) && (count >= old(|saved|) ==> |saved| == old(|saved|))
        invariant count < old(|saved|) ==> count <= |saved|
        invariant saved == old(saved)[..|saved|]
        invariant reference == old(reference)[..|saved|] && clips == old(clips)[..|saved|]
        decreases |saved|
      {
        Restore();
      }
    }

    /** The current matrix is replaced, in whichever form. */
    method ReplaceMatrix(d: Data, ghost m: M44)
      requires Valid() && d.Matrix4x4() == m && d.cull == Current().cull
      modifies this`saved, this`reference
      ensures Valid() && (old(Conservative()) ==> Conservative())
      ensures saved == old(Init(saved)) + [d] && reference == old(Init(reference)) + [m]
    {
      saved := saved[..|saved| - 1] + [d];
      reference := Init(reference) + [m];
    }

    /** translate, scale, skew, rotate and transform by a 3x3 matrix. */
    method Transform3x3(m: M33)
      requires Valid()
      modifies this`saved, this`reference
      ensures Valid() && (old(Conservative()) ==> Conservative())
      ensures Init(reference) == old(Init(reference)) && Last(reference) == Product(old(Last(reference)), Embed(m))
      ensures forall v :: Act(Last(reference), v) == Act(old(Last(reference)), Act(Embed(m), v))
      ensures Current().Data3x3? == old(Current()).Data3x3? && Current().cull == old(Current().cull)
    {
      var top := saved[|saved| - 1];
      ghost var product := Product(Last(reference), Embed(m));
      ProductActsThroughout(Last(reference), Embed(m));
      if top.Data3x3? {
        EmbedRespectsProducts(top.matrix, m);
        ReplaceMatrix(top.(matrix := Product33(top.matrix, m)), product);
      } else {
        ReplaceMatrix(top.(m44 := Product(top.m44, Embed(m))), product);
      }
    }

    /** A 4x4 matrix that is no 3x3 matrix makes the current state 4x4 for good. */
    method Transform(m: M44)
      requires Valid()
      modifies this`saved, this`reference
      ensures Valid() && (old(Conservative()) ==> Conservative())
      ensures Init(reference) == old(Init(reference)) && Last(reference) == Product(old(Last(reference)), m)
      ensures forall v :: Act(Last(reference), v) == Act(old(Last(reference)), Act(m, v))
      ensures Current().Data3x3? == (old(Current()).Data3x3? && Is3x3(m)) && Current().cull == old(Current().cull)
    {
      var top := saved[|saved| - 1];
      Is3x3IsTheImage(m);
      ProductActsThroughout(Last(reference), m);
      if top.Data3x3? && Is3x3(m) {
        Transform3x3(AsM33(m));
      } else {
        ReplaceMatrix(Data4x4(Product(top.Matrix4x4(), m), top.cull), Product(Last(reference), m));
      }
    }

    method SetTransform3x3(m: M33)
      requires Valid()
      modifies this`saved, this`reference
      ensures Valid() && (old(Conservative()) ==> Conservative())
      ensures Init(reference) == old(Init(reference)) && Last(reference) == Embed(m)
      ensures Current().Data3x3? == old(Current()).Data3x3? && Current().cull == old(Current().cull)
    {
      var top := saved[|saved| - 1];
      ReplaceMatrix(if top.Data3x3? then top.(matrix := m) else top.(m44 := Embed(m)), Embed(m));
    }

    method SetIdentity()
      requires Valid()
      modifies this`saved, this`reference
      ensures Valid() && (old(Conservative()) ==> Conservative())
      ensures Init(reference) == old(Init(reference)) && Last(reference) == IDENTITY
      ensures Current().Data3x3? == old(Current()).Data3x3? && Current().cull == old(Current().cull)
    {
      SetTransform3x3(UNIT33);
    }

    method SetTransform(m: M44)
      requires Valid()
      modifies this`saved, this`reference
      ensures Valid() && (old(Conservative()) ==> Conservative())
      ensures Init(reference) == old(Init(reference)) && Last(reference) == m
      ensures Current().Data3x3? == (old(Current()).Data3x3? && Is3x3(m)) && Current().cull == old(Current().cull)
    {
      var top := saved[|saved| - 1];
      Is3x3IsTheImage(m);
      ProductActsThroughout(Last(reference), m);
      if top.Data3x3? && Is3x3(m) {
        SetTransform3x3(AsM33(m));
      } else {
        ReplaceMatrix(Data4x4(m, top.cull), m);
      }
    }

    /** Clips by a shape with these bounds. Whether the cull rectangle stays a bound of the
        clip is said exactly; it always does for an intersection with a shape that is not
        inversely filled, and for a difference that does not span it. */
    method ClipBounds(bounds: Rect, op: ClipOp, aa: bool, inverse: bool, ghost inside: Region)
      requires Valid() && Encloses(bounds, inside)
      modifies this
      ensures Valid() && reference == old(reference)
      ensures |saved| == old(|saved|) && Init(saved) == old(Init(saved)) && Init(clips) == old(Init(clips))
      ensures Current() == old(Current()).(cull :=
                ClipCull(old(Current().cull), AsM33(Last(reference)), Perspective44(Last(reference)), bounds, op, aa))
      ensures Last(clips) == Clipped(old(Last(clips)), AsM33(Last(reference)), inside, inverse, op)
      ensures forall q :: StrictlyIn(q, Current().cull) ==> StrictlyIn(q, old(Current().cull))
      ensures old(Conservative()) ==>
                (Conservative() <==> KeepsBounds(old(Current().cull), AsM33(Last(reference)), Perspective44(Last(reference)),
                                                 old(Last(clips)), inside, inverse, bounds, op, aa))
    {
      var top := saved[|saved| - 1];
      ghost var m, perspective, clip := top.Matrix3x3(), top.Perspective(), Last(clips);
      FormDoesNotMatter(top);
      var cull := ClipCull(top.cull, top.Matrix3x3(), top.Perspective(), bounds, op, aa);
      CullShrinks(top.cull, m, perspective, bounds, op, aa);
      if Bounds(top.cull, clip) {
        WhenClipKeepsBounds(top.cull, m, perspective, clip, inside, inverse, bounds, op, aa);
      }
      saved := saved[..|saved| - 1] + [top.(cull := cull)];
      clips := Init(clips) + [Clipped(clip, m, inside, inverse, op)];
    }

    /** A rounded rectangle or a path. A difference with one that is no rectangle is ignored,
        which leaves the cull rectangle larger than it need be. */
    method ClipShape(bounds: Rect, isRect: bool, op: ClipOp, aa: bool, inverse: bool, ghost inside: Region)
      requires Valid() && Encloses(bounds, inside)
      modifies this
      ensures Valid() && reference == old(reference)
      ensures |saved| == old(|saved|) && Init(saved) == old(Init(saved)) && Init(clips) == old(Init(clips))
      ensures Last(clips) == Clipped(old(Last(clips)), AsM33(Last(reference)), inside, inverse, op)
      ensures op == Difference && !isRect ==> saved == old(saved)
      ensures old(Conservative()) ==>
                (Conservative() <==>
                   (op == Difference && !isRect) ||
                   KeepsBounds(old(Current().cull), AsM33(Last(reference)), Perspective44(Last(reference)),
                               old(Last(clips)), inside, inverse, bounds, op, aa))
    {
      if op == Difference && !isRect {
        ghost var rest := Clipped(Last(clips), AsM33(Last(reference)), inside, inverse, op);
        if Bounds(Last(saved).cull, Last(clips)) {
          SmallerRegion(Last(saved).cull, Last(clips), rest);
        }
        clips := Init(clips) + [rest];
        return;
      }
      ClipBounds(bounds, op, aa, inverse, inside);
    }

    method ContentIsCulled(content: Rect, ghost inside: Region) returns (culled: bool)
      requires Valid() && forall p :: inside(p) ==> StrictlyIn(p, content)
      ensures culled == ContentCulled(Current().cull, AsM33(Last(reference)), Perspective44(Last(reference)), content)
      ensures culled && Conservative() ==>
                var shown := Clipped(Last(clips), AsM33(Last(reference)), inside, false, Intersect);
                forall q :: !Interior(shown, q)
    {
      var top := saved[|saved| - 1];
      FormDoesNotMatter(top);
      culled := ContentCulled(top.cull, top.Matrix3x3(), top.Perspective(), content);
      if culled && Conservative() {
        CulledContentCannotShow(top.cull, top.Matrix3x3(), top.Perspective(), Last(clips), content, inside);
      }
    }

    method LocalCullRect() returns (r: Rect)
      requires Valid()
      ensures HasPerspective(AsM33(Last(reference))) ==> Perspective44(Last(reference))
      ensures r == LocalCull(Current().cull, AsM33(Last(reference)), Perspective44(Last(reference)))
      ensures Conservative() && !Perspective44(Last(reference)) && Det33(AsM33(Last(reference))) != 0.0 ==>
                forall p, q :: Interior(Last(clips), q) && Lands(AsM33(Last(reference)), p, q) ==> In(p, r)
    {
      var top := saved[|saved| - 1];
      FormDoesNotMatter(top);
      r := LocalCull(top.cull, top.Matrix3x3(), top.Perspective());
      ghost var m, clip := top.Matrix3x3(), Last(clips);
      if Conservative() && !top.Perspective() && Det33(m) != 0.0 {
        forall p, q | Interior(clip, q) && Lands(m, p, q)
          ensures In(p, r)
        {
          LocalCullBounds(top.cull, m, clip, p, q);
        }
      }
    }
  }
}
