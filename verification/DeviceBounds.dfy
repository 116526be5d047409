// When the device bounds of image filters, computed in whole pixels under one matrix, cover
// the image of the local bounds: exactly for which filters, and for which trees of them.
module DeviceBounds {
  import opened Basics
  import opened DisplayListOps
  import opened Geometry
  import opened ImageFilter

  // ----- Rectangles by centre and half size -----

  function Box(p: Point, h: Point): Rect {
    Rect(p.x - h.x, p.y - h.y, p.x + h.x, p.y + h.y)
  }

  function Center(r: Rect): Point {
    Point((r.left + r.right) / 2.0, (r.top + r.bottom) / 2.0)
  }

  function HalfSize(r: Rect): Point {
    Point((r.right - r.left) / 2.0, (r.bottom - r.top) / 2.0)
  }

  lemma BoxOf(r: Rect)
    ensures Box(Center(r), HalfSize(r)) == r
    ensures Sorted(r) ==> Positive(HalfSize(r))
  {
  }

  predicate Positive(h: Point) {
    h.x >= 0.0 && h.y >= 0.0
  }

  predicate Fits(h: Point, k: Point) {
    h.x <= k.x && h.y <= k.y
  }

  /** The half size of the image of a rectangle of half size h. */
  function Spread(m: Matrix, h: Point): Point {
    MapVectorsAffine(m, h.x, h.y)
  }

  lemma SignedProduct(a: real, x: real)
    requires x >= 0.0
    ensures a * x == x * Abs(a) || a * x == -(x * Abs(a))
    ensures x * Abs(a) >= 0.0
  {
  }

  /** Four sums of signed terms. */
  lemma CornersOfBox(s: real, t: real, c: real, u: real, v: real, u': real, v': real,
                     p0: real, p1: real, p2: real, p3: real)
    requires (u == u' || u == -u') && (v == v' || v == -v') && u' >= 0.0 && v' >= 0.0
    requires p0 == s - u + t - v + c && p1 == s + u + t - v + c && p2 == s + u + t + v + c && p3 == s - u + t + v + c
    ensures Min4(p0, p1, p2, p3) == s + t + c - (u' + v')
    ensures Max4(p0, p1, p2, p3) == s + t + c + (u' + v')
  {
  }

  lemma Edge(a: real, low: real, high: real, x: real, h: real)
    requires low == x - h && high == x + h
    ensures a * low == a * x - a * h && a * high == a * x + a * h
  {
  }

  lemma CornerRows(a: real, b: real, c: real, r: Rect, s: real, t: real, u: real, v: real, row: real, radius: real)
    requires a * r.left == s - u && a * r.right == s + u && b * r.top == t - v && b * r.bottom == t + v
    requires row == s + t + c && radius == Abs(u) + Abs(v)
    ensures CornerMin(a, b, c, r) == row - radius && CornerMax(a, b, c, r) == row + radius
  {
    CornersOfBox(s, t, c, u, v, Abs(u), Abs(v),
                 Row(a, b, c, Point(r.left, r.top)), Row(a, b, c, Point(r.right, r.top)),
                 Row(a, b, c, Point(r.right, r.bottom)), Row(a, b, c, Point(r.left, r.bottom)));
  }

  lemma RadiusOfSigned(a: real, b: real, h: Point)
    requires Positive(h)
    ensures h.x * Abs(a) + h.y * Abs(b) == Abs(a * h.x) + Abs(b * h.y)
  {
    SignedProduct(a, h.x);
    SignedProduct(b, h.y);
  }

  lemma EdgesOfBox(a: real, b: real, r: Rect, p: Point, h: Point)
    requires r == Box(p, h)
    ensures a * r.left == a * p.x - a * h.x && a * r.right == a * p.x + a * h.x
    ensures b * r.top == b * p.y - b * h.y && b * r.bottom == b * p.y + b * h.y
  {
    Edge(a, r.left, r.right, p.x, h.x);
    Edge(b, r.top, r.bottom, p.y, h.y);
  }

  lemma RowMapsBox(a: real, b: real, c: real, r: Rect, p: Point, h: Point, radius: real)
    requires r == Box(p, h) && Positive(h) && radius == h.x * Abs(a) + h.y * Abs(b)
    ensures CornerMin(a, b, c, r) == Row(a, b, c, p) - radius
    ensures CornerMax(a, b, c, r) == Row(a, b, c, p) + radius
  {
    EdgesOfBox(a, b, r, p, h);
    RadiusOfSigned(a, b, h);
    CornerRows(a, b, c, r, a * p.x, b * p.y, a * h.x, b * h.y, Row(a, b, c, p), radius);
  }

  /** The bounds of the image are centred on the image of the centre, and the radius of the
      matrix is their half size. */
  lemma MapBox(m: Matrix, p: Point, h: Point)
    requires Positive(h)
    ensures MapRect(m, Box(p, h)) == Box(Map(m, p), Spread(m, h))
  {
    var r, radius := Box(p, h), Spread(m, h);
    RowMapsBox(m.sx, m.kx, m.tx, r, p, h, radius.x);
    RowMapsBox(m.ky, m.sy, m.ty, r, p, h, radius.y);
  }

  lemma TermsCombine(a: real, b: real, x: real, y: real, h: Point, k: Point)
    ensures (x * h.x + y * k.x) * a + (x * h.y + y * k.y) * b == x * (h.x * a + h.y * b) + y * (k.x * a + k.y * b)
  {
  }

  function Combine(x: real, h: Point, y: real, k: Point): Point {
    Point(x * h.x + y * k.x, x * h.y + y * k.y)
  }

  lemma SpreadCombines(m: Matrix, x: real, h: Point, y: real, k: Point)
    ensures Spread(m, Combine(x, h, y, k)) == Combine(x, Spread(m, h), y, Spread(m, k))
  {
    TermsCombine(Abs(m.sx), Abs(m.kx), x, y, h, k);
    TermsCombine(Abs(m.ky), Abs(m.sy), x, y, h, k);
  }

  lemma SpreadIsPositive(m: Matrix, h: Point)
    requires Positive(h)
    ensures Positive(Spread(m, h))
  {
    RadiusIsNonnegative(m, h.x, h.y);
  }

  // ----- Blurs, dilations and erosions -----

  /** The radius added in whole pixels under dev is at least that of ctm. */
  predicate Reaches(x: real, y: real, ctm: Matrix, dev: Matrix) {
    && Spread(ctm, Point(x, y)).x <= Ceil(Spread(dev, Point(x, y)).x) as real
    && Spread(ctm, Point(x, y)).y <= Ceil(Spread(dev, Point(x, y)).y) as real
  }

  /** The radius taken off in whole pixels under dev is at most that of ctm. */
  predicate Spares(x: real, y: real, ctm: Matrix, dev: Matrix) {
    && Spread(dev, Point(x, y)).x.Floor as real <= Spread(ctm, Point(x, y)).x
    && Spread(dev, Point(x, y)).y.Floor as real <= Spread(ctm, Point(x, y)).y
  }

  lemma OutsetMaps(ctm: Matrix, r: Rect, x: real, y: real)
    requires Sorted(r) && Sorted(Outset(r, x, y))
    ensures MapRect(ctm, Outset(r, x, y)) == Outset(MapRect(ctm, r), Spread(ctm, Point(x, y)).x, Spread(ctm, Point(x, y)).y)
  {
    var p, h := Center(r), HalfSize(r);
    BoxOf(r);
    MapBox(ctm, p, h);
    var k := Point(h.x + x, h.y + y);
    MapBox(ctm, p, k);
    SpreadCombines(ctm, 1.0, h, 1.0, Point(x, y));
    assert Combine(1.0, h, 1.0, Point(x, y)) == k;
    assert Outset(r, x, y) == Box(p, k);
  }

  predicate CoversOutset(r: Rect, d: IRect, x: real, y: real, ctm: Matrix, dev: Matrix) {
    Covers(ToRect(OutsetDeviceBounds(d, x, y, dev)), MapRect(ctm, Outset(r, x, y)))
  }

  predicate CoversInset(r: Rect, d: IRect, x: real, y: real, ctm: Matrix, dev: Matrix) {
    Covers(ToRect(InsetDeviceBounds(d, x, y, dev)), MapRect(ctm, Outset(r, -x, -y)))
  }

  predicate CoversImage(r: Rect, d: IRect, ctm: Matrix) {
    Covers(ToRect(d), MapRect(ctm, r))
  }

  lemma OutsetCovers(r: Rect, d: IRect, x: real, y: real, ctm: Matrix, dev: Matrix)
    requires Sorted(r) && x >= 0.0 && y >= 0.0 && CoversImage(r, d, ctm) && Reaches(x, y, ctm, dev)
    ensures CoversOutset(r, d, x, y, ctm, dev)
  {
    OutsetMaps(ctm, r, x, y);
  }

  lemma NegatedSpread(m: Matrix, x: real, y: real)
    ensures Spread(m, Point(-x, -y)) == Point(-Spread(m, Point(x, y)).x, -Spread(m, Point(x, y)).y)
  {
    SpreadCombines(m, -1.0, Point(x, y), 0.0, Point(x, y));
    assert Combine(-1.0, Point(x, y), 0.0, Point(x, y)) == Point(-x, -y);
  }

  lemma InsetCovers(r: Rect, d: IRect, x: real, y: real, ctm: Matrix, dev: Matrix)
    requires Sorted(Outset(r, -x, -y)) && x >= 0.0 && y >= 0.0 && CoversImage(r, d, ctm) && Spares(x, y, ctm, dev)
    ensures CoversInset(r, d, x, y, ctm, dev)
  {
    OutsetMaps(ctm, r, -x, -y);
    NegatedSpread(ctm, x, y);
  }

  lemma PointOver(ctm: Matrix, q: Point) returns (p: Point)
    requires Det(ctm) != 0.0
    ensures Map(ctm, p) == q
  {
    p := Map(Inverse(ctm), q);
    MapsInverse(ctm, q);
  }

  /** A box of a given half size whose image has its upper left corner at the origin. */
  lemma BoxAtOrigin(ctm: Matrix, h: Point) returns (r: Rect)
    requires Det(ctm) != 0.0 && Positive(h)
    ensures r == Box(Center(r), h) && Sorted(r)
    ensures MapRect(ctm, r).left == 0.0 && MapRect(ctm, r).top == 0.0
  {
    var p := PointOver(ctm, Spread(ctm, h));
    r := Box(p, h);
    assert Center(r) == p;
    MapBox(ctm, p, h);
  }

  lemma OutsetFallsShort(x: real, y: real, ctm: Matrix, dev: Matrix) returns (r: Rect, d: IRect)
    requires x >= 0.0 && y >= 0.0 && Det(ctm) != 0.0 && !Reaches(x, y, ctm, dev)
    ensures Sorted(r) && CoversImage(r, d, ctm) && !CoversOutset(r, d, x, y, ctm, dev)
  {
    r := BoxAtOrigin(ctm, Point(0.0, 0.0));
    d := RoundOut(MapRect(ctm, r));
    RoundOutCovers(MapRect(ctm, r));
    OutsetMaps(ctm, r, x, y);
  }

  lemma InsetFallsShort(x: real, y: real, ctm: Matrix, dev: Matrix) returns (r: Rect, d: IRect)
    requires x >= 0.0 && y >= 0.0 && Det(ctm) != 0.0 && !Spares(x, y, ctm, dev)
    ensures Sorted(Outset(r, -x, -y)) && CoversImage(r, d, ctm) && !CoversInset(r, d, x, y, ctm, dev)
  {
    r := BoxAtOrigin(ctm, Point(x, y));
    d := RoundOut(MapRect(ctm, r));
    RoundOutCovers(MapRect(ctm, r));
    OutsetMaps(ctm, r, -x, -y);
    NegatedSpread(ctm, x, y);
  }

  /** Enlarged device bounds cover the image of enlarged local bounds, whatever the bounds,
      exactly if the radius reaches. */
  lemma WhenOutsetCovers(x: real, y: real, ctm: Matrix, dev: Matrix)
    requires x >= 0.0 && y >= 0.0 && Det(ctm) != 0.0
    ensures (forall r, d :: Sorted(r) && CoversImage(r, d, ctm) ==> CoversOutset(r, d, x, y, ctm, dev))
       <==> Reaches(x, y, ctm, dev)
  {
    if Reaches(x, y, ctm, dev) {
      forall r, d | Sorted(r) && CoversImage(r, d, ctm) ensures CoversOutset(r, d, x, y, ctm, dev) {
        OutsetCovers(r, d, x, y, ctm, dev);
      }
    } else {
      var r, d := OutsetFallsShort(x, y, ctm, dev);
    }
  }

  /** Shrunk device bounds cover the image of shrunk local bounds, whatever the bounds,
      exactly if the radius spares enough. */
  lemma WhenInsetCovers(x: real, y: real, ctm: Matrix, dev: Matrix)
    requires x >= 0.0 && y >= 0.0 && Det(ctm) != 0.0
    ensures (forall r, d :: Sorted(Outset(r, -x, -y)) && CoversImage(r, d, ctm) ==> CoversInset(r, d, x, y, ctm, dev))
       <==> Spares(x, y, ctm, dev)
  {
    if Spares(x, y, ctm, dev) {
      forall r, d | Sorted(Outset(r, -x, -y)) && CoversImage(r, d, ctm) ensures CoversInset(r, d, x, y, ctm, dev) {
        InsetCovers(r, d, x, y, ctm, dev);
      }
    } else {
      var r, d := InsetFallsShort(x, y, ctm, dev);
    }
  }

  // ----- Matrix filters -----

  /** How far the unit vectors spread. */
  function Across(m: Matrix): Point {
    Point(Abs(m.sx), Abs(m.ky))
  }

  function Down(m: Matrix): Point {
    Point(Abs(m.kx), Abs(m.sy))
  }

  /** For a vector along either axis: bounds spread no further when first mapped in local
      space than when all is mapped in device space. */
  predicate Spreads(f: Matrix, m: Matrix, ctm: Matrix) {
    && Fits(Spread(ctm, Across(m)), Spread(f, Across(ctm)))
    && Fits(Spread(ctm, Down(m)), Spread(f, Down(ctm)))
  }

  lemma CombineFits(x: real, y: real, a: Point, b: Point, a': Point, b': Point)
    requires x >= 0.0 && y >= 0.0 && Fits(a, a') && Fits(b, b')
    ensures Fits(Combine(x, a, y, b), Combine(x, a', y, b'))
  {
    ProductOfDifference(x, a.x, a'.x);
    ProductOfDifference(x, a.y, a'.y);
    ProductOfDifference(y, b.x, b'.x);
    ProductOfDifference(y, b.y, b'.y);
    ProductSign(x, a'.x - a.x);
    ProductSign(x, a'.y - a.y);
    ProductSign(y, b'.x - b.x);
    ProductSign(y, b'.y - b.y);
  }

  lemma SpreadTwice(a: Matrix, b: Matrix, h: Point)
    ensures Spread(a, Spread(b, h)) == Combine(h.x, Spread(a, Across(b)), h.y, Spread(a, Down(b)))
  {
    assert Spread(b, h) == Combine(h.x, Across(b), h.y, Down(b));
    SpreadCombines(a, h.x, Across(b), h.y, Down(b));
  }

  lemma SpreadsAll(f: Matrix, m: Matrix, ctm: Matrix, h: Point)
    requires Spreads(f, m, ctm) && Positive(h)
    ensures Fits(Spread(ctm, Spread(m, h)), Spread(f, Spread(ctm, h)))
  {
    SpreadTwice(ctm, m, h);
    SpreadTwice(f, ctm, h);
    CombineFits(h.x, h.y, Spread(ctm, Across(m)), Spread(ctm, Down(m)), Spread(f, Across(ctm)), Spread(f, Down(ctm)));
  }

  lemma MapRectMonotone(m: Matrix, r: Rect, s: Rect)
    requires Sorted(s) && Covers(r, s)
    ensures Covers(MapRect(m, r), MapRect(m, s))
  {
    MapRectContains(m, r, Point(s.left, s.top));
    MapRectContains(m, r, Point(s.right, s.top));
    MapRectContains(m, r, Point(s.right, s.bottom));
    MapRectContains(m, r, Point(s.left, s.bottom));
  }

  /** The two ways to map a rectangle twice, by centre and half size. */
  lemma BothMaps(f: Matrix, m: Matrix, ctm: Matrix, p: Point, h: Point)
    requires Concat(f, ctm) == Concat(ctm, m) && Positive(h)
    ensures MapRect(ctm, MapRect(m, Box(p, h))) == Box(Map(ctm, Map(m, p)), Spread(ctm, Spread(m, h)))
    ensures MapRect(f, MapRect(ctm, Box(p, h))) == Box(Map(ctm, Map(m, p)), Spread(f, Spread(ctm, h)))
  {
    MapBox(m, p, h);
    SpreadIsPositive(m, h);
    MapBox(ctm, Map(m, p), Spread(m, h));
    MapBox(ctm, p, h);
    SpreadIsPositive(ctm, h);
    MapBox(f, Map(ctm, p), Spread(ctm, h));
    MapConcat(f, ctm, p);
    MapConcat(ctm, m, p);
  }

  predicate CoversMapped(r: Rect, d: IRect, m: Matrix, ctm: Matrix, f: Matrix) {
    Covers(ToRect(RoundOut(MapRect(f, ToRect(d)))), MapRect(ctm, MapRect(m, r)))
  }

  lemma BoxCovers(p: Point, h: Point, k: Point)
    ensures Covers(Box(p, k), Box(p, h)) <==> Fits(h, k)
  {
  }

  lemma MatrixCovers(r: Rect, d: IRect, m: Matrix, ctm: Matrix, f: Matrix)
    requires Concat(f, ctm) == Concat(ctm, m) && Spreads(f, m, ctm)
    requires Sorted(r) && CoversImage(r, d, ctm)
    ensures CoversMapped(r, d, m, ctm, f)
  {
    var p, h := Center(r), HalfSize(r);
    BoxOf(r);
    BothMaps(f, m, ctm, p, h);
    SpreadsAll(f, m, ctm, h);
    BoxCovers(Map(ctm, Map(m, p)), Spread(ctm, Spread(m, h)), Spread(f, Spread(ctm, h)));
    MapRectMonotone(f, ToRect(d), MapRect(ctm, r));
    RoundOutCovers(MapRect(f, ToRect(d)));
    CoversTransitive(MapRect(f, ToRect(d)), MapRect(f, MapRect(ctm, r)), MapRect(ctm, MapRect(m, r)));
    CoversTransitive(ToRect(RoundOut(MapRect(f, ToRect(d)))), MapRect(f, ToRect(d)), MapRect(ctm, MapRect(m, r)));
  }

  // ----- Where a matrix filter falls short, a large enough rectangle shows it -----

  const PIXEL: Point := Point(1.0, 1.0)

  lemma RoundedBox(p: Point, h: Point)
    ensures Covers(Box(p, Combine(1.0, h, 1.0, PIXEL)), ToRect(RoundOut(Box(p, h))))
  {
  }

  lemma SortedRoundOut(r: Rect)
    requires Sorted(r)
    ensures Sorted(ToRect(RoundOut(r)))
  {
  }

  /** What rounding can add at most: a pixel before the filter and one after it. */
  lemma DeviceSideBound(f: Matrix, q: Point, k: Point)
    requires Positive(k)
    ensures Covers(Box(Map(f, q), Combine(1.0, Spread(f, k), 1.0, Combine(1.0, Spread(f, PIXEL), 1.0, PIXEL))),
                   ToRect(RoundOut(MapRect(f, ToRect(RoundOut(Box(q, k)))))))
  {
    var k' := Combine(1.0, k, 1.0, PIXEL);
    RoundedBox(q, k);
    SortedRoundOut(Box(q, k));
    MapRectMonotone(f, Box(q, k'), ToRect(RoundOut(Box(q, k))));
    MapBox(f, q, k');
    SpreadCombines(f, 1.0, k, 1.0, PIXEL);
    RoundOutMonotone(Box(Map(f, q), Spread(f, k')), MapRect(f, ToRect(RoundOut(Box(q, k)))));
    RoundedBox(Map(f, q), Spread(f, k'));
    CoversTransitive(Box(Map(f, q), Combine(1.0, Spread(f, k'), 1.0, PIXEL)),
                     ToRect(RoundOut(Box(Map(f, q), Spread(f, k')))),
                     ToRect(RoundOut(MapRect(f, ToRect(RoundOut(Box(q, k)))))));
  }

  lemma RoundMonotone(a: real, b: real)
    requires a <= b
    ensures a.Floor <= b.Floor && Ceil(a) <= Ceil(b)
  {
  }

  lemma RoundOutMonotone(r: Rect, s: Rect)
    requires Covers(r, s)
    ensures Covers(ToRect(RoundOut(r)), ToRect(RoundOut(s)))
  {
    RoundMonotone(r.left, s.left);
    RoundMonotone(r.top, s.top);
    RoundMonotone(s.right, r.right);
    RoundMonotone(s.bottom, r.bottom);
  }

  lemma SpreadTimes(a: Matrix, b: Matrix, n: real, h: Point)
    ensures Spread(a, Spread(b, Times(n, h))) == Times(n, Spread(a, Spread(b, h)))
  {
    SpreadCombines(b, n, h, 0.0, h);
    SpreadCombines(a, n, Spread(b, h), 0.0, Spread(b, h));
  }

  lemma Outgrows(less: real, more: real, slack: real) returns (n: real)
    requires less < more
    ensures n >= 0.0 && n * more > n * less + slack
  {
    var gap := more - less;
    n := if slack <= 0.0 then 1.0 else slack / gap + 1.0;
    if slack > 0.0 {
      assert slack / gap * gap == slack;
      ProductSign(slack / gap, gap);
      ProductOfDifference(n, less, more);
      assert n * gap == slack + gap;
    }
  }

  /** A scale at which one half size exceeds the other by more than a margin. */
  lemma OutgrowsPoint(h: Point, k: Point, slack: Point) returns (n: real)
    requires !Fits(h, k)
    ensures n >= 0.0 && !Fits(Times(n, h), Combine(1.0, Times(n, k), 1.0, slack))
  {
    if k.x < h.x { n := Outgrows(k.x, h.x, slack.x); } else { n := Outgrows(k.y, h.y, slack.y); }
  }

  lemma TimesIsPositive(n: real, h: Point)
    requires n >= 0.0 && Positive(h)
    ensures Positive(Times(n, h))
  {
  }

  lemma MatrixFallsShort(m: Matrix, ctm: Matrix, f: Matrix, h: Point) returns (r: Rect, d: IRect)
    requires Concat(f, ctm) == Concat(ctm, m) && Positive(h)
    requires !Fits(Spread(ctm, Spread(m, h)), Spread(f, Spread(ctm, h)))
    ensures Sorted(r) && CoversImage(r, d, ctm) && !CoversMapped(r, d, m, ctm, f)
  {
    var slack := Combine(1.0, Spread(f, PIXEL), 1.0, PIXEL);
    var n := OutgrowsPoint(Spread(ctm, Spread(m, h)), Spread(f, Spread(ctm, h)), slack);
    var p, big := Point(0.0, 0.0), Times(n, h);
    TimesIsPositive(n, h);
    r, d := Box(p, big), RoundOut(MapRect(ctm, Box(p, big)));
    RoundOutCovers(MapRect(ctm, r));
    BothMaps(f, m, ctm, p, big);
    SpreadTimes(ctm, m, n, h);
    SpreadTimes(f, ctm, n, h);
    MapBox(ctm, p, big);
    SpreadIsPositive(ctm, big);
    DeviceSideBound(f, Map(ctm, p), Spread(ctm, big));
    MapConcat(f, ctm, p);
    MapConcat(ctm, m, p);
    var q, k := Map(ctm, Map(m, p)), Combine(1.0, Times(n, Spread(f, Spread(ctm, h))), 1.0, slack);
    BoxCovers(q, Times(n, Spread(ctm, Spread(m, h))), k);
    if CoversMapped(r, d, m, ctm, f) {
      CoversTransitive(Box(q, k), ToRect(RoundOut(MapRect(f, ToRect(d)))), MapRect(ctm, MapRect(m, r)));
      assert false;
    }
  }

  lemma SpreadAlongAxes(m: Matrix)
    ensures Spread(m, ACROSS) == Across(m) && Spread(m, DOWN) == Down(m)
  {
  }

  /** With the mapped bounds rounded out, they cover the image of the local bounds, whatever
      the bounds, exactly if the matrix spreads no further in local space. */
  lemma WhenMatrixCovers(m: Matrix, ctm: Matrix, f: Matrix)
    requires Concat(f, ctm) == Concat(ctm, m)
    ensures (forall r, d :: Sorted(r) && CoversImage(r, d, ctm) ==> CoversMapped(r, d, m, ctm, f))
       <==> Spreads(f, m, ctm)
  {
    if Spreads(f, m, ctm) {
      forall r, d | Sorted(r) && CoversImage(r, d, ctm) ensures CoversMapped(r, d, m, ctm, f) {
        MatrixCovers(r, d, m, ctm, f);
      }
    } else {
      SpreadAlongAxes(m);
      SpreadAlongAxes(ctm);
      var r, d := MatrixFallsShort(m, ctm, f, if Fits(Spread(ctm, Across(m)), Spread(f, Across(ctm))) then DOWN else ACROSS);
    }
  }

  /** A matrix filter under the matrix of its own space. */
  lemma ConjugateCommutes(m: Matrix, ctm: Matrix)
    requires Det(ctm) != 0.0
    ensures Concat(Conjugate(m, ctm), ctm) == Concat(ctm, m)
  {
    var f, inv := Conjugate(m, ctm), Inverse(ctm);
    forall p ensures Map(Concat(f, ctm), p) == Map(Concat(ctm, m), p) {
      MapConcat(f, ctm, p);
      MapConcat(ctm, Concat(m, inv), Map(ctm, p));
      MapConcat(m, inv, Map(ctm, p));
      InverseMaps(ctm, p);
      MapConcat(ctm, m, p);
    }
    SameMaps(Concat(f, ctm), Concat(ctm, m));
  }

  // ----- Axis-aligned matrices -----

  /** Rectangles stay rectangles. */
  predicate AxisAligned(m: Matrix) {
    (m.kx == 0.0 && m.ky == 0.0) || (m.sx == 0.0 && m.sy == 0.0)
  }

  lemma AbsProduct(x: real, y: real)
    ensures Abs(x * y) == Abs(x) * Abs(y)
  {
  }

  lemma RowOfProduct(a: real, b: real, x: real, y: real, h: Point, row: real, radius: real)
    requires row == a * x + b * y && h == Point(Abs(x), Abs(y)) && radius == h.x * Abs(a) + h.y * Abs(b)
    ensures Abs(row) <= radius
    ensures a == 0.0 || b == 0.0 || x == 0.0 || y == 0.0 ==> Abs(row) == radius
  {
    AbsProduct(a, x);
    AbsProduct(b, y);
  }

  lemma AcrossOfProduct(a: Matrix, x: real, y: real, x': real, h: Point)
    requires x' == a.sx * x + a.kx * y && h == Point(Abs(x), Abs(y))
    ensures Abs(x') <= Spread(a, h).x
    ensures AxisAligned(a) || x == 0.0 || y == 0.0 ==> Abs(x') == Spread(a, h).x
  {
    RowOfProduct(a.sx, a.kx, x, y, h, x', Spread(a, h).x);
  }

  lemma DownOfProduct(a: Matrix, x: real, y: real, y': real, h: Point)
    requires y' == a.ky * x + a.sy * y && h == Point(Abs(x), Abs(y))
    ensures Abs(y') <= Spread(a, h).y
    ensures AxisAligned(a) || x == 0.0 || y == 0.0 ==> Abs(y') == Spread(a, h).y
  {
    RowOfProduct(a.ky, a.sy, x, y, h, y', Spread(a, h).y);
  }

  lemma ColumnOfProduct(a: Matrix, x: real, y: real, x': real, y': real, h: Point)
    requires x' == a.sx * x + a.kx * y && y' == a.ky * x + a.sy * y && h == Point(Abs(x), Abs(y))
    ensures Fits(Point(Abs(x'), Abs(y')), Spread(a, h))
    ensures AxisAligned(a) || x == 0.0 || y == 0.0 ==> Point(Abs(x'), Abs(y')) == Spread(a, h)
  {
    AcrossOfProduct(a, x, y, x', h);
    DownOfProduct(a, x, y, y', h);
  }

  /** Mapping by a product spreads no further than mapping twice, and as far if one factor is
      axis-aligned. */
  lemma SpreadOfProduct(a: Matrix, b: Matrix)
    ensures Fits(Across(Concat(a, b)), Spread(a, Across(b))) && Fits(Down(Concat(a, b)), Spread(a, Down(b)))
    ensures AxisAligned(a) || AxisAligned(b) ==>
              Across(Concat(a, b)) == Spread(a, Across(b)) && Down(Concat(a, b)) == Spread(a, Down(b))
  {
    var c := Concat(a, b);
    ColumnOfProduct(a, b.sx, b.ky, c.sx, c.ky, Across(b));
    ColumnOfProduct(a, b.kx, b.sy, c.kx, c.sy, Down(b));
  }

  lemma AxisAlignedSpreads(m: Matrix, ctm: Matrix)
    requires Det(ctm) != 0.0 && (AxisAligned(m) || AxisAligned(ctm))
    ensures Spreads(Conjugate(m, ctm), m, ctm)
  {
    ConjugateCommutes(m, ctm);
    SpreadOfProduct(ctm, m);
    SpreadOfProduct(Conjugate(m, ctm), ctm);
  }

  // ----- Trees -----

  /** The bounds of every filter in the tree cover: ctm maps local space to the device, dev is
      what the filter is given, which local matrices change. */
  predicate Tracks(f: Filter, r: Rect, ctm: Matrix, dev: Matrix) {
    match f
    case Blur(sx, sy) => Reaches(sx * 3.0, sy * 3.0, ctm, dev)
    case Dilate(rx, ry) => Reaches(rx, ry, ctm, dev)
    case Erode(rx, ry) => Sorted(Outset(r, -rx, -ry)) && Spares(rx, ry, ctm, dev)
    case MatrixTransform(m) =>
      Det(dev) != 0.0 && Concat(Conjugate(m, dev), ctm) == Concat(ctm, m) && Spreads(Conjugate(m, dev), m, ctm)
    case ColorFilter(_) => true
    case Compose(outer, inner) =>
      var first := if inner.Some? then MapLocalBounds(inner.value, r, r).bounds else r;
      (inner.Some? ==> Tracks(inner.value, r, ctm, dev)) && (outer.Some? ==> Tracks(outer.value, first, ctm, dev))
    case LocalMatrix(m, filter) => filter.Some? && Tracks(filter.value, r, ctm, Concat(dev, m))
  }

  predicate CoversLocalBounds(f: Filter, r: Rect, d: IRect, ctm: Matrix, dev: Matrix, out: Rect, out': IRect) {
    CoversImage(MapLocalBounds(f, r, out).bounds, MapDeviceBounds(f, d, dev, out').bounds, ctm)
  }

  /** Device bounds computed step by step in whole pixels never fall short of the image of
      the local bounds. */
  lemma {:induction false} DeviceBoundsCoverLocalBounds(f: Filter, r: Rect, d: IRect, ctm: Matrix, dev: Matrix,
                                                        out: Rect, out': IRect)
    requires Radii(f) && Sorted(r) && Tracks(f, r, ctm, dev) && CoversImage(r, d, ctm)
    ensures Sorted(MapLocalBounds(f, r, out).bounds)
    ensures CoversLocalBounds(f, r, d, ctm, dev, out, out')
    decreases f
  {
    match f
    case Blur(sx, sy) => OutsetCovers(r, d, sx * 3.0, sy * 3.0, ctm, dev);
    case Dilate(rx, ry) => OutsetCovers(r, d, rx, ry, ctm, dev);
    case Erode(rx, ry) => InsetCovers(r, d, rx, ry, ctm, dev);
    case MatrixTransform(m) => MatrixCovers(r, d, m, ctm, Conjugate(m, dev));
    case ColorFilter(_) =>
    case Compose(outer, inner) =>
      var r' := if inner.Some? then MapLocalBounds(inner.value, r, r).bounds else r;
      var d' := if inner.Some? then MapDeviceBounds(inner.value, d, dev, d).bounds else d;
      if inner.Some? { DeviceBoundsCoverLocalBounds(inner.value, r, d, ctm, dev, r, d); }
      if outer.Some? { DeviceBoundsCoverLocalBounds(outer.value, r', d', ctm, dev, r', d'); }
    case LocalMatrix(m, filter) =>
      DeviceBoundsCoverLocalBounds(filter.value, r, d, ctm, Concat(dev, m), out, out');
  }

  /** No erosion in the tree shrinks local bounds to less than nothing. */
  predicate StaysSorted(f: Filter, r: Rect) {
    match f
    case Erode(rx, ry) => Sorted(Outset(r, -rx, -ry))
    case Compose(outer, inner) =>
      var first := if inner.Some? then MapLocalBounds(inner.value, r, r).bounds else r;
      (inner.Some? ==> StaysSorted(inner.value, r)) && (outer.Some? ==> StaysSorted(outer.value, first))
    case LocalMatrix(_, filter) => filter.Some? ==> StaysSorted(filter.value, r)
    case _ => true
  }

  /** There is no local matrix, and every matrix filter, or the matrix it is used under, is
      axis-aligned. */
  predicate KeepsAxes(f: Filter, ctm: Matrix) {
    match f
    case MatrixTransform(m) => Det(ctm) != 0.0 && (AxisAligned(m) || AxisAligned(ctm))
    case Compose(outer, inner) =>
      (outer.Some? ==> KeepsAxes(outer.value, ctm)) && (inner.Some? ==> KeepsAxes(inner.value, ctm))
    case LocalMatrix(_, _) => false
    case _ => true
  }

  lemma OwnRadius(x: real, y: real, ctm: Matrix)
    ensures Reaches(x, y, ctm, ctm) && Spares(x, y, ctm, ctm)
  {
  }

  /** Such trees meet the condition on every filter in them. */
  lemma {:induction false} AxesKeptTrack(f: Filter, r: Rect, ctm: Matrix)
    requires StaysSorted(f, r) && KeepsAxes(f, ctm)
    ensures Tracks(f, r, ctm, ctm)
    decreases f
  {
    match f
    case Blur(sx, sy) => OwnRadius(sx * 3.0, sy * 3.0, ctm);
    case Dilate(rx, ry) => OwnRadius(rx, ry, ctm);
    case Erode(rx, ry) => OwnRadius(rx, ry, ctm);
    case MatrixTransform(m) =>
      ConjugateCommutes(m, ctm);
      AxisAlignedSpreads(m, ctm);
    case ColorFilter(_) =>
    case Compose(outer, inner) =>
      if inner.Some? { AxesKeptTrack(inner.value, r, ctm); }
      if outer.Some? { AxesKeptTrack(outer.value, if inner.Some? then MapLocalBounds(inner.value, r, r).bounds else r, ctm); }
  }

  // ----- Filters that fall short -----

  lemma SkewOnDevice(ctm: Matrix, m: Matrix, f: Matrix)
    requires ctm == Matrix(1.0, 1.0, 0.0, 0.0, 1.0, 0.0) && m == Matrix(1.0, 0.0, 0.0, -1.0, 1.0, 0.0)
    requires f == Matrix(0.0, 1.0, 0.0, -1.0, 2.0, 0.0)
    ensures Det(ctm) == 1.0 && Concat(f, ctm) == Concat(ctm, m)
  {
  }

  lemma SkewSpreads(ctm: Matrix, m: Matrix, f: Matrix)
    requires ctm == Matrix(1.0, 1.0, 0.0, 0.0, 1.0, 0.0) && m == Matrix(1.0, 0.0, 0.0, -1.0, 1.0, 0.0)
    requires f == Matrix(0.0, 1.0, 0.0, -1.0, 2.0, 0.0)
    ensures Spread(ctm, Across(m)).x == 2.0 && Spread(f, Across(ctm)).x == 0.0
  {
  }

  /** A skewing filter under a skewed matrix: across the axis the local bounds come out twice
      as wide as the input, while on the device nothing is left of its width. */
  lemma SkewFallsShort(ctm: Matrix, m: Matrix, f: Matrix)
    requires ctm == Matrix(1.0, 1.0, 0.0, 0.0, 1.0, 0.0) && m == Matrix(1.0, 0.0, 0.0, -1.0, 1.0, 0.0)
    requires f == Matrix(0.0, 1.0, 0.0, -1.0, 2.0, 0.0)
    ensures Det(ctm) == 1.0 && Concat(f, ctm) == Concat(ctm, m) && !Spreads(f, m, ctm)
  {
    SkewOnDevice(ctm, m, f);
    SkewSpreads(ctm, m, f);
  }

  lemma SpreadOfScale(s: real, m: Matrix, x: real, radius: real)
    requires m == Matrix(s, 0.0, 0.0, 0.0, s, 0.0) && s >= 0.0 && radius == x * s
    ensures Spread(m, Point(x, x)) == Point(radius, radius)
  {
  }

  /** A local matrix scales a dilation on the device but not in local space. */
  lemma LocalScaleFallsShort(m: Matrix, x: real)
    requires m == Matrix(0.1, 0.0, 0.0, 0.0, 0.1, 0.0) && x == 10.0
    ensures !Reaches(x, x, UNIT, m)
  {
    SpreadOfScale(0.1, m, x, 1.0);
    SpreadOfScale(1.0, UNIT, x, x);
  }

  // ----- The conditions, for whole filters -----

  /** A matrix filter alone covers, whatever the bounds, exactly if it spreads no further in
      local space; f is what it is in device space. */
  lemma WhenMatrixFilterCovers(m: Matrix, ctm: Matrix, f: Matrix, out: Rect, out': IRect)
    requires Det(ctm) != 0.0 && Concat(f, ctm) == Concat(ctm, m)
    ensures (forall r, d :: Sorted(r) && CoversImage(r, d, ctm) ==>
                              CoversLocalBounds(MatrixTransform(m), r, d, ctm, ctm, out, out'))
       <==> Spreads(f, m, ctm)
  {
    ConjugateIsUnique(m, ctm, f);
    WhenMatrixCovers(m, ctm, f);
    forall r, d ensures CoversLocalBounds(MatrixTransform(m), r, d, ctm, ctm, out, out') == CoversMapped(r, d, m, ctm, f) {
    }
  }

  lemma DilationCovers(x: real, y: real, r: Rect, d: IRect, ctm: Matrix, dev: Matrix, out: Rect, out': IRect)
    ensures CoversLocalBounds(Dilate(x, y), r, d, ctm, dev, out, out') == CoversOutset(r, d, x, y, ctm, dev)
  {
  }

  lemma LocalMatrixCovers(m: Matrix, f: Filter, r: Rect, d: IRect, ctm: Matrix, dev: Matrix, out: Rect, out': IRect)
    ensures CoversLocalBounds(LocalMatrix(m, Some(f)), r, d, ctm, dev, out, out')
         == CoversLocalBounds(f, r, d, ctm, Concat(dev, m), out, out')
  {
  }

  /** A dilation under a local matrix covers, whatever the bounds, exactly if its radius
      there reaches as far as in local space. */
  lemma WhenLocalDilationCovers(m: Matrix, x: real, y: real, ctm: Matrix, dev: Matrix, out: Rect, out': IRect)
    requires x >= 0.0 && y >= 0.0 && Det(ctm) != 0.0 && dev == Concat(ctm, m)
    ensures (forall r, d :: Sorted(r) && CoversImage(r, d, ctm) ==>
                              CoversLocalBounds(LocalMatrix(m, Some(Dilate(x, y))), r, d, ctm, ctm, out, out'))
       <==> Reaches(x, y, ctm, dev)
  {
    WhenOutsetCovers(x, y, ctm, dev);
    forall r, d ensures CoversLocalBounds(LocalMatrix(m, Some(Dilate(x, y))), r, d, ctm, ctm, out, out')
                     == CoversOutset(r, d, x, y, ctm, dev) {
      LocalMatrixCovers(m, Dilate(x, y), r, d, ctm, ctm, out, out');
      DilationCovers(x, y, r, d, ctm, dev, out, out');
    }
  }

  lemma SkewedFilter() returns (m: Matrix, ctm: Matrix, f: Matrix)
    ensures Det(ctm) != 0.0 && Concat(f, ctm) == Concat(ctm, m) && !Spreads(f, m, ctm)
  {
    ctm, m, f := Matrix(1.0, 1.0, 0.0, 0.0, 1.0, 0.0), Matrix(1.0, 0.0, 0.0, -1.0, 1.0, 0.0), Matrix(0.0, 1.0, 0.0, -1.0, 2.0, 0.0);
    SkewFallsShort(ctm, m, f);
  }

  lemma ScaledDilation() returns (m: Matrix, x: real, ctm: Matrix)
    ensures x >= 0.0 && ctm == UNIT && !Reaches(x, x, ctm, m)
  {
    m, x, ctm := Matrix(0.1, 0.0, 0.0, 0.0, 0.1, 0.0), 10.0, UNIT;
    SpreadOfScale(0.1, m, x, 1.0);
    SpreadOfScale(1.0, ctm, x, x);
    LocalScaleFallsShort(m, x);
  }

  /** So device bounds do fall short, for that skew and for that scale. */
  lemma SkewedFilterFallsShort(out: Rect, out': IRect) returns (m: Matrix, ctm: Matrix, r: Rect, d: IRect)
    ensures Sorted(r) && CoversImage(r, d, ctm)
    ensures !CoversLocalBounds(MatrixTransform(m), r, d, ctm, ctm, out, out')
  {
    var f;
    m, ctm, f := SkewedFilter();
    WhenMatrixFilterCovers(m, ctm, f, out, out');
    r, d :| Sorted(r) && CoversImage(r, d, ctm) && !CoversLocalBounds(MatrixTransform(m), r, d, ctm, ctm, out, out');
  }

  lemma ScaledDilationFallsShort(out: Rect, out': IRect) returns (m: Matrix, x: real, ctm: Matrix, r: Rect, d: IRect)
    ensures x >= 0.0 && Sorted(r) && CoversImage(r, d, ctm)
    ensures !CoversLocalBounds(LocalMatrix(m, Some(Dilate(x, x))), r, d, ctm, ctm, out, out')
  {
    m, x, ctm := ScaledDilation();
    UnitConcat(ctm, m);
    WhenLocalDilationCovers(m, x, x, ctm, m, out, out');
    r, d :| Sorted(r) && CoversImage(r, d, ctm) &&
            !CoversLocalBounds(LocalMatrix(m, Some(Dilate(x, x))), r, d, ctm, ctm, out, out');
  }
}
