// Points, rectangles and affine matrices over the reals: what an SkMatrix without
// perspective does to them.
module Geometry {
  import opened Basics
  import opened DisplayListOps

  datatype Point = Point(x: real, y: real)

  datatype IRect = IRect(left: int, top: int, right: int, bottom: int)

  /** The upper two rows of an SkMatrix, in the order of its elements 0 to 5. */
  datatype Matrix = Matrix(sx: real, kx: real, tx: real, ky: real, sy: real, ty: real)

  const UNIT: Matrix := Matrix(1.0, 0.0, 0.0, 0.0, 1.0, 0.0)

  function Min(a: real, b: real): real {
    if a <= b then a else b
  }

  function Max(a: real, b: real): real {
    if a <= b then b else a
  }

  function Abs(a: real): real {
    if a < 0.0 then -a else a
  }

  function Ceil(a: real): int {
    -(-a).Floor
  }

  // ----- Matrices -----

  function Row(a: real, b: real, c: real, p: Point): real {
    a * p.x + b * p.y + c
  }

  function Map(m: Matrix, p: Point): Point {
    Point(Row(m.sx, m.kx, m.tx, p), Row(m.ky, m.sy, m.ty, p))
  }

  /** The matrix that applies b first and then a. */
  function Concat(a: Matrix, b: Matrix): Matrix {
    Matrix(a.sx * b.sx + a.kx * b.ky, a.sx * b.kx + a.kx * b.sy, a.sx * b.tx + a.kx * b.ty + a.tx,
           a.ky * b.sx + a.sy * b.ky, a.ky * b.kx + a.sy * b.sy, a.ky * b.tx + a.sy * b.ty + a.ty)
  }

  function Det(m: Matrix): real {
    m.sx * m.sy - m.kx * m.ky
  }

  function Adjugate(m: Matrix): Matrix {
    Matrix(m.sy, -m.kx, m.kx * m.ty - m.sy * m.tx, -m.ky, m.sx, m.ky * m.tx - m.sx * m.ty)
  }

  function ScaleAll(m: Matrix, k: real): Matrix {
    Matrix(m.sx * k, m.kx * k, m.tx * k, m.ky * k, m.sy * k, m.ty * k)
  }

  function Inverse(m: Matrix): Matrix
    requires Det(m) != 0.0
  {
    ScaleAll(Adjugate(m), 1.0 / Det(m))
  }

  function Invert(m: Matrix): Option<Matrix> {
    if Det(m) == 0.0 then None else Some(Inverse(m))
  }

  lemma Distribute(a: real, x: real, y: real, z: real)
    ensures a * (x + y + z) == a * x + a * y + a * z
  {
  }

  lemma Assoc(a: real, b: real, c: real)
    ensures a * (b * c) == (a * b) * c
  {
  }

  lemma Collect(a: real, b: real, x: real, u: real, p: real, sum: real)
    requires sum == a * x + b * u
    ensures a * (x * p) + b * (u * p) == sum * p
  {
    Assoc(a, x, p);
    Assoc(b, u, p);
  }

  /** One row of a product, applied to a point. */
  lemma RowOfProduct(a: real, b: real, c: real, m: Matrix, p: Point, x: real, y: real, z: real)
    requires x == a * m.sx + b * m.ky && y == a * m.kx + b * m.sy && z == a * m.tx + b * m.ty + c
    ensures Row(a, b, c, Map(m, p)) == Row(x, y, z, p)
  {
    Distribute(a, m.sx * p.x, m.kx * p.y, m.tx);
    Distribute(b, m.ky * p.x, m.sy * p.y, m.ty);
    Collect(a, b, m.sx, m.ky, p.x, x);
    Collect(a, b, m.kx, m.sy, p.y, y);
  }

  lemma MapConcatX(a: Matrix, b: Matrix, p: Point)
    ensures Map(Concat(a, b), p).x == Map(a, Map(b, p)).x
  {
    var c := Concat(a, b);
    RowOfProduct(a.sx, a.kx, a.tx, b, p, c.sx, c.kx, c.tx);
  }

  lemma MapConcatY(a: Matrix, b: Matrix, p: Point)
    ensures Map(Concat(a, b), p).y == Map(a, Map(b, p)).y
  {
    var c := Concat(a, b);
    RowOfProduct(a.ky, a.sy, a.ty, b, p, c.ky, c.sy, c.ty);
  }

  /** A product of matrices applies one after the other. */
  lemma MapConcat(a: Matrix, b: Matrix, p: Point)
    ensures Map(Concat(a, b), p) == Map(a, Map(b, p))
  {
    MapConcatX(a, b, p);
    MapConcatY(a, b, p);
  }

  lemma DetConcat(a: Matrix, b: Matrix)
    ensures Det(Concat(a, b)) == Det(a) * Det(b)
  {
    DetProduct(a.sx, a.kx, a.ky, a.sy, b.sx, b.kx, b.ky, b.sy);
  }

  lemma DetProduct(a: real, b: real, c: real, d: real, e: real, f: real, g: real, h: real)
    ensures (a * e + b * g) * (c * f + d * h) - (a * f + b * h) * (c * e + d * g) == (a * d - b * c) * (e * h - f * g)
  {
  }

  lemma Cramer(a: real, b: real, c: real, d: real, e: real, f: real, det: real, x: real, y: real, x': real, y': real)
    requires x' == a * x + b * y + c && y' == d * x + e * y + f && det == a * e - b * d
    ensures e * x' + (-b) * y' + (b * f - e * c) == det * x
    ensures (-d) * x' + a * y' + (d * c - a * f) == det * y
  {
  }

  lemma CramerBack(a: real, b: real, c: real, d: real, e: real, f: real, det: real, x: real, y: real, u: real, v: real)
    requires u == e * x + (-b) * y + (b * f - e * c) && v == (-d) * x + a * y + (d * c - a * f)
    requires det == a * e - b * d
    ensures a * u + b * v == det * (x - c)
    ensures d * u + e * v == det * (y - f)
  {
  }

  lemma Cancels(k: real, d: real, x: real)
    requires d != 0.0 && k == 1.0 / d
    ensures k * (d * x) == x
  {
    assert k * d == 1.0;
    Assoc(k, d, x);
  }

  lemma Factor(a: real, b: real, k: real, u: real, v: real)
    ensures a * (k * u) + b * (k * v) == k * (a * u + b * v)
  {
  }

  lemma Scaled(a: real, b: real, c: real, k: real, x: real, y: real)
    ensures (a * k) * x + (b * k) * y + c * k == k * (a * x + b * y + c)
  {
  }

  lemma ScaledRow(a: real, b: real, c: real, k: real, a': real, b': real, c': real, p: Point, u: real)
    requires a' == a * k && b' == b * k && c' == c * k && u == a * p.x + b * p.y + c
    ensures Row(a', b', c', p) == k * u
  {
    Scaled(a, b, c, k, p.x, p.y);
  }

  function Times(k: real, p: Point): Point {
    Point(k * p.x, k * p.y)
  }

  lemma ScaledMap(m: Matrix, k: real, p: Point)
    ensures Map(ScaleAll(m, k), p) == Times(k, Map(m, p))
  {
    var s, u := ScaleAll(m, k), Map(m, p);
    ScaledRow(m.sx, m.kx, m.tx, k, s.sx, s.kx, s.tx, p, u.x);
    ScaledRow(m.ky, m.sy, m.ty, k, s.ky, s.sy, s.ty, p, u.y);
  }

  lemma AdjugateOfImage(m: Matrix, p: Point, q: Point)
    requires q == Map(m, p)
    ensures Map(Adjugate(m), q) == Times(Det(m), p)
  {
    Cramer(m.sx, m.kx, m.tx, m.ky, m.sy, m.ty, Det(m), p.x, p.y, q.x, q.y);
  }

  lemma Divided(p: Point, u: Point, d: real, k: real)
    requires d != 0.0 && k == 1.0 / d && u == Times(d, p)
    ensures Times(k, u) == p
  {
    Cancels(k, d, p.x);
    Cancels(k, d, p.y);
  }

  /** The inverse takes a point back. */
  lemma InverseMaps(m: Matrix, p: Point)
    requires Det(m) != 0.0
    ensures Map(Inverse(m), Map(m, p)) == p
  {
    ScaledMap(Adjugate(m), 1.0 / Det(m), Map(m, p));
    AdjugateOfImage(m, p, Map(m, p));
    Divided(p, Map(Adjugate(m), Map(m, p)), Det(m), 1.0 / Det(m));
  }

  lemma RowBack(a: real, b: real, c: real, k: real, u: Point, d: real, x: real)
    requires d != 0.0 && k == 1.0 / d && a * u.x + b * u.y == d * (x - c)
    ensures Row(a, b, c, Times(k, u)) == x
  {
    Factor(a, b, k, u.x, u.y);
    Cancels(k, d, x - c);
  }

  lemma RowsBack(m: Matrix, p: Point, u: Point, d: real, k: real)
    requires d != 0.0 && k == 1.0 / d
    requires m.sx * u.x + m.kx * u.y == d * (p.x - m.tx) && m.ky * u.x + m.sy * u.y == d * (p.y - m.ty)
    ensures Map(m, Times(k, u)) == p
  {
    RowBack(m.sx, m.kx, m.tx, k, u, d, p.x);
    RowBack(m.ky, m.sy, m.ty, k, u, d, p.y);
  }

  lemma ImageOfAdjugate(m: Matrix, p: Point, u: Point, d: real)
    requires u == Map(Adjugate(m), p) && d == Det(m)
    ensures m.sx * u.x + m.kx * u.y == d * (p.x - m.tx) && m.ky * u.x + m.sy * u.y == d * (p.y - m.ty)
  {
    CramerBack(m.sx, m.kx, m.tx, m.ky, m.sy, m.ty, d, p.x, p.y, u.x, u.y);
  }

  /** A matrix is also the inverse of its inverse. */
  lemma MapsInverse(m: Matrix, p: Point)
    requires Det(m) != 0.0
    ensures Map(m, Map(Inverse(m), p)) == p
  {
    var u := Map(Adjugate(m), p);
    ScaledMap(Adjugate(m), 1.0 / Det(m), p);
    ImageOfAdjugate(m, p, u, Det(m));
    RowsBack(m, p, u, Det(m), 1.0 / Det(m));
  }

  lemma UnitConcat(ctm: Matrix, m: Matrix)
    requires ctm == UNIT
    ensures Concat(ctm, m) == m && Det(ctm) != 0.0
  {
  }

  const ACROSS: Point := Point(1.0, 0.0)
  const DOWN: Point := Point(0.0, 1.0)

  lemma SameMaps(a: Matrix, b: Matrix)
    requires forall p {:trigger Map(a, p)} :: Map(a, p) == Map(b, p)
    ensures a == b
  {
    AtUnits(a);
    AtUnits(b);
    assert Map(a, Point(0.0, 0.0)) == Map(b, Point(0.0, 0.0));
    assert Map(a, ACROSS) == Map(b, ACROSS);
    assert Map(a, DOWN) == Map(b, DOWN);
  }

  lemma AtUnits(m: Matrix)
    ensures Map(m, Point(0.0, 0.0)) == Point(m.tx, m.ty)
    ensures Map(m, ACROSS) == Point(m.sx + m.tx, m.ky + m.ty) && Map(m, DOWN) == Point(m.kx + m.tx, m.sy + m.ty)
  {
  }

  /** What a matrix is in the space that dev maps to. */
  function Conjugate(m: Matrix, dev: Matrix): Matrix
    requires Det(dev) != 0.0
  {
    Concat(dev, Concat(m, Inverse(dev)))
  }

  /** No other matrix acts in that space like the matrix in its own. */
  lemma ConjugateIsUnique(m: Matrix, ctm: Matrix, f: Matrix)
    requires Det(ctm) != 0.0 && Concat(f, ctm) == Concat(ctm, m)
    ensures Conjugate(m, ctm) == f
  {
    var inv := Inverse(ctm);
    forall p ensures Map(Conjugate(m, ctm), p) == Map(f, p) {
      MapConcat(ctm, Concat(m, inv), p);
      MapConcat(m, inv, p);
      MapConcat(ctm, m, Map(inv, p));
      MapConcat(f, ctm, Map(inv, p));
      MapsInverse(ctm, p);
    }
    SameMaps(Conjugate(m, ctm), f);
  }

  // ----- Rectangles -----

  /** The clip bounds given when nothing better is known. */
  const MAX_CULL_RECT: Rect := Rect(-1000000000.0, -1000000000.0, 1000000000.0, 1000000000.0)

  predicate Sorted(r: Rect) {
    r.left <= r.right && r.top <= r.bottom
  }

  predicate In(p: Point, r: Rect) {
    r.left <= p.x <= r.right && r.top <= p.y <= r.bottom
  }

  /** Edge by edge, sorted or not. */
  predicate Covers(outer: Rect, inner: Rect) {
    outer.left <= inner.left && outer.top <= inner.top && outer.right >= inner.right && outer.bottom >= inner.bottom
  }

  predicate ICovers(outer: IRect, inner: IRect) {
    outer.left <= inner.left && outer.top <= inner.top && outer.right >= inner.right && outer.bottom >= inner.bottom
  }

  function ToRect(r: IRect): Rect {
    Rect(r.left as real, r.top as real, r.right as real, r.bottom as real)
  }

  function RoundOut(r: Rect): IRect {
    IRect(r.left.Floor, r.top.Floor, Ceil(r.right), Ceil(r.bottom))
  }

  function Outset(r: Rect, dx: real, dy: real): Rect {
    Rect(r.left - dx, r.top - dy, r.right + dx, r.bottom + dy)
  }

  function IOutset(r: IRect, dx: int, dy: int): IRect {
    IRect(r.left - dx, r.top - dy, r.right + dx, r.bottom + dy)
  }

  function Min4(a: real, b: real, c: real, d: real): real {
    Min(Min(a, b), Min(c, d))
  }

  function Max4(a: real, b: real, c: real, d: real): real {
    Max(Max(a, b), Max(c, d))
  }

  function CornerMin(a: real, b: real, c: real, r: Rect): real {
    Min4(Row(a, b, c, Point(r.left, r.top)), Row(a, b, c, Point(r.right, r.top)),
         Row(a, b, c, Point(r.right, r.bottom)), Row(a, b, c, Point(r.left, r.bottom)))
  }

  function CornerMax(a: real, b: real, c: real, r: Rect): real {
    Max4(Row(a, b, c, Point(r.left, r.top)), Row(a, b, c, Point(r.right, r.top)),
         Row(a, b, c, Point(r.right, r.bottom)), Row(a, b, c, Point(r.left, r.bottom)))
  }

  /** The bounds of the images of the corners. */
  function MapRect(m: Matrix, r: Rect): (s: Rect)
    ensures Sorted(s)
  {
    Rect(CornerMin(m.sx, m.kx, m.tx, r), CornerMin(m.ky, m.sy, m.ty, r),
         CornerMax(m.sx, m.kx, m.tx, r), CornerMax(m.ky, m.sy, m.ty, r))
  }

  lemma RoundOutCovers(r: Rect)
    ensures Covers(ToRect(RoundOut(r)), r)
  {
  }

  predicate Between(u0: real, u: real, u1: real) {
    u0 <= u <= u1 || u1 <= u <= u0
  }

  lemma ProductOfDifference(a: real, x: real, y: real)
    ensures a * (y - x) == a * y - a * x
  {
  }

  lemma ProductSign(a: real, d: real)
    requires d >= 0.0
    ensures a >= 0.0 ==> a * d >= 0.0
    ensures a <= 0.0 ==> a * d <= 0.0
  {
  }

  /** Multiplication keeps a value between two others. */
  lemma SlopeBetween(a: real, low: real, x: real, high: real)
    requires low <= x <= high
    ensures Between(a * low, a * x, a * high)
  {
    ProductSign(a, x - low);
    ProductSign(a, high - x);
    ProductOfDifference(a, low, x);
    ProductOfDifference(a, x, high);
  }

  /** A sum of two terms lies between its values at the corners. */
  lemma CornersBound(u0: real, u: real, u1: real, v0: real, v: real, v1: real, c: real,
                     p0: real, p1: real, p2: real, p3: real, q: real)
    requires Between(u0, u, u1) && Between(v0, v, v1)
    requires p0 == u0 + v0 + c && p1 == u1 + v0 + c && p2 == u1 + v1 + c && p3 == u0 + v1 + c && q == u + v + c
    ensures Min4(p0, p1, p2, p3) <= q <= Max4(p0, p1, p2, p3)
  {
  }

  lemma RowAt(a: real, b: real, c: real, x: real, y: real, u: real, v: real)
    requires u == a * x && v == b * y
    ensures Row(a, b, c, Point(x, y)) == u + v + c
  {
  }

  /** A row takes a point of a rectangle between the values at the corners; the terms are
      given. */
  lemma TermsBetween(a: real, b: real, c: real, r: Rect, u0: real, u: real, u1: real, v0: real, v: real, v1: real, row: real)
    requires row == u + v + c
    requires u0 == a * r.left && u1 == a * r.right && v0 == b * r.top && v1 == b * r.bottom
    requires Between(u0, u, u1) && Between(v0, v, v1)
    ensures CornerMin(a, b, c, r) <= row <= CornerMax(a, b, c, r)
  {
    RowAt(a, b, c, r.left, r.top, u0, v0);
    RowAt(a, b, c, r.right, r.top, u1, v0);
    RowAt(a, b, c, r.right, r.bottom, u1, v1);
    RowAt(a, b, c, r.left, r.bottom, u0, v1);
    CornersBound(u0, u, u1, v0, v, v1, c,
                 Row(a, b, c, Point(r.left, r.top)), Row(a, b, c, Point(r.right, r.top)),
                 Row(a, b, c, Point(r.right, r.bottom)), Row(a, b, c, Point(r.left, r.bottom)), row);
  }

  lemma RowBetween(a: real, b: real, c: real, r: Rect, p: Point)
    requires In(p, r)
    ensures CornerMin(a, b, c, r) <= Row(a, b, c, p) <= CornerMax(a, b, c, r)
  {
    SlopeBetween(a, r.left, p.x, r.right);
    SlopeBetween(b, r.top, p.y, r.bottom);
    TermsBetween(a, b, c, r, a * r.left, a * p.x, a * r.right, b * r.top, b * p.y, b * r.bottom, Row(a, b, c, p));
  }

  /** The image of a rectangle lies in its mapped bounds. */
  lemma MapRectContains(m: Matrix, r: Rect, p: Point)
    requires In(p, r)
    ensures In(Map(m, p), MapRect(m, r))
  {
    RowBetween(m.sx, m.kx, m.tx, r, p);
    RowBetween(m.ky, m.sy, m.ty, r, p);
  }

  /** And they are no larger than they must be. */
  lemma MapRectIsLeast(m: Matrix, r: Rect, s: Rect)
    requires Sorted(r) && forall p {:trigger Map(m, p)} :: In(p, r) ==> In(Map(m, p), s)
    ensures Covers(s, MapRect(m, r))
  {
    CornersIn(m, r, s, Point(r.left, r.top), Point(r.right, r.top), Point(r.right, r.bottom), Point(r.left, r.bottom));
  }

  lemma CornersIn(m: Matrix, r: Rect, s: Rect, a: Point, b: Point, c: Point, d: Point)
    requires a == Point(r.left, r.top) && b == Point(r.right, r.top) && c == Point(r.right, r.bottom) && d == Point(r.left, r.bottom)
    requires In(Map(m, a), s) && In(Map(m, b), s) && In(Map(m, c), s) && In(Map(m, d), s)
    ensures Covers(s, MapRect(m, r))
  {
  }

  lemma MapRectCorners(m: Matrix, r: Rect)
    ensures In(Map(m, Point(r.left, r.top)), MapRect(m, r))
    ensures In(Map(m, Point(r.right, r.bottom)), MapRect(m, r))
  {
  }
}
