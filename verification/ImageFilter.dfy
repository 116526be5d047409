// Bounds of image filters: where the output of a filter lies for given input bounds, and
// which input is needed for given output bounds, over trees of filters.
module ImageFilter {
  import opened Basics
  import opened DisplayListOps
  import opened Geometry

  /** The filters whose bounds the display list computes itself. Pointers to filters may be
      null. */
  datatype Filter =
    | Blur(sigmaX: real, sigmaY: real)
    | Dilate(radiusX: real, radiusY: real)
    | Erode(radiusX: real, radiusY: real)
    | MatrixTransform(matrix: Matrix)
    | ColorFilter(modifiesTransparentBlack: bool)
    | Compose(outer: Option<Filter>, inner: Option<Filter>)
    | LocalMatrix(local: Matrix, filter: Option<Filter>)

  /** A returned pointer that may be null, and what has been written to the out-parameter. */
  datatype Mapped<R> = Mapped(ok: bool, bounds: R)

  function MapVectorsAffine(ctm: Matrix, x: real, y: real): Point {
    Point(x * Abs(ctm.sx) + y * Abs(ctm.kx), x * Abs(ctm.ky) + y * Abs(ctm.sy))
  }

  function OutsetDeviceBounds(b: IRect, x: real, y: real, ctm: Matrix): IRect {
    var radius := MapVectorsAffine(ctm, x, y);
    IOutset(b, Ceil(radius.x), Ceil(radius.y))
  }

  function InsetDeviceBounds(b: IRect, x: real, y: real, ctm: Matrix): IRect {
    var radius := MapVectorsAffine(ctm, x, y);
    IOutset(b, -radius.x.Floor, -radius.y.Floor)
  }

  /** Output bounds for input bounds, in device space. The last argument is what the
      out-parameter holds before the call. */
  function MapDeviceBounds(f: Filter, input: IRect, ctm: Matrix, output: IRect): Mapped<IRect> {
    match f
    case Blur(sx, sy) => Mapped(true, OutsetDeviceBounds(input, sx * 3.0, sy * 3.0, ctm))
    case Dilate(rx, ry) => Mapped(true, OutsetDeviceBounds(input, rx, ry, ctm))
    case Erode(rx, ry) => Mapped(true, InsetDeviceBounds(input, rx, ry, ctm))
    case MatrixTransform(m) =>
      var inverse := Invert(ctm);
      if inverse == None then Mapped(false, input)
      else Mapped(true, RoundOut(MapRect(Concat(ctm, Concat(m, inverse.value)), ToRect(input))))
    case ColorFilter(unbounded) => Mapped(!unbounded, input)
    case Compose(outer, inner) =>
      var first := if inner.Some? then MapDeviceBounds(inner.value, input, ctm, input) else Mapped(true, input);
      if outer == None then first else
      var second := MapDeviceBounds(outer.value, first.bounds, ctm, first.bounds);
      Mapped(first.ok && second.ok, second.bounds)
    case LocalMatrix(m, filter) =>
      if filter == None then Mapped(false, output)
      else MapDeviceBounds(filter.value, input, Concat(ctm, m), output)
  }

  /** Input bounds needed for output bounds, in device space. */
  function GetInputDeviceBounds(f: Filter, output: IRect, ctm: Matrix, input: IRect): Mapped<IRect> {
    match f
    case Blur(sx, sy) => Mapped(true, OutsetDeviceBounds(output, sx * 3.0, sy * 3.0, ctm))
    case Dilate(rx, ry) => Mapped(true, InsetDeviceBounds(output, rx, ry, ctm))
    case Erode(rx, ry) => Mapped(true, OutsetDeviceBounds(output, rx, ry, ctm))
    case MatrixTransform(m) =>
      var inverse := Invert(Concat(ctm, m));
      if inverse == None then Mapped(false, output)
      else Mapped(true, RoundOut(MapRect(Concat(ctm, inverse.value), ToRect(output))))
    case ColorFilter(unbounded) => Mapped(!unbounded, output)
    case Compose(outer, inner) =>
      var first := if outer.Some? then GetInputDeviceBounds(outer.value, output, ctm, output) else Mapped(true, output);
      if inner == None then first else
      var second := GetInputDeviceBounds(inner.value, first.bounds, ctm, first.bounds);
      Mapped(first.ok && second.ok, second.bounds)
    case LocalMatrix(m, filter) =>
      if filter == None then Mapped(false, input)
      else GetInputDeviceBounds(filter.value, output, Concat(ctm, m), input)
  }

  /** Output bounds for input bounds, in local space. */
  function MapLocalBounds(f: Filter, input: Rect, output: Rect): Mapped<Rect> {
    match f
    case Blur(sx, sy) => Mapped(true, Outset(input, sx * 3.0, sy * 3.0))
    case Dilate(rx, ry) => Mapped(true, Outset(input, rx, ry))
    case Erode(rx, ry) => Mapped(true, Outset(input, -rx, -ry))
    case MatrixTransform(m) => Mapped(true, MapRect(m, input))
    case ColorFilter(unbounded) => Mapped(!unbounded, input)
    case Compose(outer, inner) =>
      var first := if inner.Some? then MapLocalBounds(inner.value, input, input) else Mapped(true, input);
      if outer == None then first else
      var second := MapLocalBounds(outer.value, first.bounds, first.bounds);
      Mapped(first.ok && second.ok, second.bounds)
    case LocalMatrix(_, filter) =>
      if filter == None then Mapped(false, output) else MapLocalBounds(filter.value, input, output)
  }

  // ----- Callers promise radii that are not negative -----

  predicate Radii(f: Filter) {
    match f
    case Blur(sx, sy) => sx >= 0.0 && sy >= 0.0
    case Dilate(rx, ry) => rx >= 0.0 && ry >= 0.0
    case Erode(rx, ry) => rx >= 0.0 && ry >= 0.0
    case MatrixTransform(_) => true
    case ColorFilter(_) => true
    case Compose(outer, inner) => (outer.Some? ==> Radii(outer.value)) && (inner.Some? ==> Radii(inner.value))
    case LocalMatrix(_, filter) => filter.Some? ==> Radii(filter.value)
  }

  // ----- The radius of an affine map -----

  lemma TermBound(a: real, d: real, x: real)
    requires -x <= d <= x
    ensures -(x * Abs(a)) <= a * d <= x * Abs(a)
  {
    SlopeBetween(a, -x, d, x);
    assert a * (-x) == -(a * x) && x * (-a) == -(a * x);
  }

  lemma RowRadius(a: real, b: real, x: real, y: real, dx: real, dy: real, radius: real)
    requires -x <= dx <= x && -y <= dy <= y && radius == x * Abs(a) + y * Abs(b)
    ensures -radius <= a * dx + b * dy <= radius
  {
    TermBound(a, dx, x);
    TermBound(b, dy, y);
  }

  /** The bound covers the displacement of every vector within the radii. */
  lemma RadiusCovers(ctm: Matrix, x: real, y: real, dx: real, dy: real)
    requires -x <= dx <= x && -y <= dy <= y
    ensures var radius := MapVectorsAffine(ctm, x, y);
            && -radius.x <= ctm.sx * dx + ctm.kx * dy <= radius.x
            && -radius.y <= ctm.ky * dx + ctm.sy * dy <= radius.y
  {
    var radius := MapVectorsAffine(ctm, x, y);
    RowRadius(ctm.sx, ctm.kx, x, y, dx, dy, radius.x);
    RowRadius(ctm.ky, ctm.sy, x, y, dx, dy, radius.y);
  }

  function WithSign(x: real, a: real): real {
    if a >= 0.0 then x else -x
  }

  lemma SignedTerm(a: real, x: real)
    ensures a * WithSign(x, a) == x * Abs(a)
  {
  }

  lemma Attained(a: real, b: real, x: real, y: real) returns (dx: real, dy: real)
    requires x >= 0.0 && y >= 0.0
    ensures -x <= dx <= x && -y <= dy <= y
    ensures a * dx + b * dy == x * Abs(a) + y * Abs(b)
  {
    dx, dy := WithSign(x, a), WithSign(y, b);
    SignedTerm(a, x);
    SignedTerm(b, y);
  }

  /** And it is no larger than it must be: on each axis some vector within the radii is
      displaced by exactly the bound. */
  lemma RadiusIsAttained(ctm: Matrix, x: real, y: real) returns (across: Point, down: Point)
    requires x >= 0.0 && y >= 0.0
    ensures -x <= across.x <= x && -y <= across.y <= y && -x <= down.x <= x && -y <= down.y <= y
    ensures var radius := MapVectorsAffine(ctm, x, y);
            && ctm.sx * across.x + ctm.kx * across.y == radius.x
            && ctm.ky * down.x + ctm.sy * down.y == radius.y
  {
    var dx, dy := Attained(ctm.sx, ctm.kx, x, y);
    var ex, ey := Attained(ctm.ky, ctm.sy, x, y);
    across, down := Point(dx, dy), Point(ex, ey);
  }

  /** Radii are not negative in device space either. */
  lemma RadiusIsNonnegative(ctm: Matrix, x: real, y: real)
    requires x >= 0.0 && y >= 0.0
    ensures MapVectorsAffine(ctm, x, y).x >= 0.0 && MapVectorsAffine(ctm, x, y).y >= 0.0
  {
    RadiusCovers(ctm, x, y, 0.0, 0.0);
  }

  // ----- Forward and back -----

  /** Through the filter's matrix in device space and back through its inverse. */
  lemma ThereAndBack(ctm: Matrix, m: Matrix, p: Point)
    requires Det(ctm) != 0.0 && Det(Concat(ctm, m)) != 0.0
    ensures Map(Concat(ctm, Inverse(Concat(ctm, m))), Map(Concat(ctm, Concat(m, Inverse(ctm))), p)) == p
  {
    var inv, all := Inverse(ctm), Concat(ctm, m);
    var q := Map(inv, p);
    MapConcat(ctm, Concat(m, inv), p);
    MapConcat(m, inv, p);
    MapConcat(ctm, m, q);
    assert Map(Concat(ctm, Concat(m, inv)), p) == Map(all, q);
    MapConcat(ctm, Inverse(all), Map(all, q));
    InverseMaps(all, q);
    MapsInverse(ctm, p);
  }

  lemma PointSurvives(there: Matrix, back: Matrix, x: Rect, w: Rect, p: Point)
    requires Map(back, Map(there, p)) == p
    requires In(Map(there, p), MapRect(there, x)) && Covers(w, MapRect(there, x))
    ensures In(p, MapRect(back, w))
  {
    MapRectContains(back, w, Map(there, p));
  }

  lemma CoversTransitive(a: Rect, b: Rect, c: Rect)
    requires Covers(a, b) && Covers(b, c)
    ensures Covers(a, c)
  {
  }

  lemma CoversAsReals(w: IRect, x: IRect)
    ensures ICovers(w, x) <==> Covers(ToRect(w), ToRect(x))
  {
  }

  lemma MatrixAdjoint(m: Matrix, x: IRect, w: IRect, ctm: Matrix)
    requires Det(Concat(ctm, m)) != 0.0
    requires Det(ctm) != 0.0
    requires ICovers(w, RoundOut(MapRect(Concat(ctm, Concat(m, Inverse(ctm))), ToRect(x))))
    ensures ICovers(RoundOut(MapRect(Concat(ctm, Inverse(Concat(ctm, m))), ToRect(w))), x)
  {
    var there, back := Concat(ctm, Concat(m, Inverse(ctm))), Concat(ctm, Inverse(Concat(ctm, m)));
    RoundOutCovers(MapRect(there, ToRect(x)));
    CoversAsReals(w, RoundOut(MapRect(there, ToRect(x))));
    CoversTransitive(ToRect(w), ToRect(RoundOut(MapRect(there, ToRect(x)))), MapRect(there, ToRect(x)));
    var p, q := Point(x.left as real, x.top as real), Point(x.right as real, x.bottom as real);
    MapRectCorners(there, ToRect(x));
    ThereAndBack(ctm, m, p);
    ThereAndBack(ctm, m, q);
    PointSurvives(there, back, ToRect(x), ToRect(w), p);
    PointSurvives(there, back, ToRect(x), ToRect(w), q);
    RoundOutCovers(MapRect(back, ToRect(w)));
    CoversAsReals(RoundOut(MapRect(back, ToRect(w))), x);
  }

  /** What the filter needs covers what it was given, whatever covers its output. */
  lemma {:induction false} NeedsWhatItWasGiven(f: Filter, x: IRect, w: IRect, ctm: Matrix, out: IRect, out': IRect)
    requires Radii(f)
    requires ICovers(w, MapDeviceBounds(f, x, ctm, out).bounds)
    requires GetInputDeviceBounds(f, w, ctm, out').ok
    ensures MapDeviceBounds(f, x, ctm, out).ok
    ensures ICovers(GetInputDeviceBounds(f, w, ctm, out').bounds, x)
    decreases f
  {
    match f
    case Blur(sx, sy) => RadiusIsNonnegative(ctm, sx * 3.0, sy * 3.0);
    case Dilate(rx, ry) => RadiusIsNonnegative(ctm, rx, ry);
    case Erode(rx, ry) => RadiusIsNonnegative(ctm, rx, ry);
    case MatrixTransform(m) =>
      DetConcat(ctm, m);
      MatrixAdjoint(m, x, w, ctm);
    case ColorFilter(_) =>
    case Compose(outer, inner) =>
      var y := if inner.Some? then MapDeviceBounds(inner.value, x, ctm, x).bounds else x;
      var v := if outer.Some? then GetInputDeviceBounds(outer.value, w, ctm, w).bounds else w;
      if outer.Some? { NeedsWhatItWasGiven(outer.value, y, w, ctm, y, w); }
      if inner.Some? { NeedsWhatItWasGiven(inner.value, x, v, ctm, x, v); }
    case LocalMatrix(m, filter) =>
      NeedsWhatItWasGiven(filter.value, x, w, Concat(ctm, m), out, out');
  }

  /** For every tree of filters: if the input bounds for the output bounds of some input can
      be computed, they contain that input. */
  lemma RoundTripContains(f: Filter, x: IRect, ctm: Matrix, out: IRect, out': IRect)
    requires Radii(f)
    ensures var forward := MapDeviceBounds(f, x, ctm, out);
            var back := GetInputDeviceBounds(f, forward.bounds, ctm, out');
            back.ok ==> forward.ok && ICovers(back.bounds, x)
  {
    var forward := MapDeviceBounds(f, x, ctm, out);
    if GetInputDeviceBounds(f, forward.bounds, ctm, out').ok {
      NeedsWhatItWasGiven(f, x, forward.bounds, ctm, out, out');
    }
  }

  /** No part of the tree spreads over everything or is missing, and every matrix in it, and
      the one it is used under, can be inverted. */
  predicate Reversible(f: Filter, ctm: Matrix) {
    match f
    case MatrixTransform(m) => Det(ctm) != 0.0 && Det(m) != 0.0
    case ColorFilter(unbounded) => !unbounded
    case Compose(outer, inner) =>
      (outer.Some? ==> Reversible(outer.value, ctm)) && (inner.Some? ==> Reversible(inner.value, ctm))
    case LocalMatrix(m, filter) => filter.Some? && Reversible(filter.value, Concat(ctm, m))
    case _ => true
  }

  /** The same, without asking for the filters' own matrices. */
  predicate Mappable(f: Filter, ctm: Matrix) {
    match f
    case MatrixTransform(_) => Det(ctm) != 0.0
    case ColorFilter(unbounded) => !unbounded
    case Compose(outer, inner) =>
      (outer.Some? ==> Mappable(outer.value, ctm)) && (inner.Some? ==> Mappable(inner.value, ctm))
    case LocalMatrix(m, filter) => filter.Some? && Mappable(filter.value, Concat(ctm, m))
    case _ => true
  }

  /** Whether bounds can be computed depends on the tree and the matrix alone. */
  lemma {:induction false} WhenBoundsCanBeComputed(f: Filter, b: IRect, ctm: Matrix, out: IRect)
    ensures GetInputDeviceBounds(f, b, ctm, out).ok <==> Reversible(f, ctm)
    ensures MapDeviceBounds(f, b, ctm, out).ok <==> Mappable(f, ctm)
    decreases f
  {
    match f
    case MatrixTransform(m) => DetConcat(ctm, m);
    case Compose(outer, inner) =>
      if outer.Some? {
        WhenBoundsCanBeComputed(outer.value, b, ctm, b);
        if inner.Some? {
          WhenBoundsCanBeComputed(outer.value, MapDeviceBounds(inner.value, b, ctm, b).bounds, ctm,
                                  MapDeviceBounds(inner.value, b, ctm, b).bounds);
          WhenBoundsCanBeComputed(inner.value, GetInputDeviceBounds(outer.value, b, ctm, b).bounds, ctm,
                                  GetInputDeviceBounds(outer.value, b, ctm, b).bounds);
        }
      }
      if inner.Some? { WhenBoundsCanBeComputed(inner.value, b, ctm, b); }
    case LocalMatrix(m, filter) =>
      if filter.Some? { WhenBoundsCanBeComputed(filter.value, b, Concat(ctm, m), out); }
    case _ =>
  }

  lemma Collapses(m: Matrix, ctm: Matrix, f: Matrix, r: Rect)
    requires m.sx == m.kx == m.ky == m.sy == 0.0 && Det(ctm) != 0.0
    requires f == Matrix(0.0, 0.0, Map(ctm, Point(m.tx, m.ty)).x, 0.0, 0.0, Map(ctm, Point(m.tx, m.ty)).y)
    ensures Concat(f, ctm) == Concat(ctm, m) && Det(Concat(ctm, m)) == 0.0
    ensures MapRect(f, r) == Rect(f.tx, f.ty, f.tx, f.ty)
  {
  }

  /** Where the input bounds cannot be computed, what is written instead may miss the input:
      a matrix that moves everything to one point misses what lies to the left of it. */
  lemma FailureMayMissTheInput(m: Matrix, x: IRect, ctm: Matrix, out: IRect, out': IRect)
    requires m.sx == m.kx == m.ky == m.sy == 0.0 && Det(ctm) != 0.0
    requires x.left < Map(ctm, Point(m.tx, m.ty)).x.Floor
    ensures var forward := MapDeviceBounds(MatrixTransform(m), x, ctm, out);
            var back := GetInputDeviceBounds(MatrixTransform(m), forward.bounds, ctm, out');
            forward.ok && !back.ok && !ICovers(back.bounds, x)
  {
    var p := Map(ctm, Point(m.tx, m.ty));
    var f := Matrix(0.0, 0.0, p.x, 0.0, 0.0, p.y);
    Collapses(m, ctm, f, ToRect(x));
    ConjugateIsUnique(m, ctm, f);
  }
}
