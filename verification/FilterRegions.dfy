// What the bounds of image filters bound: where content can be after a filter, as a region of
// the device, and where the code looks for the input of an output region; and that bounds
// are no larger than whole pixels make them.
module FilterRegions {
  import opened Basics
  import opened DisplayListOps
  import opened Geometry
  import opened ImageFilter
  import opened Regions

  // ----- Displaced points -----

  predicate WithinRadii(v: Point, x: real, y: real) {
    -x <= v.x <= x && -y <= v.y <= y
  }

  /** What a vector of local space becomes on the device. */
  function Displacement(ctm: Matrix, v: Point): Point {
    Point(ctm.sx * v.x + ctm.kx * v.y, ctm.ky * v.x + ctm.sy * v.y)
  }

  function Plus(p: Point, d: Point): Point {
    Point(p.x + d.x, p.y + d.y)
  }

  function Shifted(ctm: Matrix, p: Point, v: Point): Point {
    Plus(p, Displacement(ctm, v))
  }

  /** A point of the region, displaced by a vector within the radii, is here. */
  ghost predicate Reaches(region: Region, ctm: Matrix, x: real, y: real, q: Point) {
    exists p, v :: region(p) && WithinRadii(v, x, y) && q == Shifted(ctm, p, v)
  }

  /** From here, every vector within the radii stays in the region. */
  ghost predicate Stays(region: Region, ctm: Matrix, x: real, y: real, q: Point) {
    forall v :: WithinRadii(v, x, y) ==> region(Shifted(ctm, q, v))
  }

  ghost function Grown(region: Region, ctm: Matrix, x: real, y: real): Region {
    q => Reaches(region, ctm, x, y, q)
  }

  ghost function Shrunk(region: Region, ctm: Matrix, x: real, y: real): Region {
    q => Stays(region, ctm, x, y, q)
  }

  /** A point of local space that lands in the region is moved by the matrix to a point that
      lands here. */
  ghost function Moved(region: Region, ctm: Matrix, m: Matrix): Region {
    q => exists u {:trigger Map(m, u)} :: region(Map(ctm, u)) && q == Map(ctm, Map(m, u))
  }

  ghost function MovedBack(region: Region, ctm: Matrix, m: Matrix): Region {
    p => exists u {:trigger Map(m, u)} :: p == Map(ctm, u) && region(Map(ctm, Map(m, u)))
  }

  // ----- What filters do to regions -----

  /** Where content can be after the filter. */
  ghost function Output(f: Filter, region: Region, ctm: Matrix): Region {
    match f
    case Blur(sx, sy) => Grown(region, ctm, sx * 3.0, sy * 3.0)
    case Dilate(rx, ry) => Grown(region, ctm, rx, ry)
    case Erode(rx, ry) => Shrunk(region, ctm, rx, ry)
    case MatrixTransform(m) => Moved(region, ctm, m)
    case ColorFilter(_) => region
    case Compose(outer, inner) =>
      var first := if inner.Some? then Output(inner.value, region, ctm) else region;
      if outer.Some? then Output(outer.value, first, ctm) else first
    case LocalMatrix(m, filter) => if filter.Some? then Output(filter.value, region, Concat(ctm, m)) else region
  }

  /** Where input is looked for. What is dilated into a region without leaving it was inside
      by the radius, and what an erosion leaves in a region may come from around it. */
  ghost function Input(f: Filter, region: Region, ctm: Matrix): Region {
    match f
    case Blur(sx, sy) => Grown(region, ctm, sx * 3.0, sy * 3.0)
    case Dilate(rx, ry) => Shrunk(region, ctm, rx, ry)
    case Erode(rx, ry) => Grown(region, ctm, rx, ry)
    case MatrixTransform(m) => MovedBack(region, ctm, m)
    case ColorFilter(_) => region
    case Compose(outer, inner) =>
      var first := if outer.Some? then Input(outer.value, region, ctm) else region;
      if inner.Some? then Input(inner.value, first, ctm) else first
    case LocalMatrix(m, filter) => if filter.Some? then Input(filter.value, region, Concat(ctm, m)) else region
  }

  /** Where content can be in local space; local matrices play no part there. */
  ghost function LocalOutput(f: Filter, region: Region): Region {
    match f
    case Blur(sx, sy) => Grown(region, UNIT, sx * 3.0, sy * 3.0)
    case Dilate(rx, ry) => Grown(region, UNIT, rx, ry)
    case Erode(rx, ry) => Shrunk(region, UNIT, rx, ry)
    case MatrixTransform(m) => Moved(region, UNIT, m)
    case ColorFilter(_) => region
    case Compose(outer, inner) =>
      var first := if inner.Some? then LocalOutput(inner.value, region) else region;
      if outer.Some? then LocalOutput(outer.value, first) else first
    case LocalMatrix(_, filter) => if filter.Some? then LocalOutput(filter.value, region) else region
  }

  // ----- Regions within rectangles -----

  ghost predicate LiesIn(region: Region, r: Rect) {
    forall p :: region(p) ==> In(p, r)
  }

  function Whole(r: Rect): Region {
    p => In(p, r)
  }

  lemma DisplacementWithin(ctm: Matrix, x: real, y: real, v: Point, radius: Point)
    requires WithinRadii(v, x, y) && radius == MapVectorsAffine(ctm, x, y)
    ensures WithinRadii(Displacement(ctm, v), radius.x, radius.y)
  {
    RadiusCovers(ctm, x, y, v.x, v.y);
  }

  lemma NearRect(r: Rect, p: Point, d: Point, radius: Point)
    requires In(p, r) && WithinRadii(d, radius.x, radius.y)
    ensures In(Plus(p, d), Outset(r, radius.x, radius.y))
  {
  }

  lemma GrownLiesIn(region: Region, r: Rect, ctm: Matrix, x: real, y: real, radius: Point)
    requires LiesIn(region, r) && radius == MapVectorsAffine(ctm, x, y)
    ensures LiesIn(Grown(region, ctm, x, y), Outset(r, radius.x, radius.y))
  {
    forall q | Reaches(region, ctm, x, y, q)
      ensures In(q, Outset(r, radius.x, radius.y))
    {
      var p, v :| region(p) && WithinRadii(v, x, y) && q == Shifted(ctm, p, v);
      DisplacementWithin(ctm, x, y, v, radius);
      NearRect(r, p, Displacement(ctm, v), radius);
    }
  }

  function Opposite(v: Point): Point {
    Point(-v.x, -v.y)
  }

  lemma OppositeDisplacement(ctm: Matrix, v: Point)
    ensures Displacement(ctm, Opposite(v)) == Opposite(Displacement(ctm, v))
  {
  }

  /** On each axis some vector within the radii is displaced by the whole radius. */
  lemma Extremes(ctm: Matrix, x: real, y: real, radius: Point) returns (across: Point, down: Point)
    requires x >= 0.0 && y >= 0.0 && radius == MapVectorsAffine(ctm, x, y)
    ensures WithinRadii(across, x, y) && WithinRadii(down, x, y)
    ensures Displacement(ctm, across).x == radius.x && Displacement(ctm, down).y == radius.y
  {
    across, down := RadiusIsAttained(ctm, x, y);
  }

  lemma BothSides(r: Rect, q: Point, d: Point, e: Point, radius: Point)
    requires d.x == radius.x && e.y == radius.y
    requires In(Plus(q, d), r) && In(Plus(q, Opposite(d)), r) && In(Plus(q, e), r) && In(Plus(q, Opposite(e)), r)
    ensures In(q, Outset(r, -radius.x, -radius.y))
  {
  }

  lemma StaysIn(region: Region, r: Rect, ctm: Matrix, x: real, y: real, q: Point, v: Point)
    requires LiesIn(region, r) && Stays(region, ctm, x, y, q) && WithinRadii(v, x, y)
    ensures In(Plus(q, Displacement(ctm, v)), r) && In(Plus(q, Opposite(Displacement(ctm, v))), r)
  {
    OppositeDisplacement(ctm, v);
    assert WithinRadii(Opposite(v), x, y);
    assert region(Shifted(ctm, q, v)) && region(Shifted(ctm, q, Opposite(v)));
  }

  lemma ShrunkLiesIn(region: Region, r: Rect, ctm: Matrix, x: real, y: real, radius: Point)
    requires LiesIn(region, r) && x >= 0.0 && y >= 0.0 && radius == MapVectorsAffine(ctm, x, y)
    ensures LiesIn(Shrunk(region, ctm, x, y), Outset(r, -radius.x, -radius.y))
  {
    var across, down := Extremes(ctm, x, y, radius);
    forall q | Stays(region, ctm, x, y, q)
      ensures In(q, Outset(r, -radius.x, -radius.y))
    {
      StaysIn(region, r, ctm, x, y, q, across);
      StaysIn(region, r, ctm, x, y, q, down);
      BothSides(r, q, Displacement(ctm, across), Displacement(ctm, down), radius);
    }
  }

  lemma MovedLiesIn(region: Region, r: Rect, ctm: Matrix, m: Matrix)
    requires LiesIn(region, r) && Det(ctm) != 0.0
    ensures LiesIn(Moved(region, ctm, m), MapRect(Conjugate(m, ctm), r))
  {
    forall q | Moved(region, ctm, m)(q)
      ensures In(q, MapRect(Conjugate(m, ctm), r))
    {
      var u :| region(Map(ctm, u)) && q == Map(ctm, Map(m, u));
      MapConjugate(m, ctm, u);
      MapRectContains(Conjugate(m, ctm), r, Map(ctm, u));
    }
  }

  /** What the conjugate does to the image of a local point. */
  lemma MapConjugate(m: Matrix, ctm: Matrix, u: Point)
    requires Det(ctm) != 0.0
    ensures Map(Conjugate(m, ctm), Map(ctm, u)) == Map(ctm, Map(m, u))
  {
    MapConcat(ctm, Concat(m, Inverse(ctm)), Map(ctm, u));
    MapConcat(m, Inverse(ctm), Map(ctm, u));
    InverseMaps(ctm, u);
  }

  function Reverse(m: Matrix, ctm: Matrix): Matrix
    requires Det(Concat(ctm, m)) != 0.0
  {
    Concat(ctm, Inverse(Concat(ctm, m)))
  }

  lemma MapReverse(m: Matrix, ctm: Matrix, u: Point)
    requires Det(Concat(ctm, m)) != 0.0
    ensures Map(Reverse(m, ctm), Map(ctm, Map(m, u))) == Map(ctm, u)
  {
    var all := Concat(ctm, m);
    MapConcat(ctm, m, u);
    MapConcat(ctm, Inverse(all), Map(all, u));
    InverseMaps(all, u);
  }

  lemma MovedBackLiesIn(region: Region, r: Rect, ctm: Matrix, m: Matrix)
    requires LiesIn(region, r) && Det(Concat(ctm, m)) != 0.0
    ensures LiesIn(MovedBack(region, ctm, m), MapRect(Reverse(m, ctm), r))
  {
    forall p | MovedBack(region, ctm, m)(p)
      ensures In(p, MapRect(Reverse(m, ctm), r))
    {
      var u :| p == Map(ctm, u) && region(Map(ctm, Map(m, u)));
      MapReverse(m, ctm, u);
      MapRectContains(Reverse(m, ctm), r, Map(ctm, Map(m, u)));
    }
  }

  lemma WiderLiesIn(region: Region, r: Rect, s: Rect)
    requires LiesIn(region, r) && Covers(s, r)
    ensures LiesIn(region, s)
  {
  }

  lemma OutsetRounded(b: IRect, radius: Point)
    ensures Covers(ToRect(IOutset(b, Ceil(radius.x), Ceil(radius.y))), Outset(ToRect(b), radius.x, radius.y))
  {
  }

  lemma InsetRounded(b: IRect, radius: Point)
    ensures Covers(ToRect(IOutset(b, -radius.x.Floor, -radius.y.Floor)), Outset(ToRect(b), -radius.x, -radius.y))
  {
  }

  lemma GrownBounds(region: Region, b: IRect, ctm: Matrix, x: real, y: real)
    requires LiesIn(region, ToRect(b))
    ensures LiesIn(Grown(region, ctm, x, y), ToRect(OutsetDeviceBounds(b, x, y, ctm)))
  {
    var radius := MapVectorsAffine(ctm, x, y);
    GrownLiesIn(region, ToRect(b), ctm, x, y, radius);
    OutsetRounded(b, radius);
    WiderLiesIn(Grown(region, ctm, x, y), Outset(ToRect(b), radius.x, radius.y), ToRect(OutsetDeviceBounds(b, x, y, ctm)));
  }

  lemma ShrunkBounds(region: Region, b: IRect, ctm: Matrix, x: real, y: real)
    requires LiesIn(region, ToRect(b)) && x >= 0.0 && y >= 0.0
    ensures LiesIn(Shrunk(region, ctm, x, y), ToRect(InsetDeviceBounds(b, x, y, ctm)))
  {
    var radius := MapVectorsAffine(ctm, x, y);
    ShrunkLiesIn(region, ToRect(b), ctm, x, y, radius);
    InsetRounded(b, radius);
    WiderLiesIn(Shrunk(region, ctm, x, y), Outset(ToRect(b), -radius.x, -radius.y), ToRect(InsetDeviceBounds(b, x, y, ctm)));
  }

  lemma MovedBounds(region: Region, b: IRect, ctm: Matrix, m: Matrix, f: Matrix)
    requires LiesIn(region, ToRect(b)) && Det(ctm) != 0.0 && f == Conjugate(m, ctm)
    ensures LiesIn(Moved(region, ctm, m), ToRect(RoundOut(MapRect(f, ToRect(b)))))
  {
    MovedLiesIn(region, ToRect(b), ctm, m);
    RoundOutCovers(MapRect(f, ToRect(b)));
    WiderLiesIn(Moved(region, ctm, m), MapRect(f, ToRect(b)), ToRect(RoundOut(MapRect(f, ToRect(b)))));
  }

  lemma MovedBackBounds(region: Region, b: IRect, ctm: Matrix, m: Matrix, f: Matrix)
    requires LiesIn(region, ToRect(b)) && Det(Concat(ctm, m)) != 0.0 && f == Reverse(m, ctm)
    ensures LiesIn(MovedBack(region, ctm, m), ToRect(RoundOut(MapRect(f, ToRect(b)))))
  {
    MovedBackLiesIn(region, ToRect(b), ctm, m);
    RoundOutCovers(MapRect(f, ToRect(b)));
    WiderLiesIn(MovedBack(region, ctm, m), MapRect(f, ToRect(b)), ToRect(RoundOut(MapRect(f, ToRect(b)))));
  }

  // ----- The bounds contain the regions, for every tree -----

  /** If the output bounds of a tree of filters can be computed for bounds of some content,
      they contain wherever that content can be after the filters. */
  lemma {:induction false} OutputIsBounded(f: Filter, region: Region, b: IRect, ctm: Matrix, out: IRect)
    requires Radii(f) && LiesIn(region, ToRect(b)) && MapDeviceBounds(f, b, ctm, out).ok
    ensures LiesIn(Output(f, region, ctm), ToRect(MapDeviceBounds(f, b, ctm, out).bounds))
    decreases f
  {
    match f
    case Blur(sx, sy) => GrownBounds(region, b, ctm, sx * 3.0, sy * 3.0);
    case Dilate(rx, ry) => GrownBounds(region, b, ctm, rx, ry);
    case Erode(rx, ry) => ShrunkBounds(region, b, ctm, rx, ry);
    case MatrixTransform(m) => MovedBounds(region, b, ctm, m, Conjugate(m, ctm));
    case ColorFilter(_) =>
    case Compose(outer, inner) =>
      var first := if inner.Some? then Output(inner.value, region, ctm) else region;
      var b' := if inner.Some? then MapDeviceBounds(inner.value, b, ctm, b).bounds else b;
      if inner.Some? { OutputIsBounded(inner.value, region, b, ctm, b); }
      if outer.Some? { OutputIsBounded(outer.value, first, b', ctm, b'); }
    case LocalMatrix(m, filter) => OutputIsBounded(filter.value, region, b, Concat(ctm, m), out);
  }

  /** If the input bounds of a tree of filters can be computed for bounds of some output, they
      contain wherever input is looked for. */
  lemma {:induction false} InputIsBounded(f: Filter, region: Region, w: IRect, ctm: Matrix, input: IRect)
    requires Radii(f) && LiesIn(region, ToRect(w)) && GetInputDeviceBounds(f, w, ctm, input).ok
    ensures LiesIn(Input(f, region, ctm), ToRect(GetInputDeviceBounds(f, w, ctm, input).bounds))
    decreases f
  {
    match f
    case Blur(sx, sy) => GrownBounds(region, w, ctm, sx * 3.0, sy * 3.0);
    case Dilate(rx, ry) => ShrunkBounds(region, w, ctm, rx, ry);
    case Erode(rx, ry) => GrownBounds(region, w, ctm, rx, ry);
    case MatrixTransform(m) => MovedBackBounds(region, w, ctm, m, Reverse(m, ctm));
    case ColorFilter(_) =>
    case Compose(outer, inner) =>
      var first := if outer.Some? then Input(outer.value, region, ctm) else region;
      var w' := if outer.Some? then GetInputDeviceBounds(outer.value, w, ctm, w).bounds else w;
      if outer.Some? { InputIsBounded(outer.value, region, w, ctm, w); }
      if inner.Some? { InputIsBounded(inner.value, first, w', ctm, w'); }
    case LocalMatrix(m, filter) => InputIsBounded(filter.value, region, w, Concat(ctm, m), input);
  }

  lemma UnitRadius(x: real, y: real)
    requires x >= 0.0 && y >= 0.0
    ensures MapVectorsAffine(UNIT, x, y) == Point(x, y)
  {
  }

  lemma UnitMoves(region: Region, m: Matrix, q: Point)
    requires Moved(region, UNIT, m)(q)
    ensures exists u {:trigger Map(m, u)} :: region(u) && q == Map(m, u)
  {
    var u :| region(Map(UNIT, u)) && q == Map(UNIT, Map(m, u));
    MapUnit(u);
    MapUnit(Map(m, u));
  }

  lemma MapUnit(p: Point)
    ensures Map(UNIT, p) == p
  {
  }

  lemma LocallyMoved(region: Region, r: Rect, m: Matrix)
    requires LiesIn(region, r)
    ensures LiesIn(Moved(region, UNIT, m), MapRect(m, r))
  {
    forall q | Moved(region, UNIT, m)(q)
      ensures In(q, MapRect(m, r))
    {
      UnitMoves(region, m, q);
      var u {:trigger Map(m, u)} :| region(u) && q == Map(m, u);
      MapRectContains(m, r, u);
    }
  }

  /** The same in local space, without rounding. */
  lemma {:induction false} LocalOutputIsBounded(f: Filter, region: Region, r: Rect, out: Rect)
    requires Radii(f) && LiesIn(region, r) && MapLocalBounds(f, r, out).ok
    ensures LiesIn(LocalOutput(f, region), MapLocalBounds(f, r, out).bounds)
    decreases f
  {
    match f
    case Blur(sx, sy) =>
      UnitRadius(sx * 3.0, sy * 3.0);
      GrownLiesIn(region, r, UNIT, sx * 3.0, sy * 3.0, Point(sx * 3.0, sy * 3.0));
    case Dilate(rx, ry) =>
      UnitRadius(rx, ry);
      GrownLiesIn(region, r, UNIT, rx, ry, Point(rx, ry));
    case Erode(rx, ry) =>
      UnitRadius(rx, ry);
      ShrunkLiesIn(region, r, UNIT, rx, ry, Point(rx, ry));
    case MatrixTransform(m) => LocallyMoved(region, r, m);
    case ColorFilter(_) =>
    case Compose(outer, inner) =>
      var first := if inner.Some? then LocalOutput(inner.value, region) else region;
      var r' := if inner.Some? then MapLocalBounds(inner.value, r, r).bounds else r;
      if inner.Some? { LocalOutputIsBounded(inner.value, region, r, r); }
      if outer.Some? { LocalOutputIsBounded(outer.value, first, r', r'); }
    case LocalMatrix(_, filter) => LocalOutputIsBounded(filter.value, region, r, out);
  }

  // ----- The bounds of single filters are the smallest in whole pixels -----

  lemma ReachedCorner(r: Rect, ctm: Matrix, x: real, y: real, p: Point, v: Point, s: Rect)
    requires In(p, r) && WithinRadii(v, x, y) && LiesIn(Grown(Whole(r), ctm, x, y), s)
    ensures In(Plus(p, Displacement(ctm, v)), s)
  {
    assert Whole(r)(p);
    assert Reaches(Whole(r), ctm, x, y, Shifted(ctm, p, v));
  }

  lemma OutsetIsLeast(b: IRect, w: IRect, radius: Point)
    requires w.left as real <= b.left as real - radius.x && w.top as real <= b.top as real - radius.y
    requires w.right as real >= b.right as real + radius.x && w.bottom as real >= b.bottom as real + radius.y
    ensures ICovers(w, IOutset(b, Ceil(radius.x), Ceil(radius.y)))
  {
  }

  lemma InsetIsLeast(b: IRect, w: IRect, radius: Point)
    requires w.left as real <= b.left as real + radius.x && w.top as real <= b.top as real + radius.y
    requires w.right as real >= b.right as real - radius.x && w.bottom as real >= b.bottom as real - radius.y
    ensures ICovers(w, IOutset(b, -radius.x.Floor, -radius.y.Floor))
  {
  }

  lemma GrownIsLeast(b: IRect, w: IRect, ctm: Matrix, x: real, y: real)
    requires Sorted(ToRect(b)) && x >= 0.0 && y >= 0.0
    requires LiesIn(Grown(Whole(ToRect(b)), ctm, x, y), ToRect(w))
    ensures ICovers(w, OutsetDeviceBounds(b, x, y, ctm))
  {
    var r, s, radius := ToRect(b), ToRect(w), MapVectorsAffine(ctm, x, y);
    var across, down := Extremes(ctm, x, y, radius);
    OppositeDisplacement(ctm, across);
    OppositeDisplacement(ctm, down);
    ReachedCorner(r, ctm, x, y, Point(r.left, r.top), Opposite(across), s);
    ReachedCorner(r, ctm, x, y, Point(r.left, r.top), Opposite(down), s);
    ReachedCorner(r, ctm, x, y, Point(r.right, r.bottom), across, s);
    ReachedCorner(r, ctm, x, y, Point(r.right, r.bottom), down, s);
    OutsetIsLeast(b, w, radius);
  }

  lemma CornerStays(r: Rect, ctm: Matrix, x: real, y: real, q: Point, radius: Point, s: Rect)
    requires radius == MapVectorsAffine(ctm, x, y) && In(q, Outset(r, -radius.x, -radius.y))
    requires LiesIn(Shrunk(Whole(r), ctm, x, y), s)
    ensures In(q, s)
  {
    forall v | WithinRadii(v, x, y)
      ensures Whole(r)(Shifted(ctm, q, v))
    {
      DisplacementWithin(ctm, x, y, v, radius);
      NearRect(Outset(r, -radius.x, -radius.y), q, Displacement(ctm, v), radius);
    }
    assert Stays(Whole(r), ctm, x, y, q);
  }

  lemma ShrunkIsLeast(b: IRect, w: IRect, ctm: Matrix, x: real, y: real, radius: Point)
    requires radius == MapVectorsAffine(ctm, x, y) && Sorted(Outset(ToRect(b), -radius.x, -radius.y))
    requires LiesIn(Shrunk(Whole(ToRect(b)), ctm, x, y), ToRect(w))
    ensures ICovers(w, InsetDeviceBounds(b, x, y, ctm))
  {
    var o := Outset(ToRect(b), -radius.x, -radius.y);
    CornerStays(ToRect(b), ctm, x, y, Point(o.left, o.top), radius, ToRect(w));
    CornerStays(ToRect(b), ctm, x, y, Point(o.right, o.bottom), radius, ToRect(w));
    InsetIsLeast(b, w, radius);
  }

  lemma RoundOutIsLeast(r: Rect, w: IRect)
    requires Covers(ToRect(w), r)
    ensures ICovers(w, RoundOut(r))
  {
  }

  lemma MovedIsLeast(b: IRect, w: IRect, ctm: Matrix, m: Matrix, f: Matrix)
    requires Sorted(ToRect(b)) && Det(ctm) != 0.0 && f == Conjugate(m, ctm)
    requires LiesIn(Moved(Whole(ToRect(b)), ctm, m), ToRect(w))
    ensures ICovers(w, RoundOut(MapRect(f, ToRect(b))))
  {
    forall p | In(p, ToRect(b))
      ensures In(Map(f, p), ToRect(w))
    {
      var u := Map(Inverse(ctm), p);
      MapsInverse(ctm, p);
      MapConjugate(m, ctm, u);
      assert Whole(ToRect(b))(Map(ctm, u));
      assert Moved(Whole(ToRect(b)), ctm, m)(Map(ctm, Map(m, u)));
    }
    MapRectIsLeast(f, ToRect(b), ToRect(w));
    RoundOutIsLeast(MapRect(f, ToRect(b)), w);
  }

  lemma MovedBackIsLeast(b: IRect, w: IRect, ctm: Matrix, m: Matrix, f: Matrix)
    requires Sorted(ToRect(b)) && Det(Concat(ctm, m)) != 0.0 && f == Reverse(m, ctm)
    requires LiesIn(MovedBack(Whole(ToRect(b)), ctm, m), ToRect(w))
    ensures ICovers(w, RoundOut(MapRect(f, ToRect(b))))
  {
    forall q | In(q, ToRect(b))
      ensures In(Map(f, q), ToRect(w))
    {
      var u := Map(Inverse(Concat(ctm, m)), q);
      MapsInverse(Concat(ctm, m), q);
      MapConcat(ctm, m, u);
      MapReverse(m, ctm, u);
      assert Whole(ToRect(b))(Map(ctm, Map(m, u)));
      assert MovedBack(Whole(ToRect(b)), ctm, m)(Map(ctm, u));
    }
    MapRectIsLeast(f, ToRect(b), ToRect(w));
    RoundOutIsLeast(MapRect(f, ToRect(b)), w);
  }

  lemma WholeIsLeast(b: IRect, w: IRect)
    requires Sorted(ToRect(b)) && LiesIn(Whole(ToRect(b)), ToRect(w))
    ensures ICovers(w, b)
  {
    var r := ToRect(b);
    assert Whole(r)(Point(r.left, r.top)) && Whole(r)(Point(r.right, r.bottom));
  }

  /** The bounds can be shrunk by the radii and leave something. */
  predicate CanShrink(b: IRect, x: real, y: real, ctm: Matrix) {
    var radius := MapVectorsAffine(ctm, x, y);
    Sorted(Outset(ToRect(b), -radius.x, -radius.y))
  }

  /** One filter, perhaps under local matrices; if it shrinks bounds, it leaves something. */
  predicate SingleOutput(f: Filter, b: IRect, ctm: Matrix) {
    match f
    case Erode(rx, ry) => CanShrink(b, rx, ry, ctm)
    case Compose(_, _) => false
    case LocalMatrix(m, filter) => filter.Some? && SingleOutput(filter.value, b, Concat(ctm, m))
    case _ => true
  }

  predicate SingleInput(f: Filter, b: IRect, ctm: Matrix) {
    match f
    case Dilate(rx, ry) => CanShrink(b, rx, ry, ctm)
    case Compose(_, _) => false
    case LocalMatrix(m, filter) => filter.Some? && SingleInput(filter.value, b, Concat(ctm, m))
    case _ => true
  }

  /** No smaller rectangle in whole pixels contains wherever content that fills the bounds can
      be after the filter. */
  lemma {:induction false} OutputBoundsAreLeast(f: Filter, b: IRect, ctm: Matrix, out: IRect, w: IRect)
    requires Radii(f) && Sorted(ToRect(b)) && SingleOutput(f, b, ctm) && MapDeviceBounds(f, b, ctm, out).ok
    requires LiesIn(Output(f, Whole(ToRect(b)), ctm), ToRect(w))
    ensures ICovers(w, MapDeviceBounds(f, b, ctm, out).bounds)
    decreases f
  {
    match f
    case Blur(sx, sy) => GrownIsLeast(b, w, ctm, sx * 3.0, sy * 3.0);
    case Dilate(rx, ry) => GrownIsLeast(b, w, ctm, rx, ry);
    case Erode(rx, ry) => ShrunkIsLeast(b, w, ctm, rx, ry, MapVectorsAffine(ctm, rx, ry));
    case MatrixTransform(m) => MovedIsLeast(b, w, ctm, m, Conjugate(m, ctm));
    case ColorFilter(_) => WholeIsLeast(b, w);
    case LocalMatrix(m, filter) => OutputBoundsAreLeast(filter.value, b, Concat(ctm, m), out, w);
  }

  /** And none contains wherever input is looked for. */
  lemma {:induction false} InputBoundsAreLeast(f: Filter, b: IRect, ctm: Matrix, input: IRect, w: IRect)
    requires Radii(f) && Sorted(ToRect(b)) && SingleInput(f, b, ctm) && GetInputDeviceBounds(f, b, ctm, input).ok
    requires LiesIn(Input(f, Whole(ToRect(b)), ctm), ToRect(w))
    ensures ICovers(w, GetInputDeviceBounds(f, b, ctm, input).bounds)
    decreases f
  {
    match f
    case Blur(sx, sy) => GrownIsLeast(b, w, ctm, sx * 3.0, sy * 3.0);
    case Dilate(rx, ry) => ShrunkIsLeast(b, w, ctm, rx, ry, MapVectorsAffine(ctm, rx, ry));
    case Erode(rx, ry) => GrownIsLeast(b, w, ctm, rx, ry);
    case MatrixTransform(m) => MovedBackIsLeast(b, w, ctm, m, Reverse(m, ctm));
    case ColorFilter(_) => WholeIsLeast(b, w);
    case LocalMatrix(m, filter) => InputBoundsAreLeast(filter.value, b, Concat(ctm, m), input, w);
  }

  // ----- What a dilation reads -----

  /** What a dilation puts into its output comes from all around, but the input bounds leave
      out a rim: they suffice for the output exactly if the dilation does nothing. */
  lemma WhenDilationInputSuffices(x: real, y: real, w: IRect, ctm: Matrix, input: IRect, radius: Point)
    requires x >= 0.0 && y >= 0.0 && Sorted(ToRect(w)) && radius == MapVectorsAffine(ctm, x, y)
    ensures LiesIn(Grown(Whole(ToRect(w)), ctm, x, y), ToRect(GetInputDeviceBounds(Dilate(x, y), w, ctm, input).bounds))
       <==> radius == Point(0.0, 0.0)
  {
    var back := GetInputDeviceBounds(Dilate(x, y), w, ctm, input).bounds;
    RadiusIsNonnegative(ctm, x, y);
    if radius == Point(0.0, 0.0) {
      GrownLiesIn(Whole(ToRect(w)), ToRect(w), ctm, x, y, radius);
      WiderLiesIn(Grown(Whole(ToRect(w)), ctm, x, y), Outset(ToRect(w), radius.x, radius.y), ToRect(back));
    } else if LiesIn(Grown(Whole(ToRect(w)), ctm, x, y), ToRect(back)) {
      GrownIsLeast(w, back, ctm, x, y);
      InsetIsSmaller(w, radius);
    }
  }

  lemma InsetIsSmaller(w: IRect, radius: Point)
    requires radius.x >= 0.0 && radius.y >= 0.0 && radius != Point(0.0, 0.0)
    ensures !ICovers(IOutset(w, -radius.x.Floor, -radius.y.Floor), IOutset(w, Ceil(radius.x), Ceil(radius.y)))
  {
  }

  /** Shrunk by a dilation on the way back and grown by it on the way out, bounds lose
      nothing and gain at most a pixel on each side: none if the radii are whole. */
  lemma DilationRoundTrip(x: real, y: real, w: IRect, ctm: Matrix, bounds: IRect, radius: Point, back: IRect)
    requires radius == MapVectorsAffine(ctm, x, y) && back == GetInputDeviceBounds(Dilate(x, y), w, ctm, bounds).bounds
    ensures var there := MapDeviceBounds(Dilate(x, y), back, ctm, bounds).bounds;
            && ICovers(there, w) && ICovers(IOutset(w, 1, 1), there)
            && (IsWhole(radius.x) && IsWhole(radius.y) ==> there == w)
  {
    BackAndForth(w, radius);
  }

  predicate IsWhole(x: real) {
    x.Floor as real == x
  }

  lemma BackAndForth(w: IRect, radius: Point)
    ensures var there := IOutset(IOutset(w, -radius.x.Floor, -radius.y.Floor), Ceil(radius.x), Ceil(radius.y));
            && ICovers(there, w) && ICovers(IOutset(w, 1, 1), there)
            && (IsWhole(radius.x) && IsWhole(radius.y) ==> there == w)
  {
  }

  // ----- Local space -----

  lemma LocallyMovedIsLeast(r: Rect, m: Matrix, s: Rect)
    requires Sorted(r) && LiesIn(Moved(Whole(r), UNIT, m), s)
    ensures Covers(s, MapRect(m, r))
  {
    forall p | In(p, r)
      ensures In(Map(m, p), s)
    {
      MapUnit(p);
      MapUnit(Map(m, p));
      assert Whole(r)(Map(UNIT, p));
      assert Moved(Whole(r), UNIT, m)(Map(UNIT, Map(m, p)));
    }
    MapRectIsLeast(m, r, s);
  }

  lemma UnitDisplacement(v: Point)
    ensures Displacement(UNIT, v) == v
  {
  }

  lemma LocallyGrownIsLeast(r: Rect, x: real, y: real, s: Rect)
    requires Sorted(r) && x >= 0.0 && y >= 0.0 && LiesIn(Grown(Whole(r), UNIT, x, y), s)
    ensures Covers(s, Outset(r, x, y))
  {
    UnitDisplacement(Point(-x, -y));
    UnitDisplacement(Point(x, y));
    ReachedCorner(r, UNIT, x, y, Point(r.left, r.top), Point(-x, -y), s);
    ReachedCorner(r, UNIT, x, y, Point(r.right, r.bottom), Point(x, y), s);
  }

  lemma LocallyShrunkIsLeast(r: Rect, x: real, y: real, s: Rect)
    requires x >= 0.0 && y >= 0.0 && Sorted(Outset(r, -x, -y)) && LiesIn(Shrunk(Whole(r), UNIT, x, y), s)
    ensures Covers(s, Outset(r, -x, -y))
  {
    var o := Outset(r, -x, -y);
    UnitRadius(x, y);
    CornerStays(r, UNIT, x, y, Point(o.left, o.top), Point(x, y), s);
    CornerStays(r, UNIT, x, y, Point(o.right, o.bottom), Point(x, y), s);
  }

  predicate SingleLocal(f: Filter, r: Rect) {
    match f
    case Erode(rx, ry) => Sorted(Outset(r, -rx, -ry))
    case Compose(_, _) => false
    case LocalMatrix(_, filter) => filter.Some? && SingleLocal(filter.value, r)
    case _ => true
  }

  /** In local space the bounds of a single filter are the smallest of all. */
  lemma {:induction false} LocalBoundsAreLeast(f: Filter, r: Rect, out: Rect, s: Rect)
    requires Radii(f) && Sorted(r) && SingleLocal(f, r) && MapLocalBounds(f, r, out).ok
    requires LiesIn(LocalOutput(f, Whole(r)), s)
    ensures Covers(s, MapLocalBounds(f, r, out).bounds)
    decreases f
  {
    match f
    case Blur(sx, sy) => LocallyGrownIsLeast(r, sx * 3.0, sy * 3.0, s);
    case Dilate(rx, ry) => LocallyGrownIsLeast(r, rx, ry, s);
    case Erode(rx, ry) => LocallyShrunkIsLeast(r, rx, ry, s);
    case MatrixTransform(m) => LocallyMovedIsLeast(r, m, s);
    case ColorFilter(_) => assert Whole(r)(Point(r.left, r.top)) && Whole(r)(Point(r.right, r.bottom));
    case LocalMatrix(_, filter) => LocalBoundsAreLeast(filter.value, r, out, s);
  }
}
