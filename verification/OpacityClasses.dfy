// What the builder's classification of operations means: an operation counts as compatible
// exactly if, whatever its colour and whatever Skia does, drawing it at an opacity is drawing
// it on its own and fading the result.
module OpacityClasses {
  import opened Basics
  import opened DisplayListOps
  import opened Outlines
  import opened RecordTree
  import opened Recorder
  import opened OpacityBits
  import opened Trace
  import opened Canvas
  import opened Dispatch
  import opened LayerElimination

  // ----- What it means to take an opacity -----

  predicate DrawFadesAt(d: Draw, a: Attrs, o: real, e: Env, image: Image, i: nat, sk: Skia)
    requires i < |image|
  {
    DrawPixel(LookOf(d), BrushFor(d, a, o), e, image, i, sk)
    == Over(Fade(o, DrawPixel(LookOf(d), BrushFor(d, a, 1.0), e, ClearImage(|image|), i, sk)), image[i])
  }

  ghost predicate DrawTakesOpacity(d: Draw, a: Attrs) {
    forall sk, color, o, e, image: Image, i: nat :: i < |image| ==> DrawFadesAt(d, a.(color := color), o, e, image, i, sk)
  }

  function LayerAt(layer: LayerInfo, a: Attrs, o: real, parent: Image): OpenLayer {
    OpenLayer(SafePaint(layer.withAttributes, a, o), layer.bounds, parent)
  }

  predicate LayerFadesAt(layer: LayerInfo, a: Attrs, o: real, e: Env, parent: Image, image: Image, i: nat, sk: Skia)
    requires i < |parent|
  {
    LayerPixel(LayerAt(layer, a, o, parent), e, image, i, sk)
    == Over(Fade(o, LayerPixel(LayerAt(layer, a, 1.0, ClearImage(|parent|)), e, image, i, sk)), parent[i])
  }

  ghost predicate LayerTakesOpacity(layer: LayerInfo, a: Attrs) {
    forall sk, color, o, e, parent: Image, image, i: nat :: i < |parent| ==>
      LayerFadesAt(layer, a.(color := color), o, e, parent, image, i, sk)
  }

  /** What the attributes do to the content of a layer is to fade it by an alpha. */
  predicate OnlyFadesAt(layer: LayerInfo, a: Attrs, e: Env, parent: Image, image: Image, i: nat, sk: Skia)
    requires i < |parent|
  {
    var open := LayerAt(layer, a, 1.0, parent).(bounds := None);
    Inside(e.clip, i, sk) ==> LayerPixel(open, e, image, i, sk) == Over(Fade(open.brush.alpha, At(image, i)), parent[i])
  }

  ghost predicate OnlyFades(layer: LayerInfo, a: Attrs) {
    forall sk, color, e, parent: Image, image, i: nat :: i < |parent| ==>
      OnlyFadesAt(layer, a.(color := color), e, parent, image, i, sk)
  }

  // ----- A Skia that gives away whatever does not -----

  const WHITE: Pixel := Pixel(1.0, 1.0)

  /** Everything comes out white, and what falls into pieces falls into two. */
  function Revealing(): Skia {
    Skia(Matrices((a, b) => a, degrees => IDENTITY), (entry, i) => true, (bounds, m, i) => true,
         (l, a, m) => 2, (l, k, a, m, i) => WHITE, (l, k, a, m, i) => 1.0,
         (filter, p) => WHITE, p => WHITE, (blend, s, d) => WHITE,
         (l, brush, m, d, i) => WHITE, (l, m, d, i) => WHITE,
         (filter, m, image, i) => WHITE, (filter, m, image, i) => WHITE)
  }

  predicate OneClear(image: Image) {
    |image| == 1 && image[0] == CLEAR
  }

  predicate OnlyLaysOver(a: Attrs, blend: Blend) {
    a.colorFilter == None && !a.invertColors && blend == ByMode(SrcOver)
  }

  lemma PaintedRevealed(a: Attrs, blend: Blend, c: Pixel, d: Pixel)
    ensures OnlyLaysOver(a, blend) ==> Painted(a, blend, c, d, Revealing()) == Over(c, d)
    ensures !OnlyLaysOver(a, blend) ==> Painted(a, blend, c, d, Revealing()) == WHITE
  {
    assert Over(WHITE, d) == WHITE;
  }

  lemma WholePartial(p: Pixel, d: Pixel)
    ensures Partial(1.0, p, d) == p
  {
  }

  lemma PieceRevealed(l: Look, k: nat, brush: Brush, m: M44, i: nat, d: Pixel)
    ensures Piece(l, k, brush, m, i, d, Revealing())
         == if OnlyLaysOver(brush.attrs, BlendUsed(l, brush.attrs)) then Over(Pixel(brush.alpha, brush.alpha), d) else WHITE
  {
    var c := Fade(brush.alpha, WHITE);
    PaintedRevealed(brush.attrs, BlendUsed(l, brush.attrs), c, d);
    WholePartial(Painted(brush.attrs, BlendUsed(l, brush.attrs), c, d, Revealing()), d);
  }

  lemma TwoPieces(l: Look, brush: Brush, m: M44, i: nat, d: Pixel, sk: Skia)
    ensures Pieces(l, 2, brush, m, i, d, sk) == Piece(l, 1, brush, m, i, Piece(l, 0, brush, m, i, d, sk), sk)
  {
    assert Pieces(l, 1, brush, m, i, d, sk) == Piece(l, 0, brush, m, i, Pieces(l, 0, brush, m, i, d, sk), sk);
  }

  function Revealed(brush: Brush, l: Look, d: Pixel): Pixel {
    if OnlyLaysOver(brush.attrs, BlendUsed(l, brush.attrs)) then Over(Pixel(brush.alpha, brush.alpha), d) else WHITE
  }

  lemma PiecesRevealed(l: Look, brush: Brush, m: M44, i: nat, d: Pixel)
    ensures Pieces(l, 2, brush, m, i, d, Revealing()) == Revealed(brush, l, Revealed(brush, l, d))
  {
    TwoPieces(l, brush, m, i, d, Revealing());
    PieceRevealed(l, 0, brush, m, i, d);
    PieceRevealed(l, 1, brush, m, i, Revealed(brush, l, d));
  }

  /** What the revealing Skia draws on nothing. */
  function Shown(l: Look, brush: Brush): Pixel {
    match WayOf(l, brush.attrs)
    case OnePiece => Revealed(brush, l, CLEAR)
    case InPieces => Revealed(brush, l, Revealed(brush, l, CLEAR))
    case OwnColors => WHITE
    case Unpainted => WHITE
  }

  lemma DrawRevealed(l: Look, brush: Brush, image: Image)
    requires OneClear(image)
    ensures DrawPixel(l, brush, START_ENV, image, 0, Revealing()) == Shown(l, brush)
  {
    match WayOf(l, brush.attrs)
    case OnePiece => PieceRevealed(l, 0, brush, IDENTITY, 0, CLEAR);
    case InPieces => PiecesRevealed(l, brush, IDENTITY, 0, CLEAR);
    case _ =>
  }

  // ----- Draws -----

  lemma ColorKeepsWeight(d: Draw, a: Attrs, color: Color)
    ensures DrawWeight(d, a.(color := color)) == DrawWeight(d, a)
  {
  }

  lemma SingleFadesAt(d: Draw, a: Attrs, o: real, e: Env, image: Image, i: nat, sk: Skia)
    requires DrawWeight(d, a) == SINGLE && !d.DrawDisplayList? && i < |image|
    ensures DrawFadesAt(d, a, o, e, image, i, sk)
  {
    CompatibleBrush(d, a, o);
    CompatibleBrush(d, a, 1.0);
    PixelFades(LookOf(d), BrushFor(d, a, 1.0), BrushFor(d, a, o), o, e, image, i, sk);
  }

  lemma SingleTakesOpacity(d: Draw, a: Attrs)
    requires DrawWeight(d, a) == SINGLE && !d.DrawDisplayList?
    ensures DrawTakesOpacity(d, a)
  {
    forall sk, color, o, e, image: Image, i: nat | i < |image|
      ensures DrawFadesAt(d, a.(color := color), o, e, image, i, sk)
    {
      ColorKeepsWeight(d, a, color);
      SingleFadesAt(d, a.(color := color), o, e, image, i, sk);
    }
  }

  /** Half of white on nothing, and half of it again, is more than half of white. */
  lemma HalfWhite(p: Pixel)
    requires p == WHITE || p == Pixel(0.75, 0.75)
    ensures p != Over(Fade(0.5, WHITE), CLEAR)
  {
  }

  lemma TwiceHalf(p: Pixel)
    requires p == Pixel(0.5, 0.5)
    ensures Over(p, Over(p, CLEAR)) == Pixel(0.75, 0.75)
  {
  }

  lemma BlackBrush(d: Draw, a: Attrs, o: real)
    requires DrawWeight(d, a) == TOO_MANY && !d.DrawDisplayList?
    ensures var brush, l := BrushFor(d, a.(color := BLACK), o), LookOf(d);
            && !SimplePaint(l, brush.attrs)
            && (WayOf(l, brush.attrs) == InPieces ==> brush.alpha == o)
  {
  }

  lemma RevealedAtFull(l: Look, brush: Brush, d: Pixel)
    requires brush.alpha == 1.0
    ensures Revealed(brush, l, d) == WHITE
  {
  }

  lemma ShownAtFull(l: Look, brush: Brush)
    requires !SimplePaint(l, brush.attrs) && (WayOf(l, brush.attrs) == InPieces ==> brush.alpha == 1.0)
    ensures Shown(l, brush) == WHITE
  {
    if WayOf(l, brush.attrs) == InPieces { RevealedAtFull(l, brush, Revealed(brush, l, CLEAR)); }
  }

  lemma ShownAtHalf(l: Look, brush: Brush)
    requires !SimplePaint(l, brush.attrs) && (WayOf(l, brush.attrs) == InPieces ==> brush.alpha == 0.5)
    ensures Shown(l, brush) == WHITE || Shown(l, brush) == Pixel(0.75, 0.75)
  {
    if WayOf(l, brush.attrs) == InPieces { TwiceHalf(Pixel(brush.alpha, brush.alpha)); }
  }

  lemma OtherDrawsDoNot(d: Draw, a: Attrs)
    requires DrawWeight(d, a) == TOO_MANY && !d.DrawDisplayList?
    ensures !DrawTakesOpacity(d, a)
  {
    var image, l, a' := [CLEAR], LookOf(d), a.(color := BLACK);
    BlackBrush(d, a, 1.0);
    BlackBrush(d, a, 0.5);
    ShownAtFull(l, BrushFor(d, a', 1.0));
    ShownAtHalf(l, BrushFor(d, a', 0.5));
    HalfWhite(Shown(l, BrushFor(d, a', 0.5)));
    DrawRevealed(l, BrushFor(d, a', 0.5), image);
    DrawRevealed(l, BrushFor(d, a', 1.0), image);
    NothingIsClear(image);
    assert !DrawFadesAt(d, a', 0.5, START_ENV, image, 0, Revealing());
  }

  lemma NothingIsClear(image: Image)
    requires OneClear(image)
    ensures ClearImage(|image|) == image
  {
  }

  /** The weight of an operation is exactly whether it takes an opacity. */
  lemma WhenDrawTakesOpacity(d: Draw, a: Attrs)
    requires !d.DrawDisplayList?
    ensures DrawTakesOpacity(d, a) <==> DrawWeight(d, a) == SINGLE
    ensures DrawWeight(d, a) == SINGLE || DrawWeight(d, a) == TOO_MANY
  {
    if DrawWeight(d, a) == SINGLE {
      SingleTakesOpacity(d, a);
    } else {
      OtherDrawsDoNot(d, a);
    }
  }

  predicate PlainPaint(a: Attrs) {
    a.colorFilter == None && !a.invertColors && a.blend == ByMode(SrcOver)
  }

  /** Which operations those are. */
  lemma DrawsThatTakeOpacity(d: Draw, a: Attrs)
    ensures d.DrawPaint? || d.DrawFigure? ==> (DrawTakesOpacity(d, a) <==> PlainPaint(a))
    ensures d.DrawColor? ==> (DrawTakesOpacity(d, a) <==> d.mode == SrcOver)
    ensures d.DrawPath? || (d.DrawArc? && d.useCenter) ==>
              (DrawTakesOpacity(d, a) <==> PlainPaint(a) && (a.style == Fill || a.width > 0.0))
    ensures d.DrawArc? && !d.useCenter ==> (DrawTakesOpacity(d, a) <==> PlainPaint(a))
    ensures (d.DrawImage? || d.DrawPicture?) && d.withAttributes ==> (DrawTakesOpacity(d, a) <==> PlainPaint(a))
    ensures (d.DrawImage? || d.DrawPicture?) && !d.withAttributes ==> DrawTakesOpacity(d, a)
    ensures d.DrawPoints? || d.DrawVertices? || d.DrawAtlas? || d.DrawShadow? ==> !DrawTakesOpacity(d, a)
  {
    if !d.DrawDisplayList? { WhenDrawTakesOpacity(d, a); }
  }

  // ----- Layers -----

  lemma LayerBrushes(layer: LayerInfo, a: Attrs, o: real)
    ensures var brush := SafePaint(layer.withAttributes, a, o);
            && brush.attrs == SafePaint(layer.withAttributes, a, 1.0).attrs
            && brush.alpha == SafePaint(layer.withAttributes, a, 1.0).alpha * o
            && (OnlyLaysOver(brush.attrs, brush.attrs.blend) <==> !layer.withAttributes || PlainPaint(a))
  {
  }

  lemma PlainLayerTakesOpacity(layer: LayerInfo, a: Attrs)
    requires LayerWeight(layer, a) == SINGLE
    ensures LayerTakesOpacity(layer, a)
  {
    forall sk, color, o, e, parent: Image, image, i: nat | i < |parent|
      ensures LayerFadesAt(layer, a.(color := color), o, e, parent, image, i, sk)
    {
      var a' := a.(color := color);
      LayerBrushes(layer, a', o);
      LayerPixelFades(SafePaint(layer.withAttributes, a', 1.0), SafePaint(layer.withAttributes, a', o), layer.bounds, o, e,
                      parent, image, i, sk);
    }
  }

  lemma LayerRevealed(open: OpenLayer, image: Image)
    requires OneClear(open.parent) && !OnlyLaysOver(open.brush.attrs, open.brush.attrs.blend)
    ensures LayerPixel(open, START_ENV, image, 0, Revealing()) == WHITE
  {
    var filter := open.brush.attrs.imageFilter;
    var s := if filter.Some? then WHITE else At(image, 0);
    PaintedRevealed(open.brush.attrs, open.brush.attrs.blend, Fade(open.brush.alpha, s), CLEAR);
  }

  lemma OtherLayersDoNot(layer: LayerInfo, a: Attrs, image: Image)
    requires LayerWeight(layer, a) != SINGLE && OneClear(image)
    ensures !LayerFadesAt(layer, a, 0.5, START_ENV, image, image, 0, Revealing())
  {
    LayerBrushes(layer, a, 0.5);
    LayerRevealed(LayerAt(layer, a, 0.5, image), image);
    LayerRevealed(LayerAt(layer, a, 1.0, image), image);
    NothingIsClear(image);
    HalfWhite(WHITE);
  }

  /** A layer counts as compatible exactly if compositing it takes an opacity. */
  lemma WhenLayerTakesOpacity(layer: LayerInfo, a: Attrs)
    ensures LayerTakesOpacity(layer, a) <==> LayerWeight(layer, a) == SINGLE
    ensures LayerTakesOpacity(layer, a) <==> !layer.withAttributes || PlainPaint(a)
  {
    if LayerWeight(layer, a) == SINGLE {
      PlainLayerTakesOpacity(layer, a);
    } else {
      var a' := a.(color := BLACK);
      OtherLayersDoNot(layer, a', [CLEAR]);
    }
  }

  lemma PlainLayerOnlyFades(layer: LayerInfo, a: Attrs)
    requires OwnWeight(layer, a) == NOTHING
    ensures OnlyFades(layer, a)
  {
  }

  lemma FilteredPixel(open: OpenLayer, image: Image)
    requires OneClear(open.parent) && open.bounds == None && open.brush.attrs.imageFilter.Some?
    ensures LayerPixel(open, START_ENV, image, 0, Revealing())
         == Painted(open.brush.attrs, open.brush.attrs.blend, Fade(open.brush.alpha, WHITE), CLEAR, Revealing())
  {
  }

  /** White, filtered or not, comes out white. */
  lemma WhiteFiltered(open: OpenLayer, image: Image, c: Pixel)
    requires OneClear(open.parent) && open.bounds == None && open.brush.attrs.imageFilter.Some?
    requires c == Fade(open.brush.alpha, WHITE) && c == WHITE
    ensures LayerPixel(open, START_ENV, image, 0, Revealing()) == WHITE
  {
    FilteredPixel(open, image);
    PaintedRevealed(open.brush.attrs, open.brush.attrs.blend, c, CLEAR);
    OverClear(c, c);
  }

  lemma BlackLayer(layer: LayerInfo, a: Attrs, image: Image)
    requires layer.withAttributes && a.color == BLACK
    ensures LayerAt(layer, a, 1.0, image).brush == Brush(a, 1.0)
  {
    assert AlphaOf(BLACK) == 1.0;
  }

  lemma FilterShows(layer: LayerInfo, a: Attrs, image: Image, open: OpenLayer)
    requires OwnWeight(layer, a) != NOTHING && a.color == BLACK && OneClear(image)
    requires open == LayerAt(layer, a, 1.0, image).(bounds := None)
    ensures LayerPixel(open, START_ENV, image, 0, Revealing()) == WHITE
  {
    BlackLayer(layer, a, image);
    if OnlyLaysOver(open.brush.attrs, open.brush.attrs.blend) {
      FadeTwice(1.0, 1.0, WHITE);
      WhiteFiltered(open, image, WHITE);
    } else {
      LayerRevealed(open, image);
    }
  }

  lemma RevealingInside(e: Env, i: nat)
    requires e == START_ENV
    ensures Inside(e.clip, i, Revealing())
  {
  }

  lemma FilterReveals(layer: LayerInfo, a: Attrs) returns (e: Env, sk: Skia, image: Image, open: OpenLayer)
    requires OwnWeight(layer, a) != NOTHING && a.color == BLACK
    ensures |image| == 1 && Inside(e.clip, 0, sk) && open == LayerAt(layer, a, 1.0, image).(bounds := None)
    ensures LayerPixel(open, e, image, 0, sk) != Over(Fade(open.brush.alpha, At(image, 0)), image[0])
  {
    e, sk, image := START_ENV, Revealing(), [CLEAR];
    open := LayerAt(layer, a, 1.0, image).(bounds := None);
    RevealingInside(e, 0);
    FilterShows(layer, a, image, open);
    ClearStaysClear(open.brush.alpha, At(image, 0), image[0]);
  }

  lemma ClearStaysClear(o: real, p: Pixel, d: Pixel)
    requires p == CLEAR && d == CLEAR
    ensures Over(Fade(o, p), d) != WHITE
  {
    NothingShows(o, d);
  }

  lemma NoFade(layer: LayerInfo, a: Attrs, e: Env, image: Image, sk: Skia, open: OpenLayer)
    requires |image| == 1 && Inside(e.clip, 0, sk) && open == LayerAt(layer, a, 1.0, image).(bounds := None)
    requires LayerPixel(open, e, image, 0, sk) != Over(Fade(open.brush.alpha, At(image, 0)), image[0])
    ensures !OnlyFadesAt(layer, a, e, image, image, 0, sk)
  {
  }

  lemma OtherLayersDoMore(layer: LayerInfo, a: Attrs)
    requires OwnWeight(layer, a) != NOTHING
    ensures !OnlyFades(layer, a)
  {
    var e, sk, image, open := FilterReveals(layer, a.(color := BLACK));
    NoFade(layer, a.(color := BLACK), e, image, sk, open);
  }

  /** A layer is incompatible from the start exactly if its attributes do more than fade its
      content. */
  lemma WhenLayerOnlyFades(layer: LayerInfo, a: Attrs)
    ensures OnlyFades(layer, a) <==> OwnWeight(layer, a) == NOTHING
    ensures OnlyFades(layer, a) <==> !layer.withAttributes || (PlainPaint(a) && a.imageFilter == None)
  {
    if OwnWeight(layer, a) == NOTHING {
      PlainLayerOnlyFades(layer, a);
    } else {
      OtherLayersDoMore(layer, a);
    }
    WhenNothing(layer, a);
  }

  lemma WhenNothing(layer: LayerInfo, a: Attrs)
    ensures OwnWeight(layer, a) == NOTHING <==> !layer.withAttributes || (PlainPaint(a) && a.imageFilter == None)
  {
  }

  // ----- What a layer or a list holds -----

  /** One operation or layer, with the attributes it is drawn under. */
  datatype Item = Drawing(draw: Draw, attrs: Attrs) | Layering(layer: LayerInfo, attrs: Attrs)

  /** The operations and layers of a group, through plain saves but not through layers. */
  function Items(ns: seq<Node>, a: Attrs): seq<Item> {
    if ns == [] then [] else
    var init := ns[..|ns| - 1];
    Items(init, a) + NodeItems(ns[|ns| - 1], After(Flat(init), a))
  }

  function NodeItems(n: Node, a: Attrs): seq<Item> {
    match n
    case Leaf(op) => if op.Paint? then [Drawing(op.draw, a)] else []
    case SaveGroup(body) => Items(body, a)
    case LayerGroup(layer, _, _) => [Layering(layer, a)]
  }

  ghost predicate ItemTakesOpacity(item: Item) {
    match item
    case Drawing(DrawDisplayList(list), _) => list.canApplyGroupOpacity
    case Drawing(d, a) => DrawTakesOpacity(d, a)
    case Layering(layer, a) => LayerTakesOpacity(layer, a)
  }

  function ItemWeight(item: Item): Weight {
    match item
    case Drawing(d, a) => DrawWeight(d, a)
    case Layering(layer, a) => LayerWeight(layer, a)
  }

  lemma WhenItemTakesOpacity(item: Item)
    ensures ItemTakesOpacity(item) <==> ItemWeight(item) == SINGLE
    ensures ItemWeight(item) == SINGLE || ItemWeight(item) == TOO_MANY
  {
    match item
    case Drawing(d, a) => if !d.DrawDisplayList? { WhenDrawTakesOpacity(d, a); }
    case Layering(layer, a) => WhenLayerTakesOpacity(layer, a);
  }

  /** There is at most one item, and it takes an opacity. */
  ghost predicate AtMostOneFading(items: seq<Item>) {
    |items| <= 1 && forall item :: item in items ==> ItemTakesOpacity(item)
  }

  function Total(items: seq<Item>): Weight {
    if items == [] then NOTHING else Join(Total(Init(items)), ItemWeight(Last(items)))
  }

  lemma {:induction false} TotalConcat(s: seq<Item>, t: seq<Item>)
    ensures Total(s + t) == Join(Total(s), Total(t))
  {
    if t == [] {
      assert s + t == s;
    } else {
      TotalConcat(s, Init(t));
      assert Init(s + t) == s + Init(t);
    }
  }

  lemma {:induction false} CountIsTotal(ns: seq<Node>, a: Attrs)
    ensures Count(ns, a) == Total(Items(ns, a))
    decreases ns, 1
  {
    if ns == [] {
    } else {
      var init := ns[..|ns| - 1];
      CountIsTotal(init, a);
      NodeIsTotal(ns[|ns| - 1], After(Flat(init), a));
      TotalConcat(Items(init, a), NodeItems(ns[|ns| - 1], After(Flat(init), a)));
    }
  }

  lemma {:induction false} NodeIsTotal(n: Node, a: Attrs)
    ensures NodeWeight(n, a) == Total(NodeItems(n, a))
    decreases n, 0
  {
    match n
    case Leaf(op) => if op.Paint? { assert Init([Drawing(op.draw, a)]) == []; }
    case SaveGroup(body) => CountIsTotal(body, a);
    case LayerGroup(layer, _, _) => assert Init([Layering(layer, a)]) == [];
  }

  lemma AtMostOneSnoc(init: seq<Item>, last: Item)
    ensures AtMostOneFading(init + [last]) <==> init == [] && ItemTakesOpacity(last)
  {
    assert last in init + [last];
    if init == [] && ItemTakesOpacity(last) {
      assert init + [last] == [last];
    }
  }

  lemma {:induction false} WhenTotalFades(items: seq<Item>)
    ensures Total(items) == NOTHING <==> items == []
    ensures Total(items) != TOO_MANY <==> AtMostOneFading(items)
  {
    if items == [] {
    } else {
      var init, last := Init(items), Last(items);
      WhenTotalFades(init);
      WhenItemTakesOpacity(last);
      AtMostOneSnoc(init, last);
      assert items == init + [last];
    }
  }

  lemma WhenContentFades(ns: seq<Node>, a: Attrs)
    ensures Count(ns, a) != TOO_MANY <==> AtMostOneFading(Items(ns, a))
  {
    CountIsTotal(ns, a);
    WhenTotalFades(Items(ns, a));
  }

  /** A built list says that it can apply group opacity exactly if it holds at most one
      operation or layer, through plain saves, and that one takes an opacity. */
  lemma WhenListTakesOpacity(calls: seq<Op>, layout: Layout)
    ensures Build(calls, layout).canApplyGroupOpacity <==> AtMostOneFading(Items(BuiltForest(calls, layout), DEFAULTS))
  {
    BuildIsExact(calls, layout);
    WhenContentFades(BuiltForest(calls, layout), DEFAULTS);
  }

  /** A saveLayer record, at whatever depth, carries the bit exactly if the attributes of the
      layer do no more than fade it and the layer holds at most one operation or layer, which
      takes an opacity. */
  lemma WhenLayerIsDistributable(layer: LayerInfo, bit: bool, body: seq<Node>, a: Attrs)
    requires NodeBitExact(LayerGroup(layer, bit, body), a)
    ensures bit <==> OnlyFades(layer, a) && AtMostOneFading(Items(body, a))
  {
    WhenLayerOnlyFades(layer, a);
    WhenContentFades(body, a);
  }

  /** Points, vertices, an atlas or a shadow anywhere in the content forbid an opacity. */
  lemma PiecesForbidOpacity(items: seq<Item>, item: Item)
    requires item in items && item.Drawing?
    requires item.draw.DrawPoints? || item.draw.DrawVertices? || item.draw.DrawAtlas? || item.draw.DrawShadow?
    ensures !AtMostOneFading(items)
  {
    DrawsThatTakeOpacity(item.draw, item.attrs);
  }

  lemma SinglePaint(d: Draw, calls: seq<Op>, layout: Layout)
    requires calls == [Paint(d)] && ReduceDraw(d) == d
    ensures BuiltForest(calls, layout) == [Leaf(Paint(d))]
  {
    Record1(Paint(d), START, layout);
    var ls := Record(calls, START, layout).levels;
    assert ls.top.nodes == [] + [Leaf(Paint(d))] == [Leaf(Paint(d))];
    assert Depth(ls) == 1;
    assert Closed(calls, layout) == calls + Restores(0) == calls;
  }

  /** A single drawPoints on a fresh builder makes a list that cannot apply group opacity. */
  lemma PointsCannotFade(id: nat, calls: seq<Op>, layout: Layout)
    requires calls == [Paint(DrawPoints(id))]
    ensures !Build(calls, layout).canApplyGroupOpacity
  {
    SinglePaint(DrawPoints(id), calls, layout);
    WhenListTakesOpacity(calls, layout);
    var ns := BuiltForest(calls, layout);
    assert ns[..0] == [];
    PiecesForbidOpacity(Items(ns, DEFAULTS), Drawing(DrawPoints(id), DEFAULTS));
  }

  // ----- The alpha of the colour -----

  lemma ColoredBrush(d: Draw, a: Attrs, c: Color, o: real)
    requires d.DrawPaint? || d.DrawFigure?
    ensures BrushFor(d, a.(color := c), o) == Brush(a.(color := Color(255, c.rgb)), c.alpha as real / 255.0 * o)
    ensures PlainPaint(a) ==> SimplePaint(LookOf(d), a.(color := Color(255, c.rgb)))
  {
  }

  /** An operation that is drawn with the current paint comes out at the alpha of its colour,
      in 255ths, times the opacity. */
  lemma ColorAlphaIsApplied(d: Draw, a: Attrs, c: Color, o: real, e: Env, image: Image, i: nat, sk: Skia)
    requires d.DrawPaint? || d.DrawFigure?
    requires PlainPaint(a) && Inside(e.clip, i, sk)
    ensures DrawPixel(LookOf(d), BrushFor(d, a.(color := c), o), e, image, i, sk)
         == Over(Fade(c.alpha as real / 255.0 * o, SourcePixel(LookOf(d), a.(color := Color(255, c.rgb)), e.matrix, i, sk)),
                 At(image, i))
  {
    var brush := BrushFor(d, a.(color := c), o);
    ColoredBrush(d, a, c, o);
    SimplyPainted(LookOf(d), brush, e, image, i, sk);
  }

  lemma ColorBrush(c: Color, a: Attrs, o: real)
    ensures BrushFor(DrawColor(c, SrcOver), a, o) == Brush(DEFAULTS, c.alpha as real / 255.0 * o)
    ensures SimplePaint(LookOf(DrawColor(c, SrcOver)), DEFAULTS)
  {
  }

  /** So does drawColor, with its own colour. */
  lemma DrawnColorAlphaIsApplied(c: Color, a: Attrs, o: real, e: Env, image: Image, i: nat, sk: Skia)
    requires Inside(e.clip, i, sk)
    ensures var d := DrawColor(c, SrcOver);
            DrawPixel(LookOf(d), BrushFor(d, a, o), e, image, i, sk)
            == Over(Fade(c.alpha as real / 255.0 * o, SourcePixel(LookOf(d), DEFAULTS, e.matrix, i, sk)), At(image, i))
  {
    var d := DrawColor(c, SrcOver);
    ColorBrush(c, a, o);
    SimplyPainted(LookOf(d), BrushFor(d, a, o), e, image, i, sk);
  }

  function InnerMachine(layerColor: Color, c: Color, m: Machine, sk: Skia): Machine {
    var colored := DoOp(Set(PaintColor(layerColor)), m, sk, true);
    DoOp(Set(PaintColor(c)), DoOp(LayerOp(LayerInfo(None, true, None), true), colored, sk, true), sk, true)
  }

  lemma PaintInLayer(layerColor: Color, c: Color, m: Machine, sk: Skia)
    ensures var inner := InnerMachine(layerColor, c, m, sk);
            && inner.canvas.image == m.canvas.image && inner.canvas.env == m.canvas.env
            && inner.attrs == m.attrs.(color := c)
            && inner.opacity == layerColor.alpha as real / 255.0 * m.opacity
            && DoOp(Restore, DoOp(Paint(DrawPaint), inner, sk, true), sk, true).canvas.image
               == DoOp(Paint(DrawPaint), inner, sk, true).canvas.image
  {
  }

  lemma PaintedImage(m: Machine, i: nat, sk: Skia)
    requires i < |m.canvas.image|
    ensures var image := DoOp(Paint(DrawPaint), m, sk, true).canvas.image;
            |image| == |m.canvas.image| &&
            image[i] == DrawPixel(LookOf(DrawPaint), BrushFor(DrawPaint, m.attrs, m.opacity), m.canvas.env, m.canvas.image, i, sk)
  {
  }

  lemma PixelInLayer(c: Color, inner: Machine, m: Machine, o: real, i: nat, sk: Skia)
    requires PlainPaint(m.attrs) && i < |m.canvas.image| && Inside(m.canvas.env.clip, i, sk)
    requires inner.canvas.image == m.canvas.image && inner.canvas.env == m.canvas.env
    requires inner.attrs == m.attrs.(color := c) && inner.opacity == o
    ensures var image := DoOp(Paint(DrawPaint), inner, sk, true).canvas.image;
            |image| == |m.canvas.image| &&
            image[i] == Over(Fade(c.alpha as real / 255.0 * o,
                                  SourcePixel(LookOf(DrawPaint), m.attrs.(color := Color(255, c.rgb)), m.canvas.env.matrix, i, sk)),
                             m.canvas.image[i])
  {
    PaintedImage(inner, i, sk);
    ColorAlphaIsApplied(DrawPaint, m.attrs, c, o, m.canvas.env, m.canvas.image, i, sk);
  }

  /** A paint of one colour in an eliminated layer of another comes out at the product of both
      alphas, in 255ths, and the opacity. */
  lemma LayerAlphaIsApplied(layerColor: Color, c: Color, ops: seq<Op>, m: Machine, o: real, i: nat, sk: Skia)
    requires PlainPaint(m.attrs) && i < |m.canvas.image| && Inside(m.canvas.env.clip, i, sk)
    requires ops == [Set(PaintColor(layerColor)), LayerOp(LayerInfo(None, true, None), true), Set(PaintColor(c)),
                     Paint(DrawPaint), Restore]
    requires o == layerColor.alpha as real / 255.0 * m.opacity
    ensures var end := Run(ops, m, sk, true).canvas.image;
            |end| == |m.canvas.image| &&
            end[i] == Over(Fade(c.alpha as real / 255.0 * o,
                                SourcePixel(LookOf(DrawPaint), m.attrs.(color := Color(255, c.rgb)), m.canvas.env.matrix, i, sk)),
                           m.canvas.image[i])
  {
    var inner := InnerMachine(layerColor, c, m, sk);
    PaintInLayer(layerColor, c, m, sk);
    PixelInLayer(c, inner, m, o, i, sk);
    Run5(ops, m, sk);
  }

  lemma Run5(ops: seq<Op>, m: Machine, sk: Skia)
    requires |ops| == 5
    ensures Run(ops, m, sk, true)
         == DoOp(ops[4], DoOp(ops[3], DoOp(ops[2], DoOp(ops[1], DoOp(ops[0], m, sk, true), sk, true), sk, true), sk, true), sk, true)
  {
    assert ops[..4][..3] == ops[..3] && ops[..3][..2] == ops[..2] && ops[..2][..1] == ops[..1] && ops[..1][..0] == [];
    assert Run(ops[..1], m, sk, true) == DoOp(ops[0], m, sk, true);
    assert Run(ops[..2], m, sk, true) == DoOp(ops[1], Run(ops[..1], m, sk, true), sk, true);
    assert Run(ops[..3], m, sk, true) == DoOp(ops[2], Run(ops[..2], m, sk, true), sk, true);
    assert Run(ops[..4], m, sk, true) == DoOp(ops[3], Run(ops[..3], m, sk, true), sk, true);
  }
}
