// Group opacity and layer elimination preserve pixels: a distributable layer may be
// dispatched as a plain save whose children inherit the combined opacity.
module LayerElimination {
  import opened Basics
  import opened DisplayListOps
  import opened Outlines
  import opened RecordTree
  import opened OpacityBits
  import opened Trace
  import opened Canvas
  import opened Dispatch
  import opened Rendering

  // ----- Pixel algebra -----

  lemma OverClear(s: Pixel, d: Pixel)
    ensures Over(s, CLEAR) == s
    ensures Over(CLEAR, d) == d
  {
  }

  lemma FadeTwice(o: real, p: real, s: Pixel)
    ensures Fade(o, Fade(p, s)) == Fade(p * o, s)
    ensures Fade(o, CLEAR) == CLEAR
    ensures Fade(1.0, s) == s
  {
  }

  /** Nothing, at any opacity, leaves the background. */
  lemma NothingShows(o: real, d: Pixel)
    ensures Over(Fade(o, CLEAR), d) == d
  {
    FadeTwice(o, o, CLEAR);
    OverClear(CLEAR, d);
  }

  /** A source drawn into a transparent layer that is composited at an opacity. */
  lemma ThroughLayer(o: real, p: real, q: real, s: Pixel, d: Pixel)
    requires q == p * o
    ensures Over(Fade(o, Over(Fade(p, s), CLEAR)), d) == Over(Fade(q, s), d)
  {
    OverClear(Fade(p, s), d);
    FadeTwice(o, p, s);
  }

  lemma FadeOverClear(o: real, d: Image)
    ensures FadeOver(o, ClearImage(|d|), d) == d
  {
    var f := FadeOver(o, ClearImage(|d|), d);
    forall i | 0 <= i < |d| ensures f[i] == d[i] {
      NothingShows(o, d[i]);
    }
  }

  lemma FadeOverTwice(o: real, p: real, q: real, s: Image, d: Image)
    requires q == p * o
    ensures FadeOver(o, FadeOver(p, s, ClearImage(|d|)), d) == FadeOver(q, s, d)
  {
    var f, g := FadeOver(o, FadeOver(p, s, ClearImage(|d|)), d), FadeOver(q, s, d);
    forall i | 0 <= i < |d| ensures f[i] == g[i] {
      ThroughLayer(o, p, q, At(s, i), d[i]);
    }
  }

  // ----- A compatible operation takes an inherited opacity -----

  lemma PartialTerm(k: real, s: real, a: real, d: real)
    ensures k * (s + (1.0 - a) * d) + (1.0 - k) * d == k * s + (1.0 - k * a) * d
  {
  }

  lemma PartialColor(k: real, s: Pixel, d: Pixel)
    ensures Partial(k, Over(s, d), d).c == Over(Fade(k, s), d).c
  {
    PartialTerm(k, s.c, s.a, d.c);
  }

  lemma PartialAlpha(k: real, s: Pixel, d: Pixel)
    ensures Partial(k, Over(s, d), d).a == Over(Fade(k, s), d).a
  {
    PartialTerm(k, s.a, s.a, d.a);
  }

  /** Covering part of a pixel is covering all of it with less. */
  lemma PartialOver(k: real, s: Pixel, d: Pixel)
    ensures Partial(k, Over(s, d), d) == Over(Fade(k, s), d)
  {
    PartialColor(k, s, d);
    PartialAlpha(k, s, d);
  }

  lemma FadesCommute(k: real, o: real, s: Pixel)
    ensures Fade(k, Fade(o, s)) == Fade(o, Fade(k, s))
  {
    FadeTwice(k, o, s);
    FadeTwice(o, k, s);
  }

  /** The paint does nothing to the colour but lay it over what is there. */
  predicate SimplePaint(l: Look, a: Attrs) {
    WayOf(l, a) == OnePiece && BlendUsed(l, a) == ByMode(SrcOver) && a.colorFilter == None && !a.invertColors
  }

  /** What a simply painted operation puts on a pixel with an opaque paint. */
  function SourcePixel(l: Look, a: Attrs, m: M44, i: nat, sk: Skia): Pixel {
    Fade(sk.coverage(l, 0, a, m, i), sk.shade(l, 0, a, m, i))
  }

  lemma SimplyPainted(l: Look, brush: Brush, e: Env, image: Image, i: nat, sk: Skia)
    requires SimplePaint(l, brush.attrs) && Inside(e.clip, i, sk)
    ensures DrawPixel(l, brush, e, image, i, sk)
         == Over(Fade(brush.alpha, SourcePixel(l, brush.attrs, e.matrix, i, sk)), At(image, i))
  {
    var k, s := sk.coverage(l, 0, brush.attrs, e.matrix, i), sk.shade(l, 0, brush.attrs, e.matrix, i);
    PartialOver(k, Fade(brush.alpha, s), At(image, i));
    FadesCommute(k, brush.alpha, s);
  }

  lemma CompatibleBrush(d: Draw, a: Attrs, o: real)
    requires DrawWeight(d, a) == SINGLE && !d.DrawDisplayList?
    ensures BrushFor(d, a, o) == BrushFor(d, a, 1.0).(alpha := BrushFor(d, a, 1.0).alpha * o)
    ensures SimplePaint(LookOf(d), BrushFor(d, a, o).attrs)
  {
  }

  lemma DrawFades(d: Draw, a: Attrs, o: real, e: Env, image: Image, sk: Skia)
    requires DrawWeight(d, a) == SINGLE && !d.DrawDisplayList?
    ensures DrawOn(LookOf(d), BrushFor(d, a, o), e, image, sk)
         == FadeOver(o, DrawOn(LookOf(d), BrushFor(d, a, 1.0), e, ClearImage(|image|), sk), image)
  {
    CompatibleBrush(d, a, o);
    CompatibleBrush(d, a, 1.0);
    BrushDrawFades(LookOf(d), BrushFor(d, a, 1.0), BrushFor(d, a, o), o, e, image, sk);
  }

  lemma BrushDrawFades(l: Look, brush: Brush, brush': Brush, o: real, e: Env, image: Image, sk: Skia)
    requires SimplePaint(l, brush.attrs)
    requires brush'.attrs == brush.attrs && brush'.alpha == brush.alpha * o
    ensures DrawOn(l, brush', e, image, sk) == FadeOver(o, DrawOn(l, brush, e, ClearImage(|image|), sk), image)
  {
    var faded := DrawOn(l, brush', e, image, sk);
    var alone := DrawOn(l, brush, e, ClearImage(|image|), sk);
    forall i | 0 <= i < |image| ensures faded[i] == FadeOver(o, alone, image)[i] {
      PixelFades(l, brush, brush', o, e, image, i, sk);
    }
  }

  lemma PixelFades(l: Look, brush: Brush, brush': Brush, o: real, e: Env, image: Image, i: nat, sk: Skia)
    requires SimplePaint(l, brush.attrs) && i < |image|
    requires brush'.attrs == brush.attrs && brush'.alpha == brush.alpha * o
    ensures DrawPixel(l, brush', e, image, i, sk)
         == Over(Fade(o, DrawPixel(l, brush, e, ClearImage(|image|), i, sk)), image[i])
  {
    if Inside(e.clip, i, sk) {
      SimplyPainted(l, brush', e, image, i, sk);
      SimplyPainted(l, brush, e, ClearImage(|image|), i, sk);
      ThroughLayer(o, brush.alpha, brush'.alpha, SourcePixel(l, brush.attrs, e.matrix, i, sk), image[i]);
    } else {
      NothingShows(o, image[i]);
    }
  }

  lemma CompositeFades(layer: LayerInfo, a: Attrs, o: real, e: Env, parent: Image, image: Image, sk: Skia)
    requires LayerWeight(layer, a) == SINGLE
    ensures Composite(OpenLayer(SafePaint(layer.withAttributes, a, o), layer.bounds, parent), e, image, sk)
         == FadeOver(o, Composite(OpenLayer(SafePaint(layer.withAttributes, a, 1.0), layer.bounds, ClearImage(|parent|)), e, image, sk), parent)
  {
    var brush, brush' := SafePaint(layer.withAttributes, a, 1.0), SafePaint(layer.withAttributes, a, o);
    var faded := Composite(OpenLayer(brush', layer.bounds, parent), e, image, sk);
    var alone := Composite(OpenLayer(brush, layer.bounds, ClearImage(|parent|)), e, image, sk);
    forall i | 0 <= i < |parent| ensures faded[i] == FadeOver(o, alone, parent)[i] {
      LayerPixelFades(brush, brush', layer.bounds, o, e, parent, image, i, sk);
    }
  }

  lemma LayerPixelFades(brush: Brush, brush': Brush, bounds: Option<Rect>, o: real, e: Env, parent: Image, image: Image,
                        i: nat, sk: Skia)
    requires Compatible(brush.attrs) && i < |parent|
    requires brush'.attrs == brush.attrs && brush'.alpha == brush.alpha * o
    ensures LayerPixel(OpenLayer(brush', bounds, parent), e, image, i, sk)
         == Over(Fade(o, LayerPixel(OpenLayer(brush, bounds, ClearImage(|parent|)), e, image, i, sk)), parent[i])
  {
    if !Inside(e.clip, i, sk) || (bounds.Some? && !sk.inBounds(bounds.value, e.matrix, i)) {
      NothingShows(o, parent[i]);
    } else {
      var filter := brush.attrs.imageFilter;
      var s := if filter.Some? then sk.filtered(filter.value, e.matrix, image, i) else At(image, i);
      ThroughLayer(o, brush.alpha, brush'.alpha, s, parent[i]);
    }
  }

  /** A distributable layer is composited like its content faded by its own alpha. */
  lemma CompositeIsFade(layer: LayerInfo, a: Attrs, e: Env, parent: Image, image: Image, sk: Skia)
    requires OwnWeight(layer, a) == NOTHING && layer.bounds == None
    requires SameOutside(e.clip, ClearImage(|parent|), image, sk)
    ensures var brush := SafePaint(layer.withAttributes, a, 1.0);
            Composite(OpenLayer(brush, layer.bounds, parent), e, image, sk) == FadeOver(brush.alpha, image, parent)
  {
    var brush := SafePaint(layer.withAttributes, a, 1.0);
    forall i | 0 <= i < |parent|
      ensures LayerPixel(OpenLayer(brush, layer.bounds, parent), e, image, i, sk) == Over(Fade(brush.alpha, image[i]), parent[i])
    {
      if !Inside(e.clip, i, sk) {
        assert image[i] == ClearImage(|parent|)[i];
        NothingShows(brush.alpha, parent[i]);
      }
    }
  }

  // ----- Content without weight draws nothing -----

  lemma {:induction false} NothingDrawn(ns: seq<Node>, m: Machine, sk: Skia, eliminate: bool)
    requires WellFormed(ns) && Count(ns, m.attrs) == NOTHING
    ensures Run(Flat(ns), m, sk, eliminate).canvas.image == m.canvas.image
    ensures Run(Flat(ns), m, sk, eliminate).attrs == After(Flat(ns), m.attrs)
    ensures Run(Flat(ns), m, sk, eliminate).canvas.stack == m.canvas.stack
    decreases ns, 1
  {
    if ns == [] {
    } else {
      var init, last := Init(ns), Last(ns);
      NothingDrawn(init, m, sk, eliminate);
      RunConcat(Flat(init), FlatNode(last), m, sk, eliminate);
      AfterConcat(Flat(init), FlatNode(last), m.attrs);
      NothingDrawnByNode(last, Run(Flat(init), m, sk, eliminate), sk, eliminate);
    }
  }

  lemma {:induction false} NothingDrawnByNode(n: Node, m: Machine, sk: Skia, eliminate: bool)
    requires WellFormedNode(n) && NodeWeight(n, m.attrs) == NOTHING
    ensures Run(FlatNode(n), m, sk, eliminate).canvas.image == m.canvas.image
    ensures Run(FlatNode(n), m, sk, eliminate).attrs == After(FlatNode(n), m.attrs)
    ensures Run(FlatNode(n), m, sk, eliminate).canvas.stack == m.canvas.stack
    decreases n, 0
  {
    match n
    case Leaf(op) =>
      Run1(op, m, sk, eliminate);
      AfterLeaf(op, m.attrs);
    case SaveGroup(body) =>
      RunGroup(Save, Flat(body), m, sk, eliminate);
      AfterGroup(Save, body, m.attrs);
      NothingDrawn(body, DoOp(Save, m, sk, eliminate), sk, eliminate);
  }

  // ----- The stacks below do not matter -----

  predicate SameScene(m: Machine, n: Machine) {
    m.attrs == n.attrs && m.opacity == n.opacity && m.canvas.env == n.canvas.env && m.canvas.image == n.canvas.image
  }

  lemma {:induction false} ForestFrame(ns: seq<Node>, m: Machine, n: Machine, ctx: Context, depth: nat,
                                       sk: Skia, eliminate: bool)
    requires WellFormed(ns) && Sound(ns, ctx, depth) && SameScene(m, n)
    ensures SameScene(Run(Flat(ns), m, sk, eliminate), Run(Flat(ns), n, sk, eliminate))
    decreases depth, 0, ns, 1
  {
    ForestSettles(ns, m, ctx, depth, sk, eliminate);
    ForestSettles(ns, n, ctx, depth, sk, eliminate);
    if ns == [] {
    } else {
      var init, last := ns[..|ns| - 1], ns[|ns| - 1];
      ForestFrame(init, m, n, ctx, depth, sk, eliminate);
      RunConcat(Flat(init), FlatNode(last), m, sk, eliminate);
      RunConcat(Flat(init), FlatNode(last), n, sk, eliminate);
      NodeFrame(last, Run(Flat(init), m, sk, eliminate), Run(Flat(init), n, sk, eliminate), ctx, depth, sk, eliminate);
    }
  }

  lemma {:induction false} NodeFrame(node: Node, m: Machine, n: Machine, ctx: Context, depth: nat,
                                     sk: Skia, eliminate: bool)
    requires WellFormedNode(node) && SoundNode(node, ctx, depth) && SameScene(m, n)
    ensures Run(FlatNode(node), m, sk, eliminate).canvas.image == Run(FlatNode(node), n, sk, eliminate).canvas.image
    decreases depth, 0, node, 0
  {
    match node
    case Leaf(op) =>
      Run1(op, m, sk, eliminate);
      Run1(op, n, sk, eliminate);
      if op.Paint? && op.draw.DrawDisplayList? {
        ListFrame(op.draw.list, m, n, ctx, depth - 1, sk, eliminate);
      }
    case SaveGroup(body) => GroupFrame(Save, body, m, n, ctx, depth, sk, eliminate);
    case LayerGroup(layer, bit, body) =>
      GroupFrame(LayerOp(layer, bit), body, m, n, Within(ctx, layer, bit), depth, sk, eliminate);
  }

  /** A group gives the same image, because its frame is the same. */
  lemma {:induction false} GroupFrame(open: Op, body: seq<Node>, m: Machine, n: Machine, ctx: Context, depth: nat,
                                      sk: Skia, eliminate: bool)
    requires (open.Save? || open.SaveLayer?) && WellFormed(body) && Sound(body, ctx, depth) && SameScene(m, n)
    ensures Run([open] + Flat(body) + [Restore], m, sk, eliminate).canvas.image
         == Run([open] + Flat(body) + [Restore], n, sk, eliminate).canvas.image
    decreases depth, 0, body, 2
  {
    var m1, n1 := DoOp(open, m, sk, eliminate), DoOp(open, n, sk, eliminate);
    RunGroup(open, Flat(body), m, sk, eliminate);
    RunGroup(open, Flat(body), n, sk, eliminate);
    ForestSettles(body, m1, ctx, depth, sk, eliminate);
    ForestSettles(body, n1, ctx, depth, sk, eliminate);
    ForestFrame(body, m1, n1, ctx, depth, sk, eliminate);
  }

  lemma {:induction false} ListFrame(list: DisplayList, m: Machine, n: Machine, ctx: Context, depth: nat,
                                     sk: Skia, eliminate: bool)
    requires SoundList(list, ctx, depth) && SameScene(m, n)
    ensures DoOp(Paint(DrawDisplayList(list)), m, sk, eliminate).canvas.image
         == DoOp(Paint(DrawDisplayList(list)), n, sk, eliminate).canvas.image
    decreases depth, 1
  {
    var ns :| IsBuilt(list, ns) && Sound(ns, ctx, depth);
    ListSettles(list, CanvasSave(m.canvas), m.opacity, ctx, depth, sk, eliminate);
    ListSettles(list, CanvasSave(n.canvas), n.opacity, ctx, depth, sk, eliminate);
    ListIsPaint(list, m, ctx, depth, sk, eliminate);
    ListIsPaint(list, n, ctx, depth, sk, eliminate);
    ForestFrame(ns, Fresh(CanvasSave(m.canvas), m.opacity), Fresh(CanvasSave(n.canvas), n.opacity), ctx, depth, sk, eliminate);
  }

  // ----- Group opacity -----

  /** n starts at full opacity on a transparent image, otherwise as m. */
  predicate Alone(m: Machine, n: Machine) {
    && n.attrs == m.attrs && n.canvas.env == m.canvas.env
    && n.opacity == 1.0 && n.canvas.image == ClearImage(|m.canvas.image|)
  }

  /** What m ends up with is what n ends up with, composited at m's opacity. */
  predicate Fades(m: Machine, m': Machine, n': Machine) {
    m'.canvas.image == FadeOver(m.opacity, n'.canvas.image, m.canvas.image)
  }

  function InLayer(m: Machine): Machine {
    Machine(m.attrs, 1.0, Empty, Canvas(m.canvas.env, ClearImage(|m.canvas.image|), Empty))
  }

  lemma {:induction false} ForestFades(ns: seq<Node>, m: Machine, n: Machine, depth: nat, sk: Skia)
    requires WellFormed(ns) && Sound(ns, Inheriting, depth) && Alone(m, n)
    requires BitsExact(ns, m.attrs) && Count(ns, m.attrs) != TOO_MANY
    ensures Fades(m, Run(Flat(ns), m, sk, true), Run(Flat(ns), n, sk, true))
    decreases depth, 0, ns, 1
  {
    if ns == [] {
      FadeOverClear(m.opacity, m.canvas.image);
    } else {
      var init, last := ns[..|ns| - 1], ns[|ns| - 1];
      RunConcat(Flat(init), FlatNode(last), m, sk, true);
      RunConcat(Flat(init), FlatNode(last), n, sk, true);
      ForestSettles(init, m, Inheriting, depth, sk, true);
      ForestSettles(init, n, Inheriting, depth, sk, true);
      var m1, n1 := Run(Flat(init), m, sk, true), Run(Flat(init), n, sk, true);
      if NodeWeight(last, m1.attrs) == NOTHING {
        ForestFades(init, m, n, depth, sk);
        NothingDrawnByNode(last, m1, sk, true);
        NothingDrawnByNode(last, n1, sk, true);
      } else {
        NothingDrawn(init, m, sk, true);
        NothingDrawn(init, n, sk, true);
        NodeFades(last, m1, n1, depth, sk);
      }
    }
  }

  lemma {:induction false} NodeFades(node: Node, m: Machine, n: Machine, depth: nat, sk: Skia)
    requires WellFormedNode(node) && SoundNode(node, Inheriting, depth) && Alone(m, n)
    requires NodeBitExact(node, m.attrs) && NodeWeight(node, m.attrs) == SINGLE
    ensures Fades(m, Run(FlatNode(node), m, sk, true), Run(FlatNode(node), n, sk, true))
    decreases depth, 0, node, 0
  {
    match node
    case Leaf(op) =>
      Run1(op, m, sk, true);
      Run1(op, n, sk, true);
      if op.draw.DrawDisplayList? {
        ListFades(op.draw.list, m, n, depth - 1, sk);
      } else {
        DrawFades(op.draw, m.attrs, m.opacity, m.canvas.env, m.canvas.image, sk);
      }
    case SaveGroup(body) => SaveFades(body, m, n, depth, sk);
    case LayerGroup(layer, bit, body) =>
      RunGroup(LayerOp(layer, bit), Flat(body), m, sk, true);
      RunGroup(LayerOp(layer, bit), Flat(body), n, sk, true);
      if EliminatedLayer(layer, bit) {
        EliminatedFades(layer, body, m, n, depth, sk);
      } else {
        RealLayerFades(layer, bit, body, m, n, depth, sk);
      }
  }

  lemma {:induction false} SaveFades(body: seq<Node>, m: Machine, n: Machine, depth: nat, sk: Skia)
    requires WellFormed(body) && Sound(body, Inheriting, depth) && Alone(m, n)
    requires BitsExact(body, m.attrs) && Count(body, m.attrs) != TOO_MANY
    ensures Fades(m, Run([Save] + Flat(body) + [Restore], m, sk, true), Run([Save] + Flat(body) + [Restore], n, sk, true))
    decreases depth, 0, body, 2
  {
    RunGroup(Save, Flat(body), m, sk, true);
    RunGroup(Save, Flat(body), n, sk, true);
    var m1, n1 := DoOp(Save, m, sk, true), DoOp(Save, n, sk, true);
    ForestSettles(body, m1, Inheriting, depth, sk, true);
    ForestSettles(body, n1, Inheriting, depth, sk, true);
    ForestFades(body, m1, n1, depth, sk);
  }

  lemma {:induction false} ListFades(list: DisplayList, m: Machine, n: Machine, depth: nat, sk: Skia)
    requires SoundList(list, Inheriting, depth) && Alone(m, n) && list.canApplyGroupOpacity
    ensures Fades(m, DoOp(Paint(DrawDisplayList(list)), m, sk, true), DoOp(Paint(DrawDisplayList(list)), n, sk, true))
    decreases depth, 1
  {
    var ns :| IsBuilt(list, ns) && Sound(ns, Inheriting, depth);
    ListSettles(list, CanvasSave(m.canvas), m.opacity, Inheriting, depth, sk, true);
    ListSettles(list, CanvasSave(n.canvas), n.opacity, Inheriting, depth, sk, true);
    ListIsPaint(list, m, Inheriting, depth, sk, true);
    ListIsPaint(list, n, Inheriting, depth, sk, true);
    ForestFades(ns, Fresh(CanvasSave(m.canvas), m.opacity), Fresh(CanvasSave(n.canvas), n.opacity), depth, sk);
  }

  /** Leaving a plain save leaves the image. */
  lemma LeavesEliminated(layer: LayerInfo, body: seq<Node>, m: Machine, depth: nat, sk: Skia)
    requires WellFormed(body) && Sound(body, Inheriting, depth) && EliminatedLayer(layer, true)
    ensures var end := Run(Flat(body), DoLayer(LayerOp(layer, true), m, sk, true), sk, true);
            DoRestore(end, sk).canvas.image == end.canvas.image
  {
    ForestSettles(body, DoLayer(LayerOp(layer, true), m, sk, true), Inheriting, depth, sk, true);
  }

  /** Children of a plain save inherit the opacity of the layer that it stands for. */
  lemma EntersEliminated(layer: LayerInfo, m: Machine, sk: Skia)
    requires EliminatedLayer(layer, true)
    ensures var m1 := DoLayer(LayerOp(layer, true), m, sk, true);
            && Alone(m1, InLayer(m)) && m1.attrs == m.attrs && m1.canvas.image == m.canvas.image
            && m1.opacity == SafePaint(layer.withAttributes, m.attrs, 1.0).alpha * m.opacity
  {
  }

  lemma SameInLayer(m: Machine, n: Machine)
    requires Alone(m, n)
    ensures InLayer(n) == InLayer(m)
  {
  }

  /** The content of a plain save, and of the layer it stands for. */
  lemma {:induction false} EliminatedContent(layer: LayerInfo, body: seq<Node>, m: Machine, o: real, depth: nat, sk: Skia)
    requires WellFormed(body) && Sound(body, Inheriting, depth) && EliminatedLayer(layer, true)
    requires Count(body, m.attrs) != TOO_MANY && BitsExact(body, m.attrs)
    requires o == SafePaint(layer.withAttributes, m.attrs, 1.0).alpha * m.opacity
    ensures DoRestore(Run(Flat(body), DoLayer(LayerOp(layer, true), m, sk, true), sk, true), sk).canvas.image
         == FadeOver(o, Run(Flat(body), InLayer(m), sk, true).canvas.image, m.canvas.image)
    decreases depth, 0, body, 2
  {
    EntersEliminated(layer, m, sk);
    LeavesEliminated(layer, body, m, depth, sk);
    ForestFades(body, DoLayer(LayerOp(layer, true), m, sk, true), InLayer(m), depth, sk);
  }

  lemma {:induction false} EliminatedFades(layer: LayerInfo, body: seq<Node>, m: Machine, n: Machine, depth: nat, sk: Skia)
    requires WellFormed(body) && Sound(body, Inheriting, depth) && Alone(m, n)
    requires EliminatedLayer(layer, true) && CanDistribute(layer, body, m.attrs) && BitsExact(body, m.attrs)
    ensures var open := LayerOp(layer, true);
            Fades(m, DoRestore(Run(Flat(body), DoLayer(open, m, sk, true), sk, true), sk),
                     DoRestore(Run(Flat(body), DoLayer(open, n, sk, true), sk, true), sk))
    decreases depth, 0, body, 3
  {
    var alpha := SafePaint(layer.withAttributes, m.attrs, 1.0).alpha;
    SameInLayer(m, n);
    EliminatedContent(layer, body, m, alpha * m.opacity, depth, sk);
    EliminatedContent(layer, body, n, alpha, depth, sk);
    FadeOverTwice(m.opacity, alpha, alpha * m.opacity, Run(Flat(body), InLayer(m), sk, true).canvas.image, m.canvas.image);
  }

  /** A real layer takes the opacity when it is composited; its content does not see it. */
  lemma {:induction false} RealLayerFades(layer: LayerInfo, bit: bool, body: seq<Node>, m: Machine, n: Machine, depth: nat, sk: Skia)
    requires WellFormed(body) && Sound(body, Plain, depth) && Alone(m, n)
    requires !EliminatedLayer(layer, bit) && layer.backdrop == None && LayerWeight(layer, m.attrs) == SINGLE
    ensures var open := LayerOp(layer, bit);
            Fades(m, DoRestore(Run(Flat(body), DoLayer(open, m, sk, true), sk, true), sk),
                     DoRestore(Run(Flat(body), DoLayer(open, n, sk, true), sk, true), sk))
    decreases depth, 0, body, 2
  {
    var open := LayerOp(layer, bit);
    var m1, n1 := DoLayer(open, m, sk, true), DoLayer(open, n, sk, true);
    ForestSettles(body, m1, Plain, depth, sk, true);
    ForestSettles(body, n1, Plain, depth, sk, true);
    ForestFrame(body, m1, n1, Plain, depth, sk, true);
    CompositeFades(layer, m.attrs, m.opacity, m.canvas.env, m.canvas.image,
                   Run(Flat(body), m1, sk, true).canvas.image, sk);
  }

  // ----- Elimination -----

  /** With nothing inherited, eliminating layers does not change the image. */
  lemma {:induction false} ForestSame(ns: seq<Node>, m: Machine, ctx: Context, depth: nat, sk: Skia)
    requires WellFormed(ns) && Sound(ns, ctx, depth) && BitsExact(ns, m.attrs) && m.opacity == 1.0 && !ctx.Unchecked?
    ensures Run(Flat(ns), m, sk, true) == Run(Flat(ns), m, sk, false)
    decreases depth, 0, ns, 1
  {
    if ns == [] {
    } else {
      var init, last := ns[..|ns| - 1], ns[|ns| - 1];
      RunConcat(Flat(init), FlatNode(last), m, sk, true);
      RunConcat(Flat(init), FlatNode(last), m, sk, false);
      ForestSame(init, m, ctx, depth, sk);
      ForestSettles(init, m, ctx, depth, sk, true);
      NodeSame(last, Run(Flat(init), m, sk, true), ctx, depth, sk);
    }
  }

  lemma {:induction false} NodeSame(node: Node, m: Machine, ctx: Context, depth: nat, sk: Skia)
    requires WellFormedNode(node) && SoundNode(node, ctx, depth) && NodeBitExact(node, m.attrs) && m.opacity == 1.0
    requires !ctx.Unchecked?
    ensures Run(FlatNode(node), m, sk, true) == Run(FlatNode(node), m, sk, false)
    decreases depth, 0, node, 0
  {
    match node
    case Leaf(op) =>
      Run1(op, m, sk, true);
      Run1(op, m, sk, false);
      if op.Paint? && op.draw.DrawDisplayList? {
        ListSame(op.draw.list, CanvasSave(m.canvas), ctx, depth - 1, sk);
      }
    case SaveGroup(body) =>
      RunGroup(Save, Flat(body), m, sk, true);
      RunGroup(Save, Flat(body), m, sk, false);
      ForestSame(body, DoOp(Save, m, sk, true), ctx, depth, sk);
    case LayerGroup(layer, bit, body) =>
      var open := LayerOp(layer, bit);
      RunGroup(open, Flat(body), m, sk, true);
      RunGroup(open, Flat(body), m, sk, false);
      if EliminatedLayer(layer, bit) {
        EliminatedSame(layer, body, m, depth, sk);
      } else {
        ForestSame(body, DoLayer(open, m, sk, true), Within(ctx, layer, bit), depth, sk);
      }
  }

  lemma {:induction false} ListSame(list: DisplayList, canvas: Canvas, ctx: Context, depth: nat, sk: Skia)
    requires SoundList(list, ctx, depth) && !ctx.Unchecked?
    ensures RenderTo(list, canvas, 1.0, sk, true) == RenderTo(list, canvas, 1.0, sk, false)
    decreases depth, 1
  {
    var ns :| IsBuilt(list, ns) && Sound(ns, ctx, depth);
    ForestSame(ns, Fresh(canvas, 1.0), ctx, depth, sk);
  }

  /** The layer itself, composited without anything inherited. */
  lemma RealContent(layer: LayerInfo, body: seq<Node>, m: Machine, depth: nat, sk: Skia)
    requires WellFormed(body) && Sound(body, Inheriting, depth) && m.opacity == 1.0
    requires EliminatedLayer(layer, true) && OwnWeight(layer, m.attrs) == NOTHING
    ensures DoRestore(Run(Flat(body), DoLayer(LayerOp(layer, true), m, sk, false), sk, false), sk).canvas.image
         == FadeOver(SafePaint(layer.withAttributes, m.attrs, 1.0).alpha, Run(Flat(body), InLayer(m), sk, false).canvas.image,
                     m.canvas.image)
  {
    var offscreen, x := DoLayer(LayerOp(layer, true), m, sk, false), InLayer(m);
    ForestSettles(body, offscreen, Inheriting, depth, sk, false);
    ForestSettles(body, x, Inheriting, depth, sk, false);
    ForestFrame(body, x, offscreen, Inheriting, depth, sk, false);
    CompositeIsFade(layer, m.attrs, m.canvas.env, m.canvas.image, Run(Flat(body), x, sk, false).canvas.image, sk);
  }

  /** Whichever way a layer is run, all but the image is as it was, and the attributes are
      those after its content. */
  lemma LeavesLayer(layer: LayerInfo, body: seq<Node>, m: Machine, depth: nat, sk: Skia, eliminate: bool)
    requires WellFormed(body) && Sound(body, Inheriting, depth)
    ensures var end := DoRestore(Run(Flat(body), DoLayer(LayerOp(layer, true), m, sk, eliminate), sk, eliminate), sk);
            end == Machine(After(Flat(body), m.attrs), m.opacity, m.saved, m.canvas.(image := end.canvas.image))
  {
    ForestSettles(body, DoLayer(LayerOp(layer, true), m, sk, eliminate), Inheriting, depth, sk, eliminate);
  }

  lemma {:induction false} EliminatedSame(layer: LayerInfo, body: seq<Node>, m: Machine, depth: nat, sk: Skia)
    requires WellFormed(body) && Sound(body, Inheriting, depth) && m.opacity == 1.0
    requires EliminatedLayer(layer, true) && CanDistribute(layer, body, m.attrs) && BitsExact(body, m.attrs)
    ensures var open := LayerOp(layer, true);
            DoRestore(Run(Flat(body), DoLayer(open, m, sk, true), sk, true), sk)
            == DoRestore(Run(Flat(body), DoLayer(open, m, sk, false), sk, false), sk)
    decreases depth, 0, body, 3
  {
    LeavesLayer(layer, body, m, depth, sk, true);
    LeavesLayer(layer, body, m, depth, sk, false);
    EliminatedContent(layer, body, m, SafePaint(layer.withAttributes, m.attrs, 1.0).alpha, depth, sk);
    RealContent(layer, body, m, depth, sk);
    ForestSame(body, InLayer(m), Inheriting, depth, sk);
  }

  // ----- Main results -----

  /** Layer elimination preserves pixels: dispatching a list with its distributable layers
      run as plain saves leaves the canvas exactly as running every saveLayer as a real
      transparent layer composited at its own alpha, on any canvas and at any depth of
      nested lists, when no backdrop layer draws where an opacity may be inherited. */
  lemma EliminationPreservesPixels(list: DisplayList, canvas: Canvas, depth: nat, sk: Skia)
    requires SoundList(list, Plain, depth)
    ensures RenderTo(list, canvas, 1.0, sk, true) == RenderTo(list, canvas, 1.0, sk, false)
  {
    ListSame(list, canvas, Plain, depth, sk);
  }

  /** Group opacity is sound for whole lists: a list that says it can apply group opacity,
      rendered at an opacity, gives the pixels of rendering it into a transparent layer
      with real layers throughout and compositing that layer at the opacity. */
  lemma GroupOpacityIsSound(list: DisplayList, canvas: Canvas, opacity: real, depth: nat, sk: Skia)
    requires SoundList(list, Inheriting, depth) && list.canApplyGroupOpacity
    ensures RenderTo(list, canvas, opacity, sk, true).image
         == FadeOver(opacity,
                     RenderTo(list, canvas.(image := ClearImage(|canvas.image|)), 1.0, sk, false).image,
                     canvas.image)
  {
    var ns :| IsBuilt(list, ns) && Sound(ns, Inheriting, depth);
    var layer := canvas.(image := ClearImage(|canvas.image|));
    ForestFades(ns, Fresh(canvas, opacity), Fresh(layer, 1.0), depth, sk);
    ListSame(list, layer, Inheriting, depth, sk);
  }
}
