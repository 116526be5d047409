// Why layers with a backdrop are left out of the rendering results: inside a layer that is
// eliminated they read the canvas that the layer was to keep from them.
module Backdrops {
  import opened Basics
  import opened DisplayListOps
  import opened RecordTree
  import opened Recorder
  import opened OpacityBits
  import opened Trace
  import opened Canvas
  import opened Dispatch
  import opened Rendering
  import opened LayerElimination

  /** A backdrop filter that fills the new layer with what is below it. */
  ghost predicate BackdropCopies(sk: Skia) {
    forall f, m, image: Image, i :: sk.backdrop(f, m, image, i) == At(image, i)
  }

  // ----- A backdrop layer behind saves and eliminated layers -----

  /** The one operation of a forest is a layer with a backdrop and nothing in it, reached
      through plain saves and layers that are eliminated. Setters, transforms and clips may
      stand anywhere. */
  predicate Tunnel(ns: seq<Node>, a: Attrs) {
    ns != [] &&
    var init, last := ns[..|ns| - 1], ns[|ns| - 1];
    var before := After(Flat(init), a);
    if NodeWeight(last, before) == NOTHING then Tunnel(init, a) else Count(init, a) == NOTHING && TunnelNode(last, before)
  }

  predicate TunnelNode(n: Node, a: Attrs) {
    match n
    case Leaf(_) => false
    case SaveGroup(body) => Tunnel(body, a)
    case LayerGroup(layer, bit, body) =>
      OwnWeight(layer, a) == NOTHING &&
      if layer.backdrop.Some? then layer.bounds == None && Count(body, a) == NOTHING
      else EliminatedLayer(layer, bit) && Tunnel(body, a)
  }

  /** There is an eliminated layer on the way. */
  predicate Shielded(ns: seq<Node>, a: Attrs) {
    ns != [] &&
    var init, last := ns[..|ns| - 1], ns[|ns| - 1];
    var before := After(Flat(init), a);
    if NodeWeight(last, before) == NOTHING then Shielded(init, a) else ShieldedNode(last, before)
  }

  predicate ShieldedNode(n: Node, a: Attrs) {
    match n
    case Leaf(_) => false
    case SaveGroup(body) => Shielded(body, a)
    case LayerGroup(layer, _, _) => layer.backdrop.None?
  }

  /** The opacity at which the backdrop layer is composited when the layers on the way are
      eliminated, and the environment it is composited in. */
  datatype Arrival = Arrival(opacity: real, env: Env)

  function Combined(layer: LayerInfo, a: Attrs, opacity: real): real {
    if layer.withAttributes then AlphaOf(a.color) * opacity else opacity
  }

  function Arrive(ns: seq<Node>, a: Attrs, opacity: real, e: Env, mats: Matrices): Arrival {
    if ns == [] then Arrival(opacity, e) else
    var init, last := ns[..|ns| - 1], ns[|ns| - 1];
    var before := After(Flat(init), a);
    if NodeWeight(last, before) == NOTHING then Arrive(init, a, opacity, e, mats)
    else ArriveAt(last, before, opacity, ForestEnv(init, e, mats), mats)
  }

  function ArriveAt(n: Node, a: Attrs, opacity: real, e: Env, mats: Matrices): Arrival {
    match n
    case Leaf(_) => Arrival(opacity, e)
    case SaveGroup(body) => Arrive(body, a, opacity, e, mats)
    case LayerGroup(layer, _, body) =>
      var combined := Combined(layer, a, opacity);
      if layer.backdrop.Some? then Arrival(combined, e) else Arrive(body, a, combined, e, mats)
  }

  // ----- Such forests draw no lists -----

  lemma {:induction false} QuietIsSound(ns: seq<Node>, a: Attrs)
    requires WellFormed(ns) && Count(ns, a) == NOTHING
    ensures Sound(ns, Unchecked, 0)
    decreases ns, 1
  {
    if ns == [] {
    } else {
      var init, last := ns[..|ns| - 1], ns[|ns| - 1];
      QuietIsSound(init, a);
      QuietNodeIsSound(last, After(Flat(init), a));
    }
  }

  lemma {:induction false} QuietNodeIsSound(n: Node, a: Attrs)
    requires WellFormedNode(n) && NodeWeight(n, a) == NOTHING
    ensures SoundNode(n, Unchecked, 0)
    decreases n, 0
  {
    match n
    case Leaf(_) =>
    case SaveGroup(body) => QuietIsSound(body, a);
  }

  lemma {:induction false} TunnelIsSound(ns: seq<Node>, a: Attrs)
    requires WellFormed(ns) && Tunnel(ns, a)
    ensures Sound(ns, Unchecked, 0)
    decreases ns, 1
  {
    var init, last := ns[..|ns| - 1], ns[|ns| - 1];
    var before := After(Flat(init), a);
    if NodeWeight(last, before) == NOTHING {
      TunnelIsSound(init, a);
      QuietNodeIsSound(last, before);
    } else {
      QuietIsSound(init, a);
      TunnelNodeIsSound(last, before);
    }
  }

  lemma {:induction false} TunnelNodeIsSound(n: Node, a: Attrs)
    requires WellFormedNode(n) && TunnelNode(n, a)
    ensures SoundNode(n, Unchecked, 0)
    decreases n, 0
  {
    match n
    case SaveGroup(body) => TunnelIsSound(body, a);
    case LayerGroup(layer, _, body) =>
      if layer.backdrop.Some? { QuietIsSound(body, a); } else { TunnelIsSound(body, a); }
  }

  /** Running everything before the last node, for the two shapes of a tunnel. */
  lemma BeforeLast(ns: seq<Node>, m: Machine, sk: Skia, eliminate: bool)
    requires WellFormed(ns) && Tunnel(ns, m.attrs)
    ensures var init, last := ns[..|ns| - 1], ns[|ns| - 1];
            var m1 := Run(Flat(init), m, sk, eliminate);
            && Run(Flat(ns), m, sk, eliminate) == Run(FlatNode(last), m1, sk, eliminate)
            && m1.attrs == After(Flat(init), m.attrs) && m1.opacity == m.opacity
            && m1.canvas.env == ForestEnv(init, m.canvas.env, sk.mats)
            && (NodeWeight(last, m1.attrs) != NOTHING ==> m1.canvas.image == m.canvas.image)
  {
    var init, last := ns[..|ns| - 1], ns[|ns| - 1];
    RunConcat(Flat(init), FlatNode(last), m, sk, eliminate);
    if NodeWeight(last, After(Flat(init), m.attrs)) == NOTHING {
      TunnelIsSound(init, m.attrs);
    } else {
      QuietIsSound(init, m.attrs);
      NothingDrawn(init, m, sk, eliminate);
    }
    ForestSettles(init, m, Unchecked, 0, sk, eliminate);
  }

  // ----- Layers eliminated: the backdrop layer reads the canvas -----

  /** The image composited onto itself, inside the clip. */
  function Doubled(image: Image, at: Arrival, sk: Skia): Image {
    seq(|image|, i requires 0 <= i < |image| =>
      if Inside(at.env.clip, i, sk) then Over(Fade(at.opacity, image[i]), image[i]) else image[i])
  }

  lemma {:induction false} TunnelDoubles(ns: seq<Node>, m: Machine, sk: Skia)
    requires WellFormed(ns) && Tunnel(ns, m.attrs) && BackdropCopies(sk)
    ensures Run(Flat(ns), m, sk, true).canvas.image
         == Doubled(m.canvas.image, Arrive(ns, m.attrs, m.opacity, m.canvas.env, sk.mats), sk)
    decreases ns, 1
  {
    var init, last := ns[..|ns| - 1], ns[|ns| - 1];
    var m1 := Run(Flat(init), m, sk, true);
    BeforeLast(ns, m, sk, true);
    if NodeWeight(last, m1.attrs) == NOTHING {
      TunnelDoubles(init, m, sk);
      NothingDrawnByNode(last, m1, sk, true);
    } else {
      TunnelNodeDoubles(last, m1, sk);
    }
  }

  lemma {:induction false} TunnelNodeDoubles(n: Node, m: Machine, sk: Skia)
    requires WellFormedNode(n) && TunnelNode(n, m.attrs) && BackdropCopies(sk)
    ensures Run(FlatNode(n), m, sk, true).canvas.image
         == Doubled(m.canvas.image, ArriveAt(n, m.attrs, m.opacity, m.canvas.env, sk.mats), sk)
    decreases n, 0
  {
    match n
    case SaveGroup(body) =>
      ThroughSave(Save, body, m, sk);
      TunnelDoubles(body, DoOp(Save, m, sk, true), sk);
    case LayerGroup(layer, bit, body) =>
      if layer.backdrop.Some? {
        BackdropComposited(layer, bit, body, m, sk, true);
      } else {
        ThroughSave(LayerOp(layer, bit), body, m, sk);
        TunnelDoubles(body, DoOp(LayerOp(layer, bit), m, sk, true), sk);
      }
  }

  /** A group that is dispatched as a plain save shows what its body shows. */
  lemma ThroughSave(open: Op, body: seq<Node>, m: Machine, sk: Skia)
    requires open.Save? || IsEliminated(open)
    requires WellFormed(body) && Tunnel(body, m.attrs)
    ensures Run([open] + Flat(body) + [Restore], m, sk, true).canvas.image
         == Run(Flat(body), DoOp(open, m, sk, true), sk, true).canvas.image
  {
    RunGroup(open, Flat(body), m, sk, true);
    TunnelIsSound(body, m.attrs);
    ForestSettles(body, DoOp(open, m, sk, true), Unchecked, 0, sk, true);
  }

  /** Leaving a real layer composites it. */
  lemma LeavesLayer(open: Op, m: Machine, end: Machine, sk: Skia, eliminate: bool)
    requires open.SaveLayer? && !(eliminate && IsEliminated(open))
    requires end.canvas.stack == DoLayer(open, m, sk, eliminate).canvas.stack
    ensures var brush := SafePaint(open.options.rendersWithAttributes, m.attrs, m.opacity);
            DoRestore(end, sk).canvas.image
            == Composite(OpenLayer(brush, open.bounds, m.canvas.image), m.canvas.env, end.canvas.image, sk)
  {
  }

  /** A backdrop layer with nothing in it composites what is below onto itself. */
  lemma BackdropComposited(layer: LayerInfo, bit: bool, body: seq<Node>, m: Machine, sk: Skia, eliminate: bool)
    requires layer.backdrop.Some? && layer.bounds == None && OwnWeight(layer, m.attrs) == NOTHING
    requires WellFormed(body) && Count(body, m.attrs) == NOTHING && BackdropCopies(sk)
    ensures Run(FlatNode(LayerGroup(layer, bit, body)), m, sk, eliminate).canvas.image
         == Doubled(m.canvas.image, Arrival(Combined(layer, m.attrs, m.opacity), m.canvas.env), sk)
  {
    var open := LayerOp(layer, bit);
    var m1 := DoLayer(open, m, sk, eliminate);
    var end := Run(Flat(body), m1, sk, eliminate);
    RunGroup(open, Flat(body), m, sk, eliminate);
    BackdropStart(layer.backdrop, m.canvas.env, m.canvas.image, sk);
    NothingDrawn(body, m1, sk, eliminate);
    assert end.canvas.image == m.canvas.image;
    LeavesLayer(open, m, end, sk, eliminate);
    LayerBrush(layer, m.attrs, m.opacity);
    OverItself(SafePaint(layer.withAttributes, m.attrs, m.opacity), m.canvas.env, m.canvas.image, sk);
  }

  lemma LayerBrush(layer: LayerInfo, a: Attrs, opacity: real)
    requires OwnWeight(layer, a) == NOTHING
    ensures var brush := SafePaint(layer.withAttributes, a, opacity);
            brush.alpha == Combined(layer, a, opacity) && Compatible(brush.attrs) && brush.attrs.imageFilter == None
  {
  }

  lemma BackdropStart(backdrop: Option<nat>, e: Env, image: Image, sk: Skia)
    requires backdrop.Some? && BackdropCopies(sk)
    ensures LayerStart(backdrop, e, image, sk) == image
  {
    var start := LayerStart(backdrop, e, image, sk);
    forall i | 0 <= i < |image|
      ensures start[i] == image[i]
    {
      assert start[i] == sk.backdrop(backdrop.value, e.matrix, image, i);
    }
  }

  lemma OverItself(brush: Brush, e: Env, image: Image, sk: Skia)
    requires Compatible(brush.attrs) && brush.attrs.imageFilter == None
    ensures Composite(OpenLayer(brush, None, image), e, image, sk) == Doubled(image, Arrival(brush.alpha, e), sk)
  {
  }

  // ----- Real layers: there is nothing below to read -----

  predicate AllClear(image: Image) {
    forall i :: 0 <= i < |image| ==> image[i] == CLEAR
  }

  lemma {:induction false} TunnelKeepsImage(ns: seq<Node>, m: Machine, sk: Skia)
    requires WellFormed(ns) && Tunnel(ns, m.attrs) && BackdropCopies(sk)
    requires Shielded(ns, m.attrs) || AllClear(m.canvas.image)
    ensures Run(Flat(ns), m, sk, false).canvas.image == m.canvas.image
    decreases ns, 1
  {
    var init, last := ns[..|ns| - 1], ns[|ns| - 1];
    var m1 := Run(Flat(init), m, sk, false);
    BeforeLast(ns, m, sk, false);
    if NodeWeight(last, m1.attrs) == NOTHING {
      TunnelKeepsImage(init, m, sk);
      NothingDrawnByNode(last, m1, sk, false);
    } else {
      TunnelNodeKeepsImage(last, m1, sk);
    }
  }

  lemma {:induction false} TunnelNodeKeepsImage(n: Node, m: Machine, sk: Skia)
    requires WellFormedNode(n) && TunnelNode(n, m.attrs) && BackdropCopies(sk)
    requires ShieldedNode(n, m.attrs) || AllClear(m.canvas.image)
    ensures Run(FlatNode(n), m, sk, false).canvas.image == m.canvas.image
    decreases n, 0
  {
    match n
    case SaveGroup(body) =>
      RunGroup(Save, Flat(body), m, sk, false);
      TunnelIsSound(body, m.attrs);
      ForestSettles(body, DoOp(Save, m, sk, false), Unchecked, 0, sk, false);
      TunnelKeepsImage(body, DoOp(Save, m, sk, false), sk);
    case LayerGroup(layer, bit, body) =>
      if layer.backdrop.Some? {
        BackdropComposited(layer, bit, body, m, sk, false);
        ClearDoubled(m.canvas.image, Arrival(Combined(layer, m.attrs, m.opacity), m.canvas.env), sk);
      } else {
        var m1 := DoLayer(LayerOp(layer, bit), m, sk, false);
        TunnelKeepsImage(body, m1, sk);
        ClearLayer(layer, bit, body, m, sk);
      }
  }

  lemma ClearDoubled(image: Image, at: Arrival, sk: Skia)
    requires AllClear(image)
    ensures Doubled(image, at, sk) == image
  {
    forall i | 0 <= i < |image|
      ensures Doubled(image, at, sk)[i] == image[i]
    {
      ClearOverItself(at.opacity, image[i]);
    }
  }

  lemma ClearOverItself(o: real, p: Pixel)
    requires p == CLEAR
    ensures Over(Fade(o, p), p) == p
  {
    NothingShows(o, p);
  }

  /** A real layer that stays transparent shows nothing. */
  lemma ClearLayer(layer: LayerInfo, bit: bool, body: seq<Node>, m: Machine, sk: Skia)
    requires layer.backdrop == None && layer.bounds == None && OwnWeight(layer, m.attrs) == NOTHING
    requires WellFormed(body) && Tunnel(body, m.attrs)
    requires var m1 := DoLayer(LayerOp(layer, bit), m, sk, false);
             Run(Flat(body), m1, sk, false).canvas.image == m1.canvas.image
    ensures Run(FlatNode(LayerGroup(layer, bit, body)), m, sk, false).canvas.image == m.canvas.image
  {
    var open := LayerOp(layer, bit);
    var m1 := DoLayer(open, m, sk, false);
    RunGroup(open, Flat(body), m, sk, false);
    TunnelIsSound(body, m.attrs);
    ForestSettles(body, m1, Unchecked, 0, sk, false);
    LeavesLayer(open, m, Run(Flat(body), m1, sk, false), sk, false);
    LayerBrush(layer, m.attrs, m.opacity);
    NothingComposited(SafePaint(layer.withAttributes, m.attrs, m.opacity), m.canvas.env, m.canvas.image, sk);
  }

  lemma NothingComposited(brush: Brush, e: Env, image: Image, sk: Skia)
    requires Compatible(brush.attrs) && brush.attrs.imageFilter == None
    ensures Composite(OpenLayer(brush, None, image), e, ClearImage(|image|), sk) == image
  {
    var layer := OpenLayer(brush, None, image);
    forall i | 0 <= i < |image|
      ensures LayerPixel(layer, e, ClearImage(|image|), i, sk) == image[i]
    {
      NothingShows(brush.alpha, image[i]);
    }
  }

  // ----- The difference -----

  /** A pixel looks the same with itself over it exactly if that is invisible, or the pixel is
      opaque or clear. */
  lemma WhenDoublingShows(o: real, p: Pixel)
    ensures Over(Fade(o, p), p) == p <==> o == 0.0 || p.a == 1.0 || p == CLEAR
  {
    Doubling(o, p.c, p.a, o * p.c, o * p.a);
    assert Over(Fade(o, p), p) == Pixel(o * p.c + (1.0 - o * p.a) * p.c, o * p.a + (1.0 - o * p.a) * p.a);
  }

  lemma Doubling(o: real, c: real, a: real, oc: real, oa: real)
    requires oc == o * c && oa == o * a
    ensures oc + (1.0 - oa) * c - c == oc * (1.0 - a)
    ensures oa + (1.0 - oa) * a - a == oa * (1.0 - a)
    ensures (oc * (1.0 - a) == 0.0 && oa * (1.0 - a) == 0.0) <==> o == 0.0 || a == 1.0 || (c == 0.0 && a == 0.0)
  {
    assert oa * c == oc * a;
    ZeroProduct(oc, 1.0 - a);
    ZeroProduct(oa, 1.0 - a);
    ZeroProduct(o, c);
    ZeroProduct(o, a);
  }

  lemma ZeroProduct(x: real, y: real)
    ensures x * y == 0.0 <==> x == 0.0 || y == 0.0
  {
  }

  /** Wherever the one operation of a list is a backdrop layer behind an eliminated layer, the
      canvas ends as if the layers were real if and only if that layer is invisible or every
      pixel inside its clip is opaque or clear. */
  lemma WhenBackdropShows(list: DisplayList, ns: seq<Node>, canvas: Canvas, sk: Skia)
    requires IsBuilt(list, ns) && Tunnel(ns, DEFAULTS) && Shielded(ns, DEFAULTS) && BackdropCopies(sk)
    ensures var at, image := Arrive(ns, DEFAULTS, 1.0, canvas.env, sk.mats), canvas.image;
            RenderTo(list, canvas, 1.0, sk, true).image == RenderTo(list, canvas, 1.0, sk, false).image
            <==> at.opacity == 0.0 ||
                 forall i :: 0 <= i < |image| && Inside(at.env.clip, i, sk) ==> image[i].a == 1.0 || image[i] == CLEAR
  {
    var at, image := Arrive(ns, DEFAULTS, 1.0, canvas.env, sk.mats), canvas.image;
    TunnelDoubles(ns, Fresh(canvas, 1.0), sk);
    TunnelKeepsImage(ns, Fresh(canvas, 1.0), sk);
    forall i | 0 <= i < |image|
      ensures Doubled(image, at, sk)[i] == image[i]
              <==> at.opacity == 0.0 || !Inside(at.env.clip, i, sk) || image[i].a == 1.0 || image[i] == CLEAR
    {
      WhenDoublingShows(at.opacity, image[i]);
    }
    SameImages(Doubled(image, at, sk), image);
  }

  lemma SameImages(a: Image, b: Image)
    requires |a| == |b|
    ensures a == b <==> forall i :: 0 <= i < |b| ==> a[i] == b[i]
  {
  }

  // ----- Calls that record such a list -----

  /** A layer with a backdrop and nothing in it, alone in a plain layer. */
  function LayerInLayer(outer: LayerInfo, inner: LayerInfo): seq<Node> {
    [LayerGroup(outer, true, [LayerGroup(inner, true, [])])]
  }

  function OpenLayers(outer: LayerInfo, inner: LayerInfo): Levels {
    Push(Push(Push(Empty, Level(Base, SINGLE, [])), Level(Layer(outer), SINGLE, [])), Level(Layer(inner), NOTHING, []))
  }

  lemma TwoLayersOpened(outer: LayerInfo, inner: LayerInfo, layout: Layout)
    requires !outer.withAttributes && !inner.withAttributes
    ensures Record([LayerOp(outer, false), LayerOp(inner, false)], START, layout).levels == OpenLayers(outer, inner)
  {
    var calls := [LayerOp(outer, false), LayerOp(inner, false)];
    assert Init(calls) == [calls[0]];
    Record1(calls[0], START, layout);
  }

  lemma TwoLayersClosed(r: Recorder, outer: LayerInfo, inner: LayerInfo)
    requires r.levels == OpenLayers(outer, inner)
    ensures StepRestore(StepRestore(r)).levels == Push(Empty, Level(Base, SINGLE, LayerInLayer(outer, inner)))
  {
    assert StepRestore(r).levels ==
      Push(Push(Empty, Level(Base, SINGLE, [])), Level(Layer(outer), SINGLE, [] + [LayerGroup(inner, true, [])]));
    assert [] + [LayerGroup(inner, true, [])] == [LayerGroup(inner, true, [])];
    assert [] + LayerInLayer(outer, inner) == LayerInLayer(outer, inner);
  }

  lemma LayerInLayerIsRecorded(outer: LayerInfo, inner: LayerInfo, calls: seq<Op>, layout: Layout)
    requires !outer.withAttributes && !inner.withAttributes
    requires calls == [LayerOp(outer, false), LayerOp(inner, false), Restore, Restore]
    ensures BuiltForest(calls, layout) == LayerInLayer(outer, inner)
  {
    var begun := [LayerOp(outer, false), LayerOp(inner, false)];
    TwoLayersOpened(outer, inner, layout);
    var r := Record(begun, START, layout);
    TwoLayersClosed(r, outer, inner);
    assert Init(calls) == begun + [Restore] && Init(begun + [Restore]) == begun;
    assert Record(calls, START, layout) == StepRestore(StepRestore(r));
    assert Depth(Record(calls, START, layout).levels) == 1;
    assert Closed(calls, layout) == calls + Restores(0) == calls;
  }

  lemma LayerInLayerIsTunnel(outer: LayerInfo, inner: LayerInfo, a: Attrs, e: Env, mats: Matrices)
    requires outer == LayerInfo(None, false, None)
    requires inner.bounds == None && !inner.withAttributes && inner.backdrop.Some?
    ensures Tunnel(LayerInLayer(outer, inner), a) && Shielded(LayerInLayer(outer, inner), a)
    ensures Arrive(LayerInLayer(outer, inner), a, 1.0, e, mats) == Arrival(1.0, e)
  {
    var body := [LayerGroup(inner, true, [])];
    var ns := [LayerGroup(outer, true, body)];
    assert body[..0] == [] && ns[..0] == [];
    assert Tunnel(body, a);
    assert ForestEnv([], e, mats) == e;
    assert Arrive(body, a, 1.0, e, mats) == ArriveAt(body[0], a, 1.0, e, mats);
  }

  /** A layer and in it a layer with a backdrop: what the list shows differs from what the
      calls mean exactly if some pixel inside the clip is neither opaque nor clear. */
  lemma BackdropSeesThroughLayer(backdrop: nat, calls: seq<Op>, canvas: Canvas, layout: Layout, sk: Skia)
    requires BackdropCopies(sk)
    requires calls == [SaveLayer(None, SaveLayerOptions(false, false), None),
                       SaveLayer(None, SaveLayerOptions(false, false), Some(backdrop)), Restore, Restore]
    ensures var list, image := Build(calls, layout), canvas.image;
            RenderTo(list, canvas, 1.0, sk, true).image == RenderTo(list, canvas, 1.0, sk, false).image
            <==> forall i :: 0 <= i < |image| && Inside(canvas.env.clip, i, sk) ==> image[i].a == 1.0 || image[i] == CLEAR
  {
    var outer, inner := LayerInfo(None, false, None), LayerInfo(None, false, Some(backdrop));
    LayerInLayerIsRecorded(outer, inner, calls, layout);
    LayerInLayerIsTunnel(outer, inner, DEFAULTS, canvas.env, sk.mats);
    BuildIsExact(calls, layout);
    WhenBackdropShows(Build(calls, layout), LayerInLayer(outer, inner), canvas, sk);
  }

  /** The same two layers over one half-transparent pixel. */
  lemma HalfTransparentPixelDoubles(backdrop: nat, calls: seq<Op>, layout: Layout, sk: Skia)
    requires BackdropCopies(sk)
    requires calls == [SaveLayer(None, SaveLayerOptions(false, false), None),
                       SaveLayer(None, SaveLayerOptions(false, false), Some(backdrop)), Restore, Restore]
    ensures var list, canvas := Build(calls, layout), Canvas(START_ENV, [Pixel(0.5, 0.5)], Empty);
            RenderTo(list, canvas, 1.0, sk, true).image != RenderTo(list, canvas, 1.0, sk, false).image
  {
    var canvas := Canvas(START_ENV, [Pixel(0.5, 0.5)], Empty);
    BackdropSeesThroughLayer(backdrop, calls, canvas, layout, sk);
    assert canvas.image[0].a != 1.0 && canvas.image[0] != CLEAR && Inside(START_ENV.clip, 0, sk);
  }
}
