// What the rendering results mean for recorded lists: the nested-render assertion never
// fires, and the optimised rendering of a built list shows what the original calls meant.
module RenderResults {
  import opened Basics
  import opened DisplayListOps
  import opened Outlines
  import opened RecordTree
  import opened Recorder
  import opened OpacityBits
  import opened Trace
  import opened Elision
  import opened Canvas
  import opened Dispatch
  import opened Rendering
  import opened LayerElimination
  import opened NestedCounts

  // ----- The nested-render assertion -----

  /** The check on entry to RenderTo. */
  predicate MayRender(list: DisplayList, opacity: real) {
    list.canApplyGroupOpacity || opacity >= 1.0
  }

  /** Every RenderTo reached from this stream, at any depth, passes its check. */
  predicate ChecksPass(ops: seq<Op>, m: Machine, sk: Skia) {
    ops == [] ||
    (var init := ops[..|ops| - 1];
     ChecksPass(init, m, sk) && OpChecks(ops[|ops| - 1], Run(init, m, sk, true), sk))
  }

  predicate OpChecks(op: Op, m: Machine, sk: Skia) {
    op.Paint? ==> DrawChecks(op.draw, m, sk)
  }

  predicate DrawChecks(d: Draw, m: Machine, sk: Skia) {
    d.DrawDisplayList? ==>
      MayRender(d.list, m.opacity) && ListChecks(d.list, CanvasSave(m.canvas), m.opacity, sk)
  }

  predicate ListChecks(list: DisplayList, canvas: Canvas, opacity: real, sk: Skia) {
    ChecksPass(list.ops, Fresh(canvas, opacity), sk)
  }

  lemma {:induction false} ChecksConcat(s: seq<Op>, t: seq<Op>, m: Machine, sk: Skia)
    ensures ChecksPass(s + t, m, sk) == (ChecksPass(s, m, sk) && ChecksPass(t, Run(s, m, sk, true), sk))
  {
    if t == [] {
      assert s + t == s;
    } else {
      ChecksConcat(s, Init(t), m, sk);
      RunConcat(s, Init(t), m, sk, true);
      assert Init(s + t) == s + Init(t);
    }
  }

  lemma ChecksGroup(open: Op, body: seq<Op>, m: Machine, sk: Skia)
    requires IsStructural(open) && ChecksPass(body, DoOp(open, m, sk, true), sk)
    ensures ChecksPass([open] + body + [Restore], m, sk)
  {
    ChecksConcat([open] + body, [Restore], m, sk);
    ChecksConcat([open], body, m, sk);
    Run1(open, m, sk, true);
    assert [open][..0] == [] && [Restore][..0] == [];
  }

  /** An opacity below 1 is inherited only where it may be. */
  predicate MayInherit(opacity: real, w: Weight) {
    opacity >= 1.0 || w != TOO_MANY
  }

  lemma {:induction false} ForestChecks(ns: seq<Node>, m: Machine, depth: nat, sk: Skia)
    requires WellFormed(ns) && Sound(ns, Unchecked, depth) && BitsExact(ns, m.attrs)
    requires MayInherit(m.opacity, Count(ns, m.attrs))
    ensures ChecksPass(Flat(ns), m, sk)
    decreases depth, 0, ns, 1
  {
    if ns == [] {
    } else {
      var init, last := ns[..|ns| - 1], ns[|ns| - 1];
      ForestChecks(init, m, depth, sk);
      ChecksConcat(Flat(init), FlatNode(last), m, sk);
      ForestSettles(init, m, Unchecked, depth, sk, true);
      NodeChecks(last, Run(Flat(init), m, sk, true), depth, sk);
    }
  }

  lemma {:induction false} NodeChecks(n: Node, m: Machine, depth: nat, sk: Skia)
    requires WellFormedNode(n) && SoundNode(n, Unchecked, depth) && NodeBitExact(n, m.attrs)
    requires MayInherit(m.opacity, NodeWeight(n, m.attrs))
    ensures ChecksPass(FlatNode(n), m, sk)
    decreases depth, 0, n, 0
  {
    match n
    case Leaf(op) =>
      assert [op][..0] == [];
      assert ChecksPass([], m, sk);
      if op.Paint? && op.draw.DrawDisplayList? {
        ListChecksPass(op.draw.list, CanvasSave(m.canvas), m.opacity, depth - 1, sk);
      }
    case SaveGroup(body) =>
      ForestChecks(body, DoOp(Save, m, sk, true), depth, sk);
      ChecksGroup(Save, Flat(body), m, sk);
    case LayerGroup(layer, bit, body) =>
      ForestChecks(body, DoLayer(LayerOp(layer, bit), m, sk, true), depth, sk);
      ChecksGroup(LayerOp(layer, bit), Flat(body), m, sk);
  }

  /** The nested-render assertion never fires: if the outermost RenderTo passes its check,
      so does every one it leads to - with backdrops or without, at every depth. */
  lemma {:induction false} ListChecksPass(list: DisplayList, canvas: Canvas, opacity: real, depth: nat, sk: Skia)
    requires SoundList(list, Unchecked, depth) && MayRender(list, opacity)
    ensures ListChecks(list, canvas, opacity, sk)
    decreases depth, 1
  {
    var ns :| IsBuilt(list, ns) && Sound(ns, Unchecked, depth);
    ForestChecks(ns, Fresh(canvas, opacity), depth, sk);
  }

  // ----- The image is determined by the events -----

  datatype Painting = Painting(image: Image, layers: Stack<(OpenLayer, Env)>)

  /** Painting the events with real layers only. */
  function PaintEvent(ev: Event, p: Painting, sk: Skia): Painting {
    match ev
    case Drawn(l, a, e) => p.(image := PaintLook(l, a, e, p.image, sk))
    case LayerBegun(bounds, withAttributes, backdrop, a, e) =>
      Painting(LayerStart(backdrop, e, p.image, sk),
               Push(p.layers, (OpenLayer(SafePaint(withAttributes, a, 1.0), bounds, p.image), e)))
    case LayerEnded =>
      match p.layers
      case Empty => p
      case Push(below, top) => Painting(Composite(top.0, top.1, p.image, sk), below)
  }

  /** What drawing something with this look does. */
  function PaintLook(l: Look, a: Attrs, e: Env, image: Image, sk: Skia): Image {
    match l
    case Figured(_) => DrawOn(l, SafePaint(true, a, 1.0), e, image, sk)
    case Plainly(d) => PaintDraw(d, a, e, image, sk)
  }

  function PaintDraw(d: Draw, a: Attrs, e: Env, image: Image, sk: Skia): Image {
    DoDraw(d, Machine(a, 1.0, Empty, Canvas(e, image, Empty)), sk, false).canvas.image
  }

  function PaintEvents(evs: seq<Event>, p: Painting, sk: Skia): Painting {
    if evs == [] then p else PaintEvent(Last(evs), PaintEvents(Init(evs), p, sk), sk)
  }

  /** A machine that renders with real layers, in step with a tracer and a painting. */
  predicate PaintsAlong(m: Machine, t: Tracer, p: Painting) {
    && m.attrs == t.attrs && m.opacity == 1.0
    && m.canvas.env == t.env && m.canvas.image == p.image
    && StacksAlong(m.canvas.stack, m.saved, t.stack, p.layers)
  }

  predicate StacksAlong(frames: Stack<Frame>, saved: Stack<real>, envs: Stack<SavedEnv>, layers: Stack<(OpenLayer, Env)>) {
    match frames
    case Empty => saved.Empty? && envs.Empty? && layers.Empty?
    case Push(below, frame) =>
      && saved.Push? && saved.top == 1.0
      && envs.Push? && envs.top == SavedEnv(frame.env, frame.layer.Some?)
      && if frame.layer.Some?
         then layers.Push? && layers.top == (frame.layer.value, frame.env)
              && StacksAlong(below, saved.below, envs.below, layers.below)
         else StacksAlong(below, saved.below, envs.below, layers)
  }

  ghost predicate ListsSound(ds: seq<Look>, depth: nat) {
    forall l :: l in ds && l.Plainly? && l.draw.DrawDisplayList? ==> SoundList(l.draw.list, Unchecked, depth)
  }

  lemma PaintSnoc(evs: seq<Event>, ev: Event, start: Painting, sk: Skia)
    ensures PaintEvents(evs + [ev], start, sk) == PaintEvent(ev, PaintEvents(evs, start, sk), sk)
  {
    assert Init(evs + [ev]) == evs;
  }

  /** A draw has the same effect as painting its event. */
  lemma DrawAlong(d: Draw, m: Machine, e: Env, depth: nat, sk: Skia)
    requires d.DrawDisplayList? ==> SoundList(d.list, Unchecked, depth)
    requires m.opacity == 1.0 && m.canvas.env == e
    ensures var m' := DoDraw(d, m, sk, false);
            m' == m.(canvas := m.canvas.(image := PaintLook(LookOf(d), m.attrs, e, m.canvas.image, sk)))
  {
    if d.DrawDisplayList? {
      var n := Machine(m.attrs, 1.0, Empty, Canvas(e, m.canvas.image, Empty));
      ListFrame(d.list, m, n, Unchecked, depth, sk, false);
      ListSettles(d.list, CanvasSave(m.canvas), 1.0, Unchecked, depth, sk, false);
      ListIsPaint(d.list, m, Unchecked, depth, sk, false);
    }
  }

  lemma PaintsAlongDraw(d: Draw, m: Machine, t: Tracer, start: Painting, depth: nat, sk: Skia)
    requires PaintsAlong(m, t, PaintEvents(t.events, start, sk))
    requires d.DrawDisplayList? ==> SoundList(d.list, Unchecked, depth)
    ensures var t' := StepTrace(Paint(d), t, sk.mats);
            PaintsAlong(DoDraw(d, m, sk, false), t', PaintEvents(t'.events, start, sk))
  {
    DrawAlong(d, m, t.env, depth, sk);
    PaintSnoc(t.events, Drawn(LookOf(d), t.attrs, t.env), start, sk);
  }

  lemma PaintsAlongLayer(op: Op, m: Machine, t: Tracer, start: Painting, sk: Skia)
    requires op.SaveLayer? && PaintsAlong(m, t, PaintEvents(t.events, start, sk))
    ensures var t' := StepTrace(op, t, sk.mats);
            PaintsAlong(DoLayer(op, m, sk, false), t', PaintEvents(t'.events, start, sk))
  {
    PaintSnoc(t.events, LayerBegun(op.bounds, op.options.rendersWithAttributes, op.backdrop, t.attrs, t.env), start, sk);
  }

  lemma PaintsAlongRestore(m: Machine, t: Tracer, start: Painting, sk: Skia)
    requires PaintsAlong(m, t, PaintEvents(t.events, start, sk))
    ensures var t' := StepTrace(Restore, t, sk.mats);
            PaintsAlong(DoRestore(m, sk), t', PaintEvents(t'.events, start, sk))
  {
    PaintSnoc(t.events, LayerEnded, start, sk);
  }

  lemma PaintsAlongStep(op: Op, m: Machine, t: Tracer, start: Painting, depth: nat, sk: Skia)
    requires PaintsAlong(m, t, PaintEvents(t.events, start, sk))
    requires op.Paint? && op.draw.DrawDisplayList? ==> SoundList(op.draw.list, Unchecked, depth)
    ensures var t' := StepTrace(op, t, sk.mats);
            PaintsAlong(DoOp(op, m, sk, false), t', PaintEvents(t'.events, start, sk))
  {
    match op
    case Paint(d) => PaintsAlongDraw(d, m, t, start, depth, sk);
    case SaveLayer(_, _, _) => PaintsAlongLayer(op, m, t, start, sk);
    case Restore => PaintsAlongRestore(m, t, start, sk);
    case _ =>
  }

  /** With real layers, the image depends only on the events: what is drawn, under which
      attributes and environment, in which layers. */
  lemma {:induction false} EventsDecideTheImage(ops: seq<Op>, e: Env, image: Image, depth: nat, sk: Skia)
    requires ListsSound(Draws(ops), depth)
    ensures PaintsAlong(Run(ops, Fresh(Canvas(e, image, Empty), 1.0), sk, false),
                        RunTrace(ops, NewTracer(e), sk.mats),
                        PaintEvents(EventsOf(ops, e, sk.mats), Painting(image, Empty), sk))
  {
    if ops == [] {
    } else {
      LastDraw(ops);
      EventsDecideTheImage(Init(ops), e, image, depth, sk);
      PaintsAlongStep(Last(ops), Run(Init(ops), Fresh(Canvas(e, image, Empty), 1.0), sk, false),
                      RunTrace(Init(ops), NewTracer(e), sk.mats), Painting(image, Empty), depth, sk);
    }
  }

  // ----- From calls to pixels -----

  /** What the calls themselves paint when every saveLayer is a real layer. They are given a
      canvas without saved states, so that restores without a save are as void as they are
      for a builder. */
  function PaintedByCalls(calls: seq<Op>, layout: Layout, e: Env, image: Image, sk: Skia): Image {
    Run(Closed(calls, layout), Fresh(Canvas(e, image, Empty), 1.0), sk, false).canvas.image
  }

  /** A balanced list shows the same whatever states have been saved on the canvas. */
  lemma SavedStatesDoNotMatter(list: DisplayList, canvas: Canvas, ctx: Context, depth: nat, sk: Skia)
    requires SoundList(list, ctx, depth)
    ensures RenderTo(list, canvas, 1.0, sk, false).image == RenderTo(list, canvas.(stack := Empty), 1.0, sk, false).image
  {
    var ns :| IsBuilt(list, ns) && Sound(ns, ctx, depth);
    ForestFrame(ns, Fresh(canvas, 1.0), Fresh(canvas.(stack := Empty), 1.0), ctx, depth, sk, false);
  }

  /** Recording with deferral, elision and back-patched bits, and dispatching the built list
      with real layers, paints what the calls paint. */
  lemma RealLayersPaintTheCalls(calls: seq<Op>, layout: Layout, canvas: Canvas, ctx: Context, depth: nat, sk: Skia)
    requires Lawful(sk.mats)
    requires NoStaleDraw(calls)
    requires ListsSound(Draws(calls), depth)
    requires SoundList(Build(calls, layout), ctx, depth)
    ensures RenderTo(Build(calls, layout), canvas, 1.0, sk, false).image
         == PaintedByCalls(calls, layout, canvas.env, canvas.image, sk)
  {
    var list := Build(calls, layout);
    DrawsOfBuild(calls, layout);
    SavedStatesDoNotMatter(list, canvas, ctx, depth, sk);
    ElisionPreservesMeaning(calls, canvas.env, layout, sk.mats);
    EventsDecideTheImage(list.ops, canvas.env, canvas.image, depth, sk);
    EventsDecideTheImage(Closed(calls, layout), canvas.env, canvas.image, depth, sk);
  }

  /** The whole pipeline: dispatching the built list with layers eliminated, to any canvas,
      paints what dispatching the raw calls with every saveLayer real would paint. */
  lemma RecordedListsPaintTheCalls(calls: seq<Op>, layout: Layout, canvas: Canvas, depth: nat, sk: Skia)
    requires Lawful(sk.mats)
    requires NoStaleDraw(calls)
    requires ListsSound(Draws(calls), depth)
    requires Sound(BuiltForest(calls, layout), Plain, depth)
    ensures RenderTo(Build(calls, layout), canvas, 1.0, sk, true).image
         == PaintedByCalls(calls, layout, canvas.env, canvas.image, sk)
  {
    BuildIsExact(calls, layout);
    EliminationPreservesPixels(Build(calls, layout), canvas, depth, sk);
    RealLayersPaintTheCalls(calls, layout, canvas, Plain, depth, sk);
  }

  /** And at an opacity: what the calls paint on a transparent image, composited at it. */
  lemma RecordedListsFadeTheCalls(calls: seq<Op>, layout: Layout, canvas: Canvas, opacity: real, depth: nat, sk: Skia)
    requires Lawful(sk.mats)
    requires NoStaleDraw(calls) && Build(calls, layout).canApplyGroupOpacity
    requires ListsSound(Draws(calls), depth)
    requires Sound(BuiltForest(calls, layout), Inheriting, depth)
    ensures RenderTo(Build(calls, layout), canvas, opacity, sk, true).image
         == FadeOver(opacity, PaintedByCalls(calls, layout, canvas.env, ClearImage(|canvas.image|), sk), canvas.image)
  {
    BuildIsExact(calls, layout);
    GroupOpacityIsSound(Build(calls, layout), canvas, opacity, depth, sk);
    RealLayersPaintTheCalls(calls, layout, canvas.(image := ClearImage(|canvas.image|)), Inheriting, depth, sk);
  }
}
