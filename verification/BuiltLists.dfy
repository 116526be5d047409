// The rendering results for the lists that builders make: a list and every list nested in
// it, at any depth, each built from some calls on a fresh builder.
module BuiltLists {
  import opened Basics
  import opened DisplayListOps
  import opened Outlines
  import opened RecordTree
  import opened Recorder
  import opened OpacityBits
  import opened Trace
  import opened Canvas
  import opened Dispatch
  import opened Rendering
  import opened LayerElimination
  import opened RenderResults
  import opened NestedCounts
  import opened Elision
  import opened CanvasDispatcher

  // ----- Lists made by builders -----

  ghost predicate MadeDraw(d: Draw, backdrops: bool, layout: Layout)
    decreases d
  {
    d.DrawDisplayList? ==> Made(d.list, backdrops, layout)
  }

  /** Unless they are allowed, no layer has a backdrop. */
  ghost predicate MadeOp(op: Op, backdrops: bool, layout: Layout)
    decreases op
  {
    && (op.SaveLayer? && op.backdrop.Some? ==> backdrops)
    && (op.Paint? ==> MadeDraw(op.draw, backdrops, layout))
  }

  ghost predicate MadeOps(ops: seq<Op>, backdrops: bool, layout: Layout)
    decreases ops
  {
    ops == [] || (MadeOps(ops[..|ops| - 1], backdrops, layout) && MadeOp(ops[|ops| - 1], backdrops, layout))
  }

  ghost predicate Made(list: DisplayList, backdrops: bool, layout: Layout)
    decreases list
  {
    (exists calls :: list == Build(calls, layout)) && MadeOps(list.ops, backdrops, layout)
  }

  // ----- How deep lists are nested -----

  function Larger(a: nat, b: nat): nat {
    if a <= b then b else a
  }

  function DrawNesting(d: Draw): nat
    decreases d
  {
    if d.DrawDisplayList? then Nesting(d.list) + 1 else 0
  }

  function OpNesting(op: Op): nat
    decreases op
  {
    if op.Paint? then DrawNesting(op.draw) else 0
  }

  function OpsNesting(ops: seq<Op>): nat
    decreases ops
  {
    if ops == [] then 0 else Larger(OpsNesting(ops[..|ops| - 1]), OpNesting(ops[|ops| - 1]))
  }

  function Nesting(list: DisplayList): nat
    decreases list
  {
    OpsNesting(list.ops)
  }

  // ----- Made lists are sound -----

  lemma {:induction false} MadeConcat(s: seq<Op>, t: seq<Op>, backdrops: bool, layout: Layout)
    ensures MadeOps(s + t, backdrops, layout) <==> MadeOps(s, backdrops, layout) && MadeOps(t, backdrops, layout)
    ensures OpsNesting(s + t) == Larger(OpsNesting(s), OpsNesting(t))
  {
    if t == [] {
      assert s + t == s;
    } else {
      MadeConcat(s, t[..|t| - 1], backdrops, layout);
      assert (s + t)[..|s + t| - 1] == s + t[..|t| - 1];
    }
  }

  lemma MadeSingle(op: Op, backdrops: bool, layout: Layout)
    ensures MadeOps([op], backdrops, layout) <==> MadeOp(op, backdrops, layout)
    ensures OpsNesting([op]) == OpNesting(op)
  {
    assert [op][..0] == [];
  }

  lemma MadeGroup(open: Op, body: seq<Op>, backdrops: bool, layout: Layout)
    requires MadeOps([open] + body + [Restore], backdrops, layout)
    ensures MadeOp(open, backdrops, layout) && MadeOps(body, backdrops, layout)
    ensures OpsNesting(body) <= OpsNesting([open] + body + [Restore])
  {
    MadeConcat([open] + body, [Restore], backdrops, layout);
    MadeConcat([open], body, backdrops, layout);
    MadeSingle(open, backdrops, layout);
  }

  lemma {:induction false} ForestIsSound(ns: seq<Node>, ctx: Context, depth: nat, backdrops: bool, layout: Layout)
    requires MadeOps(Flat(ns), backdrops, layout) && OpsNesting(Flat(ns)) <= depth && (backdrops ==> ctx.Unchecked?)
    ensures Sound(ns, ctx, depth)
    decreases depth, 0, ns, 1
  {
    if ns == [] {
    } else {
      var init, last := ns[..|ns| - 1], ns[|ns| - 1];
      MadeConcat(Flat(init), FlatNode(last), backdrops, layout);
      ForestIsSound(init, ctx, depth, backdrops, layout);
      NodeIsSound(last, ctx, depth, backdrops, layout);
    }
  }

  lemma {:induction false} NodeIsSound(n: Node, ctx: Context, depth: nat, backdrops: bool, layout: Layout)
    requires MadeOps(FlatNode(n), backdrops, layout) && OpsNesting(FlatNode(n)) <= depth && (backdrops ==> ctx.Unchecked?)
    ensures SoundNode(n, ctx, depth)
    decreases depth, 0, n, 0
  {
    match n
    case Leaf(op) =>
      MadeSingle(op, backdrops, layout);
      if op.Paint? && op.draw.DrawDisplayList? {
        MadeIsSound(op.draw.list, ctx, depth - 1, backdrops, layout);
      }
    case SaveGroup(body) =>
      MadeGroup(Save, Flat(body), backdrops, layout);
      ForestIsSound(body, ctx, depth, backdrops, layout);
    case LayerGroup(layer, bit, body) =>
      MadeGroup(LayerOp(layer, bit), Flat(body), backdrops, layout);
      ForestIsSound(body, Within(ctx, layer, bit), depth, backdrops, layout);
  }

  lemma {:induction false} MadeIsSound(list: DisplayList, ctx: Context, depth: nat, backdrops: bool, layout: Layout)
    requires Made(list, backdrops, layout) && Nesting(list) <= depth && (backdrops ==> ctx.Unchecked?)
    ensures SoundList(list, ctx, depth)
    decreases depth, 1
  {
    var calls :| list == Build(calls, layout);
    BuildIsExact(calls, layout);
    ForestIsSound(BuiltForest(calls, layout), ctx, depth, backdrops, layout);
  }

  lemma {:induction false} DrawnListsAreSound(ops: seq<Op>, depth: nat, layout: Layout)
    requires MadeOps(ops, false, layout) && OpsNesting(ops) <= depth
    ensures ListsSound(Draws(ops), depth)
  {
    if ops == [] {
    } else {
      DrawnListsAreSound(Init(ops), depth, layout);
      LastDraw(ops);
      assert MadeOp(Last(ops), false, layout) && OpNesting(Last(ops)) <= depth;
      if Last(ops).Paint? && Last(ops).draw.DrawDisplayList? {
        assert MadeDraw(Last(ops).draw, false, layout) && DrawNesting(Last(ops).draw) <= depth;
        MadeIsSound(Last(ops).draw.list, Unchecked, depth, false, layout);
      }
      forall l | l in Draws(ops) && l.Plainly? && l.draw.DrawDisplayList?
        ensures SoundList(l.draw.list, Unchecked, depth)
      {
        assert Last(ops).Paint? ==> Draws(ops) == Draws(Init(ops)) + [LookOf(Last(ops).draw)];
      }
    }
  }

  // ----- The results -----

  /** The nested-render assertion never fires: once the outermost RenderTo of a list made by
      builders has passed its check, every nested one does, backdrops or not. */
  lemma NestedChecksNeverFire(list: DisplayList, canvas: Canvas, opacity: real, layout: Layout, sk: Skia)
    requires Made(list, true, layout) && MayRender(list, opacity)
    ensures ListChecks(list, canvas, opacity, sk)
  {
    MadeIsSound(list, Unchecked, Nesting(list), true, layout);
    ListChecksPass(list, canvas, opacity, Nesting(list), sk);
  }

  /** For every list made by builders without backdrops, dispatching distributable layers as
      plain saves leaves the canvas exactly as real layers do, whatever is on it. */
  lemma LayerEliminationPreservesPixels(list: DisplayList, canvas: Canvas, layout: Layout, sk: Skia)
    requires Made(list, false, layout)
    ensures RenderTo(list, canvas, 1.0, sk, true) == RenderTo(list, canvas, 1.0, sk, false)
  {
    MadeIsSound(list, Plain, Nesting(list), false, layout);
    EliminationPreservesPixels(list, canvas, Nesting(list), sk);
  }

  /** If such a list says it can apply group opacity, rendering it at an opacity is rendering
      it into a transparent layer and compositing that. */
  lemma ListOpacityIsSound(list: DisplayList, canvas: Canvas, opacity: real, layout: Layout, sk: Skia)
    requires Made(list, false, layout) && list.canApplyGroupOpacity
    ensures RenderTo(list, canvas, opacity, sk, true).image
         == FadeOver(opacity,
                     RenderTo(list, canvas.(image := ClearImage(|canvas.image|)), 1.0, sk, false).image,
                     canvas.image)
  {
    MadeIsSound(list, Inheriting, Nesting(list), false, layout);
    GroupOpacityIsSound(list, canvas, opacity, Nesting(list), sk);
  }

  lemma CallsAreSound(calls: seq<Op>, ctx: Context, layout: Layout)
    requires Made(Build(calls, layout), false, layout)
    ensures Sound(BuiltForest(calls, layout), ctx, Nesting(Build(calls, layout)))
    ensures ListsSound(Draws(calls), Nesting(Build(calls, layout)))
  {
    var list := Build(calls, layout);
    BuildIsExact(calls, layout);
    ForestIsSound(BuiltForest(calls, layout), ctx, Nesting(list), false, layout);
    DrawsOfBuild(calls, layout);
    DrawnListsAreSound(list.ops, Nesting(list), layout);
  }

  /** From calls to pixels: if nothing is drawn with a stale source and the list built is one
      without backdrops, dispatching it to any canvas with layers eliminated paints what the
      calls themselves would paint there with every saveLayer a real layer. */
  lemma CallsToPixels(calls: seq<Op>, layout: Layout, canvas: Canvas, sk: Skia)
    requires Lawful(sk.mats) && NoStaleDraw(calls) && Made(Build(calls, layout), false, layout)
    ensures RenderTo(Build(calls, layout), canvas, 1.0, sk, true).image
         == PaintedByCalls(calls, layout, canvas.env, canvas.image, sk)
  {
    CallsAreSound(calls, Plain, layout);
    RecordedListsPaintTheCalls(calls, layout, canvas, Nesting(Build(calls, layout)), sk);
  }

  /** And at every opacity, if the list says that it can take one: what the calls paint on a
      transparent image, composited at that opacity. */
  lemma CallsToFadedPixels(calls: seq<Op>, layout: Layout, canvas: Canvas, opacity: real, sk: Skia)
    requires Lawful(sk.mats) && NoStaleDraw(calls) && Made(Build(calls, layout), false, layout)
    requires Build(calls, layout).canApplyGroupOpacity
    ensures RenderTo(Build(calls, layout), canvas, opacity, sk, true).image
         == FadeOver(opacity, PaintedByCalls(calls, layout, canvas.env, ClearImage(|canvas.image|), sk), canvas.image)
  {
    CallsAreSound(calls, Inheriting, layout);
    RecordedListsFadeTheCalls(calls, layout, canvas, opacity, Nesting(Build(calls, layout)), sk);
  }

  /** A list made by builders can be rendered to a canvas: all checks on the way pass, and
      without backdrops the canvas ends as it would with real layers only. */
  method RenderMadeList(list: DisplayList, canvas: SkCanvas, opacity: real, ghost layout: Layout)
    requires 0.0 <= opacity <= 1.0 && MayRender(list, opacity) && Made(list, true, layout)
    modifies canvas
    ensures canvas.state == RenderTo(list, old(canvas.state), opacity, canvas.sk, true)
    ensures opacity == 1.0 && Made(list, false, layout) ==>
              canvas.state == RenderTo(list, old(canvas.state), 1.0, canvas.sk, false)
  {
    NestedChecksNeverFire(list, canvas.state, opacity, layout, canvas.sk);
    if opacity == 1.0 && Made(list, false, layout) {
      LayerEliminationPreservesPixels(list, canvas.state, layout, canvas.sk);
    }
    RenderList(list, canvas, opacity);
  }
}
