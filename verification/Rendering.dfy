// What dispatching a balanced stream leaves alone: the opacity, the stacks and every pixel
// outside the clip; and what it depends on: the attributes, the environment, the opacity
// and the image, but not the stacks below.
module Rendering {
  import opened Basics
  import opened DisplayListOps
  import opened RecordTree
  import opened OpacityBits
  import opened Trace
  import opened Canvas
  import opened Dispatch

  // ----- Sound forests -----

  predicate EliminatedLayer(layer: LayerInfo, bit: bool) {
    bit && layer.bounds == None && layer.backdrop == None
  }

  /** Where backdrop layers may draw: anywhere (Unchecked), or not where an opacity may be
      inherited (Inheriting, as opposed to Plain). */
  datatype Context = Unchecked | Plain | Inheriting

  function Within(ctx: Context, layer: LayerInfo, bit: bool): Context {
    if ctx.Unchecked? then Unchecked else if EliminatedLayer(layer, bit) then Inheriting else Plain
  }

  /** Every nested list, to the given depth, is one a builder could have made, and backdrop
      layers draw only where the context allows it. */
  ghost predicate Sound(ns: seq<Node>, ctx: Context, depth: nat)
    decreases depth, 0, ns
  {
    ns == [] || (Sound(ns[..|ns| - 1], ctx, depth) && SoundNode(ns[|ns| - 1], ctx, depth))
  }

  ghost predicate SoundNode(n: Node, ctx: Context, depth: nat)
    decreases depth, 0, n
  {
    match n
    case Leaf(op) =>
      op.Paint? && op.draw.DrawDisplayList? ==> depth > 0 && SoundList(op.draw.list, ctx, depth - 1)
    case SaveGroup(body) => Sound(body, ctx, depth)
    case LayerGroup(layer, bit, body) =>
      (layer.backdrop.Some? ==> !ctx.Inheriting?) && Sound(body, Within(ctx, layer, bit), depth)
  }

  ghost predicate SoundList(list: DisplayList, ctx: Context, depth: nat)
    decreases depth, 1
  {
    exists ns :: IsBuilt(list, ns) && Sound(ns, ctx, depth)
  }

  // ----- Running pieces -----

  lemma {:induction false} RunConcat(s: seq<Op>, t: seq<Op>, m: Machine, sk: Skia, eliminate: bool)
    ensures Run(s + t, m, sk, eliminate) == Run(t, Run(s, m, sk, eliminate), sk, eliminate)
  {
    if t == [] {
      assert s + t == s;
    } else {
      RunConcat(s, Init(t), m, sk, eliminate);
      assert Init(s + t) == s + Init(t);
    }
  }

  lemma Run1(op: Op, m: Machine, sk: Skia, eliminate: bool)
    ensures Run([op], m, sk, eliminate) == DoOp(op, m, sk, eliminate)
  {
    assert [op][..0] == [];
  }

  lemma RunGroup(open: Op, body: seq<Op>, m: Machine, sk: Skia, eliminate: bool)
    ensures Run([open] + body + [Restore], m, sk, eliminate)
         == DoRestore(Run(body, DoOp(open, m, sk, eliminate), sk, eliminate), sk)
  {
    RunConcat([open] + body, [Restore], m, sk, eliminate);
    RunConcat([open], body, m, sk, eliminate);
    Run1(open, m, sk, eliminate);
    Run1(Restore, Run(body, DoOp(open, m, sk, eliminate), sk, eliminate), sk, eliminate);
  }

  // ----- What a balanced stream leaves alone -----

  /** The environment after a forest: groups restore theirs. */
  function ForestEnv(ns: seq<Node>, e: Env, mats: Matrices): Env {
    if ns == [] then e else
    var before := ForestEnv(ns[..|ns| - 1], e, mats);
    if ns[|ns| - 1].Leaf? then StepEnv(ns[|ns| - 1].op, before, mats) else before
  }

  predicate SameOutside(clip: seq<ClipEntry>, a: Image, b: Image, sk: Skia) {
    |a| == |b| && forall i :: 0 <= i < |a| && !Inside(clip, i, sk) ==> a[i] == b[i]
  }

  /** m' is m with new attributes, a new environment whose clip extends the old one, and a
      new image that differs only inside the old clip. */
  predicate Settled(m: Machine, m': Machine, a: Attrs, e: Env, sk: Skia) {
    && m'.attrs == a
    && m'.opacity == m.opacity
    && m'.saved == m.saved
    && m'.canvas.stack == m.canvas.stack
    && m'.canvas.env == e
    && m.canvas.env.clip <= e.clip
    && SameOutside(m.canvas.env.clip, m.canvas.image, m'.canvas.image, sk)
  }

  lemma InsidePrefix(clip: seq<ClipEntry>, clip': seq<ClipEntry>, i: nat, sk: Skia)
    requires clip <= clip' && Inside(clip', i, sk)
    ensures Inside(clip, i, sk)
  {
    assert forall k :: 0 <= k < |clip| ==> clip[k] == clip'[k];
  }

  lemma SettledTwice(m: Machine, m1: Machine, m2: Machine, sk: Skia)
    requires Settled(m, m1, m1.attrs, m1.canvas.env, sk) && Settled(m1, m2, m2.attrs, m2.canvas.env, sk)
    ensures Settled(m, m2, m2.attrs, m2.canvas.env, sk)
  {
    forall i | 0 <= i < |m.canvas.image| && !Inside(m.canvas.env.clip, i, sk)
      ensures m2.canvas.image[i] == m.canvas.image[i]
    {
      if Inside(m1.canvas.env.clip, i, sk) { InsidePrefix(m.canvas.env.clip, m1.canvas.env.clip, i, sk); }
    }
  }

  lemma {:induction false} NodeSettles(n: Node, m: Machine, ctx: Context, depth: nat, sk: Skia, eliminate: bool)
    requires WellFormedNode(n) && SoundNode(n, ctx, depth)
    ensures var m' := Run(FlatNode(n), m, sk, eliminate);
            Settled(m, m', After(FlatNode(n), m.attrs), ForestEnv([n], m.canvas.env, sk.mats), sk)
    decreases depth, 0, n, 0
  {
    SingleEnv(n, m.canvas.env, sk.mats);
    match n
    case Leaf(op) =>
      Run1(op, m, sk, eliminate);
      AfterLeaf(op, m.attrs);
      if op.Paint? && op.draw.DrawDisplayList? {
        ListSettles(op.draw.list, CanvasSave(m.canvas), m.opacity, ctx, depth - 1, sk, eliminate);
        ListIsPaint(op.draw.list, m, ctx, depth - 1, sk, eliminate);
      }
    case SaveGroup(body) =>
      AfterGroup(Save, body, m.attrs);
      GroupSettles(Save, body, m, ctx, depth, sk, eliminate);
    case LayerGroup(layer, bit, body) =>
      AfterGroup(LayerOp(layer, bit), body, m.attrs);
      GroupSettles(LayerOp(layer, bit), body, m, Within(ctx, layer, bit), depth, sk, eliminate);
  }

  lemma SingleEnv(n: Node, e: Env, mats: Matrices)
    ensures ForestEnv([n], e, mats) == if n.Leaf? then StepEnv(n.op, e, mats) else e
  {
    assert [n][..0] == [];
  }

  /** Leaving a group gives back what was saved when it was entered. */
  lemma {:induction false} GroupSettles(open: Op, body: seq<Node>, m: Machine, ctx: Context, depth: nat, sk: Skia, eliminate: bool)
    requires (open.Save? || open.SaveLayer?) && WellFormed(body) && Sound(body, ctx, depth)
    ensures Settled(m, Run([open] + Flat(body) + [Restore], m, sk, eliminate), After(Flat(body), m.attrs), m.canvas.env, sk)
    decreases depth, 0, body, 2
  {
    RunGroup(open, Flat(body), m, sk, eliminate);
    ForestSettles(body, DoOp(open, m, sk, eliminate), ctx, depth, sk, eliminate);
  }

  lemma {:induction false} ForestSettles(ns: seq<Node>, m: Machine, ctx: Context, depth: nat, sk: Skia, eliminate: bool)
    requires WellFormed(ns) && Sound(ns, ctx, depth)
    ensures var m' := Run(Flat(ns), m, sk, eliminate);
            Settled(m, m', After(Flat(ns), m.attrs), ForestEnv(ns, m.canvas.env, sk.mats), sk)
    decreases depth, 0, ns, 1
  {
    if ns == [] {
    } else {
      var init, last := ns[..|ns| - 1], ns[|ns| - 1];
      ForestSettles(init, m, ctx, depth, sk, eliminate);
      var m1 := Run(Flat(init), m, sk, eliminate);
      NodeSettles(last, m1, ctx, depth, sk, eliminate);
      RunConcat(Flat(init), FlatNode(last), m, sk, eliminate);
      AfterConcat(Flat(init), FlatNode(last), m.attrs);
      EnvSnoc(init, last, m.canvas.env, sk.mats);
      SettledTwice(m, m1, Run(Flat(ns), m, sk, eliminate), sk);
    }
  }

  lemma EnvSnoc(init: seq<Node>, last: Node, e: Env, mats: Matrices)
    ensures ForestEnv(init + [last], e, mats) == ForestEnv([last], ForestEnv(init, e, mats), mats)
  {
    assert (init + [last])[..|init|] == init && [last][..0] == [];
  }

  /** Rendering a list leaves the canvas stack as it was and stays inside the clip. */
  lemma {:induction false} ListSettles(list: DisplayList, canvas: Canvas, opacity: real, ctx: Context, depth: nat,
                                       sk: Skia, eliminate: bool)
    requires SoundList(list, ctx, depth)
    ensures var c := RenderTo(list, canvas, opacity, sk, eliminate);
            c.stack == canvas.stack && SameOutside(canvas.env.clip, canvas.image, c.image, sk)
    decreases depth, 1
  {
    var ns :| IsBuilt(list, ns) && Sound(ns, ctx, depth);
    ForestSettles(ns, Fresh(canvas, opacity), ctx, depth, sk, eliminate);
  }

  /** Drawing a nested list only changes the image. */
  lemma ListIsPaint(list: DisplayList, m: Machine, ctx: Context, depth: nat, sk: Skia, eliminate: bool)
    requires RenderTo(list, CanvasSave(m.canvas), m.opacity, sk, eliminate).stack == CanvasSave(m.canvas).stack
    ensures DoOp(Paint(DrawDisplayList(list)), m, sk, eliminate)
         == m.(canvas := m.canvas.(image := RenderTo(list, CanvasSave(m.canvas), m.opacity, sk, eliminate).image))
  {
    var c := RenderTo(list, CanvasSave(m.canvas), m.opacity, sk, eliminate);
    var restored := CanvasRestore(c, sk);
    assert restored == Canvas(m.canvas.env, c.image, m.canvas.stack);
    assert CanvasRestoreTo(restored, Depth(m.canvas.stack), sk) == restored;
    assert CanvasRestoreTo(c, Depth(m.canvas.stack), sk) == restored;
  }
}
