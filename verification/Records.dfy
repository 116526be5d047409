// What single calls leave behind: whether they are recorded, in which form, what they do to
// the matrix and to the attributes, and what they count for.
module Records {
  import opened Basics
  import opened DisplayListOps
  import opened Outlines
  import opened RecordTree
  import opened Recorder
  import opened OpacityBits
  import opened Emission
  import opened Trace
  import opened Elision
  import opened Rerecording
  import opened Vectors

  // ----- The forms that are recorded -----

  lemma {:induction false} NormalIsReduced(ns: seq<Node>, op: Op)
    requires Normal(ns) && op in Flat(ns)
    ensures IsReduced(op)
    decreases ns, 1
  {
    var init, last := ns[..|ns| - 1], ns[|ns| - 1];
    if op in Flat(init) {
      NormalIsReduced(init, op);
    } else {
      NormalNodeIsReduced(last, op);
    }
  }

  lemma {:induction false} NormalNodeIsReduced(n: Node, op: Op)
    requires NormalNode(n) && op in FlatNode(n)
    ensures IsReduced(op)
    decreases n, 0
  {
    match n
    case Leaf(_) =>
    case SaveGroup(body) => if op in Flat(body) { NormalIsReduced(body, op); }
    case LayerGroup(_, _, body) => if op in Flat(body) { NormalIsReduced(body, op); }
  }

  lemma BuiltIsReduced(calls: seq<Op>, layout: Layout, op: Op)
    requires op in Build(calls, layout).ops
    ensures IsReduced(op)
  {
    BuildIsExact(calls, layout);
    ClosedRecording(calls, layout);
    NormalIsReduced(BuiltForest(calls, layout), op);
  }

  function FullTurns(n: int): real {
    360.0 * n as real
  }

  /** A multiple of 360 degrees is what it says. */
  lemma MultiplesOf360(degrees: real)
    ensures IsMultipleOf360(degrees) <==> exists n :: degrees == FullTurns(n)
  {
    if IsMultipleOf360(degrees) {
      assert degrees == FullTurns((degrees / 360.0).Floor);
    }
    if n :| degrees == FullTurns(n) {
      assert degrees / 360.0 == n as real;
    }
  }

  lemma AffineIsRecognised(m: M44, xx: real, xy: real, xt: real, yx: real, yy: real, yt: real)
    requires m == AffineMatrix(xx, xy, xt, yx, yy, yt)
    ensures IsAffine(m)
  {
  }

  /** Whatever was called, a built list holds no rounded rectangle that is a rectangle or an
      oval, no path to clip by that is a simpler shape, no clip or transform that is not
      finite, no full matrix that is affine, and no transform that does nothing. */
  lemma SimplestForms(calls: seq<Op>, layout: Layout, op: Op, mats: Matrices)
    requires op in Build(calls, layout).ops
    ensures op.Paint? && op.draw.DrawFigure? && op.draw.figure.RRectFigure? ==> op.draw.figure.kind == GeneralRRect
    ensures op.Clip? ==> ShapeOutline(op.shape).Some?
    ensures op.Clip? && op.shape.RRectShape? ==> op.shape.kind != IsRect
    ensures op.Clip? && op.shape.PathShape? ==> op.shape.inverse || op.shape.pathKind == GeneralPath
    ensures op.Transform? && op.xform.Full? ==>
              forall xx, xy, xt, yx, yy, yt :: op.xform.m != AffineMatrix(xx, xy, xt, yx, yy, yt)
    ensures op.Transform? && !op.xform.Rotate? ==> op.finite && MatrixOf(op.xform, mats) != IDENTITY
    ensures op.Transform? && op.xform.Rotate? ==> forall n :: op.xform.degrees != FullTurns(n)
  {
    BuiltIsReduced(calls, layout, op);
    if op.Clip? { ReducedOutline(op.shape); }
    if op.Transform? && op.xform.Rotate? { MultiplesOf360(op.xform.degrees); }
    if op.Transform? && op.xform.Full? {
      forall xx, xy, xt, yx, yy, yt
        ensures op.xform.m != AffineMatrix(xx, xy, xt, yx, yy, yt)
      {
        if op.xform.m == AffineMatrix(xx, xy, xt, yx, yy, yt) {
          AffineIsRecognised(op.xform.m, xx, xy, xt, yx, yy, yt);
        }
      }
    }
  }

  /** Figures in their simplest form that look the same are the same. */
  lemma LooksDecide(f: Figure, g: Figure)
    requires f.RRectFigure? ==> f.kind == GeneralRRect
    requires g.RRectFigure? ==> g.kind == GeneralRRect
    requires FigureOutline(f) == FigureOutline(g)
    ensures f == g
  {
  }

  lemma SingleDraw(d: Draw, calls: seq<Op>, layout: Layout)
    requires calls == [Paint(d)]
    ensures Build(calls, layout).ops == [Paint(ReduceDraw(d))]
  {
    Record1(Paint(d), START, layout);
    var ls := Record(calls, START, layout).levels;
    var n := Leaf(Paint(ReduceDraw(d)));
    assert ls.top.nodes == [] + [n] == [n];
    FlatSnoc([], n);
    assert Flat([]) == [];
    assert Stream(ls) == Stream(Empty) + [] + Flat(ls.top.nodes) == [Paint(ReduceDraw(d))];
    assert Depth(ls) == 1;
    assert Closed(calls, layout) == calls + Restores(0) == calls;
  }

  /** A rounded rectangle that is an oval is recorded as the oval of its bounds, and one that
      is a rectangle as that rectangle. */
  lemma RoundedRectIsSimplified(bounds: Rect, kind: RRectKind, id: nat, calls: seq<Op>, layout: Layout)
    requires calls == [Paint(DrawFigure(RRectFigure(bounds, kind, id)))]
    ensures Build(calls, layout).ops ==
              match kind
              case IsRect => [Paint(DrawFigure(RectFigure(bounds)))]
              case IsOval => [Paint(DrawFigure(OvalFigure(bounds)))]
              case GeneralRRect => calls
  {
    SingleDraw(DrawFigure(RRectFigure(bounds, kind, id)), calls, layout);
  }

  // ----- Whether a call is recorded -----

  /** The law of a matrix product, and rotations that are what they are called. */
  ghost predicate Faithful(mats: Matrices) {
    && Lawful(mats)
    && (forall m :: mats.concat(IDENTITY, m) == m)
    && (forall degrees :: mats.rotation(degrees) == IDENTITY ==> IsMultipleOf360(degrees))
  }

  ghost predicate HasNoEffect(op: Op, mats: Matrices) {
    forall e :: StepEnv(op, e, mats) == e
  }

  /** A transform is recorded exactly if it can change the matrix. */
  lemma WhenTransformIsRecorded(r: Recorder, x: Xform, finite: bool, mats: Matrices)
    requires Faithful(mats)
    ensures Emitted(r, Transform(x, finite)) == [] <==> HasNoEffect(Transform(x, finite), mats)
  {
    var op, x' := Transform(x, finite), ReduceTransform(x, finite);
    if x'.None? {
      forall e ensures StepEnv(op, e, mats) == e {
        ReducedTransform(x, finite, e, mats);
      }
    } else {
      ReducedTransform(x, finite, START_ENV, mats);
      ReducedMoves(x, x'.value, finite, mats);
      assert StepEnv(op, START_ENV, mats) != START_ENV;
    }
  }

  lemma ReducedMoves(x: Xform, x': Xform, finite: bool, mats: Matrices)
    requires Faithful(mats) && ReduceTransform(x, finite) == Some(x')
    ensures StepEnv(Transform(x', finite), START_ENV, mats).matrix == MatrixOf(x', mats) != IDENTITY
  {
  }

  /** A clip is recorded exactly if it can change the clip: unless it is a rectangle that is
      not finite. */
  lemma WhenClipIsRecorded(r: Recorder, shape: Shape, clipOp: ClipOp, aa: bool, mats: Matrices)
    ensures Emitted(r, Clip(shape, clipOp, aa)) == [] <==> HasNoEffect(Clip(shape, clipOp, aa), mats)
  {
    ReducedOutline(shape);
    if !ClipIsIgnored(shape) {
      assert |StepEnv(Clip(shape, clipOp, aa), START_ENV, mats).clip| == 1;
    }
  }

  /** A reset makes the matrix the identity and leaves the clip, and is always recorded. */
  lemma ResetIsRecorded(r: Recorder, e: Env, mats: Matrices)
    ensures StepEnv(TransformReset, e, mats) == Env(IDENTITY, e.clip)
    ensures Emitted(r, TransformReset) != [] && Last(Emitted(r, TransformReset)) == TransformReset
  {
  }

  // ----- What transforms do to points -----

  /** The product of matrices applies the right one first. */
  ghost predicate Composes(mats: Matrices) {
    forall a, b, v :: Act(mats.concat(a, b), v) == Act(a, Act(b, v))
  }

  /** A transform acts before all earlier ones, on points as the caller gives them. */
  lemma TransformsActInside(x: Xform, e: Env, v: Vector, mats: Matrices)
    requires Composes(mats)
    ensures Act(StepEnv(Transform(x, true), e, mats).matrix, v) == Act(e.matrix, Act(MatrixOf(x, mats), v))
  {
  }

  /** What each transform does to a point of the plane. */
  lemma TransformsMovePoints(x: real, y: real, mats: Matrices)
    ensures forall tx, ty :: Act(MatrixOf(Translate(tx, ty), mats), Vector(x, y, 0.0, 1.0)) == Vector(x + tx, y + ty, 0.0, 1.0)
    ensures forall sx, sy :: Act(MatrixOf(Scale(sx, sy), mats), Vector(x, y, 0.0, 1.0)) == Vector(sx * x, sy * y, 0.0, 1.0)
    ensures forall kx, ky :: Act(MatrixOf(Skew(kx, ky), mats), Vector(x, y, 0.0, 1.0)) == Vector(x + kx * y, ky * x + y, 0.0, 1.0)
    ensures forall xx, xy, xt, yx, yy, yt ::
              Act(MatrixOf(Affine(xx, xy, xt, yx, yy, yt), mats), Vector(x, y, 0.0, 1.0))
              == Vector(xx * x + xy * y + xt, yx * x + yy * y + yt, 0.0, 1.0)
  {
  }

  /** The product of 4x4 matrices meets the laws asked for, whatever the rotations. */
  lemma ProductComposes(mats: Matrices)
    requires forall a, b :: mats.concat(a, b) == Product(a, b)
    ensures Composes(mats)
    ensures forall m :: mats.concat(m, IDENTITY) == m && mats.concat(IDENTITY, m) == m
  {
    forall a, b, v ensures Act(mats.concat(a, b), v) == Act(a, Act(b, v)) {
      ProductActs(a, b, v);
    }
    forall m ensures mats.concat(m, IDENTITY) == m && mats.concat(IDENTITY, m) == m {
      UnitProduct(m);
    }
  }

  lemma UnitProduct(m: M44)
    ensures Product(m, IDENTITY) == m && Product(IDENTITY, m) == m
  {
  }

  // ----- What setters do -----

  /** Every attribute is what the last setter for it said; others leave it alone. */
  lemma AttributesAfter(s: Setting, a: Attrs)
    ensures var b := Apply(s, a);
            && b.antiAlias == (if s.AntiAlias? then s.on else a.antiAlias)
            && b.dither == (if s.Dither? then s.on else a.dither)
            && b.invertColors == (if s.InvertColors? then s.on else a.invertColors)
            && b.cap == (if s.StrokeCap? then s.cap else a.cap)
            && b.join == (if s.StrokeJoin? then s.join else a.join)
            && b.style == (if s.DrawStyle? then s.style else a.style)
            && b.width == (if s.StrokeWidth? then s.width else a.width)
            && b.miter == (if s.StrokeMiter? then s.limit else a.miter)
            && b.imageFilter == (if s.ImageFilter? then s.filter else a.imageFilter)
            && b.colorFilter == (if s.ColorFilter? then s.filter else a.colorFilter)
            && b.pathEffect == (if s.PathEffect? then s.effect else a.pathEffect)
            && b.maskFilter == (if s.MaskFilter? then s.filter else a.maskFilter)
  {
  }

  predicate SetsPlainColor(s: Setting) {
    s.ColorSource? && s.source.Some? && s.source.value.PlainColor?
  }

  /** A colour-type source also sets the colour; a blender replaces the blend mode, and one
      that is none is SrcOver. */
  lemma ColorsAfter(s: Setting, a: Attrs)
    ensures var b := Apply(s, a);
            && b.color == (if s.PaintColor? then s.color else if SetsPlainColor(s) then s.source.value.color else a.color)
            && b.source == (if !s.ColorSource? then a.source
                            else if s.source.Some? && s.source.value.Shader? then Some(s.source.value.id) else None)
            && (!s.PaintBlendMode? && !s.PaintBlender? ==> b.blend == a.blend)
            && (s.PaintBlendMode? ==> b.blend == ByMode(s.mode))
            && (s.PaintBlender? && s.blender.None? ==> b.blend == ByMode(SrcOver))
            && (s.PaintBlender? && s.blender.Some? ==>
                  b.blend == if s.blender.value.asMode.Some? then ByMode(s.blender.value.asMode.value)
                             else ByBlender(s.blender.value.id))
  {
  }

  // ----- What is counted -----

  /** The records that are counted: all but setters and resets. */
  function CountedRecords(ops: seq<Op>): seq<Op> {
    if ops == [] then []
    else if Last(ops).Set? || Last(ops).TransformReset? then CountedRecords(Init(ops))
    else CountedRecords(Init(ops)) + [Last(ops)]
  }

  lemma {:induction false} CountedRecordsAre(ops: seq<Op>)
    ensures |CountedRecords(ops)| == Increments(ops)
    ensures forall op :: op in CountedRecords(ops) <==> op in ops && !op.Set? && !op.TransformReset?
  {
    if ops == [] {
    } else {
      CountedRecordsAre(Init(ops));
      assert ops == Init(ops) + [Last(ops)];
    }
  }

  /** A list counts its records but for setters and resets, up to 32 bits. */
  lemma ListsCountTheirRecords(calls: seq<Op>, layout: Layout)
    ensures Build(calls, layout).opCount == Wrap32(|CountedRecords(Build(calls, layout).ops)|)
  {
    CountedRecordsAre(Build(calls, layout).ops);
  }
}
