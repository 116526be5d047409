// The vocabulary of the display list: rendering attributes, the operations a
// Dispatcher can receive (which are also the records of a built list), and the
// classification of operations for the group-opacity analysis.
module DisplayListOps {
  import opened Basics

  // ----- Values -----

  datatype Rect = Rect(left: real, top: real, right: real, bottom: real)

  /** A 4x4 matrix in row-major order, as SkM44 presents it. */
  datatype M44 = M44(
    m00: real, m01: real, m02: real, m03: real,
    m10: real, m11: real, m12: real, m13: real,
    m20: real, m21: real, m22: real, m23: real,
    m30: real, m31: real, m32: real, m33: real)

  const IDENTITY: M44 := M44(
    1.0, 0.0, 0.0, 0.0,
    0.0, 1.0, 0.0, 0.0,
    0.0, 0.0, 1.0, 0.0,
    0.0, 0.0, 0.0, 1.0)

  // ----- Rendering attributes -----

  type Alpha8 = a: int | 0 <= a < 256

  datatype Color = Color(alpha: Alpha8, rgb: nat)

  /** Only SrcOver matters to the opacity analysis; the other modes are numbered. */
  datatype BlendMode = SrcOver | OtherMode(mode: nat)

  /** An SkBlender; asMode is what SkPaint::asBlendMode() answers for it. */
  datatype Blender = Blender(id: nat, asMode: Option<BlendMode>)

  /** How a paint blends: by a mode, or by a blender that is not equivalent to a mode. */
  datatype Blend = ByMode(mode: BlendMode) | ByBlender(id: nat)

  /** A colour source is a plain colour (DlColorColorSource) or some shader. */
  datatype Source = PlainColor(color: Color) | Shader(id: nat)

  datatype Cap = Butt | RoundCap | Square
  datatype LineJoin = Miter | RoundJoin | Bevel
  datatype Style = Fill | Stroke | StrokeAndFill

  datatype Attrs = Attrs(
    antiAlias: bool, dither: bool, invertColors: bool,
    cap: Cap, join: LineJoin, style: Style, width: real, miter: real,
    color: Color, blend: Blend,
    source: Option<nat>, imageFilter: Option<nat>, colorFilter: Option<nat>,
    pathEffect: Option<nat>, maskFilter: Option<nat>)

  const BLACK: Color := Color(255, 0)

  const DEFAULTS: Attrs := Attrs(
    false, false, false, Butt, Miter, Fill, 0.0, 4.0, BLACK, ByMode(SrcOver),
    None, None, None, None, None)

  datatype Setting =
    | AntiAlias(on: bool)
    | Dither(on: bool)
    | InvertColors(on: bool)
    | StrokeCap(cap: Cap)
    | StrokeJoin(join: LineJoin)
    | DrawStyle(style: Style)
    | StrokeWidth(width: real)
    | StrokeMiter(limit: real)
    | PaintColor(color: Color)
    | PaintBlendMode(mode: BlendMode)
    | PaintBlender(blender: Option<Blender>)
    | ColorSource(source: Option<Source>)
    | ImageFilter(filter: Option<nat>)
    | ColorFilter(filter: Option<nat>)
    | PathEffect(effect: Option<nat>)
    | MaskFilter(filter: Option<nat>)

  function BlendOf(blender: Option<Blender>): Blend {
    match blender
    case None => ByMode(SrcOver)
    case Some(b) => if b.asMode.Some? then ByMode(b.asMode.value) else ByBlender(b.id)
  }

  /** What a setter call means for the attributes of the operations after it. A
      colour-type source means "no source, and this colour". */
  function Apply(s: Setting, a: Attrs): Attrs {
    match s
    case AntiAlias(on) => a.(antiAlias := on)
    case Dither(on) => a.(dither := on)
    case InvertColors(on) => a.(invertColors := on)
    case StrokeCap(cap) => a.(cap := cap)
    case StrokeJoin(join) => a.(join := join)
    case DrawStyle(style) => a.(style := style)
    case StrokeWidth(width) => a.(width := width)
    case StrokeMiter(limit) => a.(miter := limit)
    case PaintColor(color) => a.(color := color)
    case PaintBlendMode(mode) => a.(blend := ByMode(mode))
    case PaintBlender(blender) => a.(blend := BlendOf(blender))
    case ColorSource(None) => a.(source := None)
    case ColorSource(Some(PlainColor(color))) => a.(source := None, color := color)
    case ColorSource(Some(Shader(id))) => a.(source := Some(id))
    case ImageFilter(filter) => a.(imageFilter := filter)
    case ColorFilter(filter) => a.(colorFilter := filter)
    case PathEffect(effect) => a.(pathEffect := effect)
    case MaskFilter(filter) => a.(maskFilter := filter)
  }

  // ----- Operations -----

  datatype SaveLayerOptions = SaveLayerOptions(rendersWithAttributes: bool, canDistributeOpacity: bool) {
    function WithoutOptimizations(): SaveLayerOptions {
      SaveLayerOptions(rendersWithAttributes, false)
    }

    function WithCanDistributeOpacity(): SaveLayerOptions {
      this.(canDistributeOpacity := true)
    }
  }

  datatype Xform =
    | Translate(tx: real, ty: real)
    | Scale(sx: real, sy: real)
    | Rotate(degrees: real)
    | Skew(kx: real, ky: real)
    | Affine(xx: real, xy: real, xt: real, yx: real, yy: real, yt: real)
    | Full(m: M44)

  datatype RRectKind = IsRect | IsOval | GeneralRRect

  /** What the classification queries on a path answer, in the order clipPath asks them. */
  datatype PathKind =
    | PathIsRect(rect: Rect, finite: bool)
    | PathIsOval(oval: Rect)
    | PathIsRRect(bounds: Rect, kind: RRectKind, id: nat)
    | GeneralPath

  datatype Shape =
    | RectShape(rect: Rect, finite: bool)
    | RRectShape(bounds: Rect, kind: RRectKind, id: nat)
    | PathShape(id: nat, pathKind: PathKind, inverse: bool, bounds: Rect)

  datatype ClipOp = Intersect | Difference

  datatype Figure =
    | Line(id: nat)
    | RectFigure(rect: Rect)
    | OvalFigure(rect: Rect)
    | Circle(id: nat)
    | RRectFigure(bounds: Rect, kind: RRectKind, id: nat)
    | DRRect(id: nat)
    | TextBlob(id: nat)

  datatype Draw =
    | DrawPaint
    | DrawColor(color: Color, mode: BlendMode)
    | DrawFigure(figure: Figure)
    | DrawPath(id: nat)
    | DrawArc(id: nat, useCenter: bool)
    | DrawPoints(id: nat)
    | DrawVertices(id: nat)
    | DrawImage(id: nat, withAttributes: bool)
    | DrawAtlas(id: nat, withAttributes: bool)
    | DrawPicture(id: nat, approximateOps: nat, approximateBytes: nat, withAttributes: bool)
    | DrawDisplayList(list: DisplayList)
    | DrawShadow(id: nat, transparentOccluder: bool)

  /** One call on a Dispatcher. Every record of a built list dispatches exactly one call,
      so the same type serves for records; the finite flag of a transform is the answer of
      the finiteness guard on its operands. */
  datatype Op =
    | Set(setting: Setting)
    | Save
    | SaveLayer(bounds: Option<Rect>, options: SaveLayerOptions, backdrop: Option<nat>)
    | Restore
    | Transform(xform: Xform, finite: bool)
    | TransformReset
    | Clip(shape: Shape, clipOp: ClipOp, aa: bool)
    | Paint(draw: Draw)

  datatype DisplayList = DisplayList(
    ops: seq<Op>,
    byteCount: nat, opCount: U32,
    nestedByteCount: nat, nestedOpCount: U32,
    canApplyGroupOpacity: bool)

  /** The amount by which a record raises the op count. */
  function OpIncrement(op: Op): nat {
    if op.Set? || op.TransformReset? then 0 else 1
  }

  // ----- Normal forms -----

  predicate IsMultipleOf360(degrees: real) {
    (degrees / 360.0).Floor as real * 360.0 == degrees
  }

  predicate IsAffine(m: M44) {
    && m.m02 == 0.0 && m.m12 == 0.0
    && m.m20 == 0.0 && m.m21 == 0.0 && m.m22 == 1.0 && m.m23 == 0.0
    && m.m30 == 0.0 && m.m31 == 0.0 && m.m32 == 0.0 && m.m33 == 1.0
  }

  predicate IsIdentity(x: Xform) {
    match x
    case Translate(tx, ty) => tx == 0.0 && ty == 0.0
    case Scale(sx, sy) => sx == 1.0 && sy == 1.0
    case Rotate(degrees) => IsMultipleOf360(degrees)
    case Skew(kx, ky) => kx == 0.0 && ky == 0.0
    case Affine(xx, xy, xt, yx, yy, yt) =>
      xx == 1.0 && xy == 0.0 && xt == 0.0 && yx == 0.0 && yy == 1.0 && yt == 0.0
    case Full(m) => m == IDENTITY
  }

  /** The record made for a transform call, if any: a full matrix that is affine is
      demoted, and identities and non-finite operands are dropped. */
  function ReduceTransform(x: Xform, finite: bool): Option<Xform> {
    var x' := if x.Full? && IsAffine(x.m)
              then Affine(x.m.m00, x.m.m01, x.m.m03, x.m.m10, x.m.m11, x.m.m13) else x;
    if (finite || x.Rotate?) && !IsIdentity(x') then Some(x') else None
  }

  function ReduceRRect(bounds: Rect, kind: RRectKind, id: nat): Shape {
    if kind == IsRect then RectShape(bounds, true) else RRectShape(bounds, kind, id)
  }

  /** The simplest shape that clips the same region. */
  function ReduceShape(shape: Shape): Shape {
    match shape
    case RectShape(_, _) => shape
    case RRectShape(bounds, kind, id) => ReduceRRect(bounds, kind, id)
    case PathShape(_, kind, inverse, _) =>
      if inverse then shape else
      match kind
      case PathIsRect(rect, finite) => RectShape(rect, finite)
      case PathIsOval(oval) => RRectShape(oval, IsOval, 0)
      case PathIsRRect(bounds, kind, id) => ReduceRRect(bounds, kind, id)
      case GeneralPath => shape
  }

  /** A clip by a non-finite rectangle is ignored. */
  predicate ClipIsIgnored(shape: Shape) {
    ReduceShape(shape).RectShape? && !ReduceShape(shape).finite
  }

  function ReduceDraw(d: Draw): Draw {
    if d.DrawFigure? && d.figure.RRectFigure? && d.figure.kind == IsRect then
      DrawFigure(RectFigure(d.figure.bounds))
    else if d.DrawFigure? && d.figure.RRectFigure? && d.figure.kind == IsOval then
      DrawFigure(OvalFigure(d.figure.bounds))
    else d
  }

  // ----- Group-opacity classification -----

  /** The attributes of an operation let it take an inherited opacity. */
  predicate Compatible(a: Attrs) {
    a.colorFilter == None && !a.invertColors && a.blend == ByMode(SrcOver)
  }

  function WeightOf(compatible: bool): Weight {
    if compatible then SINGLE else TOO_MANY
  }

  function DrawWeight(d: Draw, a: Attrs): Weight {
    match d
    case DrawPaint => WeightOf(Compatible(a))
    case DrawColor(_, mode) => WeightOf(mode == SrcOver)
    case DrawFigure(_) => WeightOf(Compatible(a))
    case DrawPath(_) => WeightOf(Compatible(a) && (a.style == Fill || a.width > 0.0))
    case DrawArc(_, useCenter) =>
      WeightOf(Compatible(a) && (useCenter ==> a.style == Fill || a.width > 0.0))
    case DrawImage(_, withAttributes) => WeightOf(!withAttributes || Compatible(a))
    case DrawPicture(_, _, _, withAttributes) => WeightOf(!withAttributes || Compatible(a))
    case DrawDisplayList(list) => WeightOf(list.canApplyGroupOpacity)
    case DrawPoints(_) => TOO_MANY
    case DrawVertices(_) => TOO_MANY
    case DrawAtlas(_, _) => TOO_MANY
    case DrawShadow(_, _) => TOO_MANY
  }
}
