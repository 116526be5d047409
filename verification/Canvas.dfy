// A per-pixel model of the SkCanvas that lists are rendered to. Pixels are premultiplied
// (colour, alpha) pairs; what an operation does to the pixels inside the clip is a matter of
// the paint and of how the operation is drawn, and owes nothing to what the builder counts
// as opacity-compatible.
module Canvas {
  import opened Basics
  import opened DisplayListOps
  import opened Outlines
  import opened Trace

  datatype Pixel = Pixel(c: real, a: real)

  type Image = seq<Pixel>

  const CLEAR: Pixel := Pixel(0.0, 0.0)

  /** SrcOver: r = s + (1 - sa) * d. */
  function Over(s: Pixel, d: Pixel): Pixel {
    Pixel(s.c + (1.0 - s.a) * d.c, s.a + (1.0 - s.a) * d.a)
  }

  function Fade(opacity: real, s: Pixel): Pixel {
    Pixel(opacity * s.c, opacity * s.a)
  }

  function At(image: Image, i: nat): Pixel {
    if i < |image| then image[i] else CLEAR
  }

  function ClearImage(size: nat): Image {
    seq(size, i => CLEAR)
  }

  /** An image composited onto another at an opacity. */
  function FadeOver(opacity: real, s: Image, d: Image): Image {
    seq(|d|, i requires 0 <= i < |d| => Over(Fade(opacity, At(s, i)), d[i]))
  }

  /** What is left open about Skia: coverage of clips and bounds; into how many pieces an
      operation falls, the shade of each and how much of a pixel it covers; what colour
      filters and blend modes other than SrcOver do; vertices, shadows and image filters. */
  datatype Skia = Skia(
    mats: Matrices,
    covers: (ClipEntry, nat) -> bool,
    inBounds: (Rect, M44, nat) -> bool,
    pieces: (Look, Attrs, M44) -> nat,
    shade: (Look, nat, Attrs, M44, nat) -> Pixel,
    coverage: (Look, nat, Attrs, M44, nat) -> real,
    recolor: (nat, Pixel) -> Pixel,
    invert: Pixel -> Pixel,
    mix: (Blend, Pixel, Pixel) -> Pixel,
    ownColors: (Look, Brush, M44, Pixel, nat) -> Pixel,
    shadow: (Look, M44, Pixel, nat) -> Pixel,
    filtered: (nat, M44, Image, nat) -> Pixel,
    backdrop: (nat, M44, Image, nat) -> Pixel)

  /** A paint: attributes whose colour is opaque, and the alpha to apply. */
  datatype Brush = Brush(attrs: Attrs, alpha: real)

  predicate Inside(clip: seq<ClipEntry>, i: nat, sk: Skia) {
    forall k :: 0 <= k < |clip| ==> sk.covers(clip[k], i)
  }

  // ----- What a paint does to a pixel -----

  /** The colour goes through the colour filter, is inverted, and is blended. */
  function Painted(a: Attrs, blend: Blend, c: Pixel, d: Pixel, sk: Skia): Pixel {
    var filtered := if a.colorFilter.Some? then sk.recolor(a.colorFilter.value, c) else c;
    var inverted := if a.invertColors then sk.invert(filtered) else filtered;
    if blend == ByMode(SrcOver) then Over(inverted, d) else sk.mix(blend, inverted, d)
  }

  /** A pixel that is only partly covered keeps the rest of what was there. */
  function Partial(coverage: real, p: Pixel, d: Pixel): Pixel {
    Pixel(coverage * p.c + (1.0 - coverage) * d.c, coverage * p.a + (1.0 - coverage) * d.a)
  }

  /** A stroke of no width. */
  predicate Hairline(a: Attrs) {
    a.style != Fill && a.width <= 0.0
  }

  /** How an operation is drawn: as one piece; as pieces that may lie on each other; with
      colours of its own that the paint is combined with; or without the paint. */
  datatype Way = OnePiece | InPieces | OwnColors | Unpainted

  function WayOf(l: Look, a: Attrs): Way {
    match l
    case Figured(_) => OnePiece
    case Plainly(d) =>
      match d
      case DrawPath(_) => if Hairline(a) then InPieces else OnePiece
      case DrawArc(_, useCenter) => if useCenter && Hairline(a) then InPieces else OnePiece
      case DrawPoints(_) => InPieces
      case DrawAtlas(_, _) => InPieces
      case DrawVertices(_) => OwnColors
      case DrawShadow(_, _) => Unpainted
      case _ => OnePiece
  }

  /** drawColor brings its own blend mode. */
  function BlendUsed(l: Look, a: Attrs): Blend {
    if l.Plainly? && l.draw.DrawColor? then ByMode(l.draw.mode) else a.blend
  }

  function Piece(l: Look, k: nat, brush: Brush, m: M44, i: nat, d: Pixel, sk: Skia): Pixel {
    Partial(sk.coverage(l, k, brush.attrs, m, i),
            Painted(brush.attrs, BlendUsed(l, brush.attrs), Fade(brush.alpha, sk.shade(l, k, brush.attrs, m, i)), d, sk), d)
  }

  function Pieces(l: Look, n: nat, brush: Brush, m: M44, i: nat, d: Pixel, sk: Skia): Pixel {
    if n == 0 then d else Piece(l, n - 1, brush, m, i, Pieces(l, n - 1, brush, m, i, d, sk), sk)
  }

  function DrawPixel(l: Look, brush: Brush, e: Env, image: Image, i: nat, sk: Skia): Pixel {
    if !Inside(e.clip, i, sk) then At(image, i) else
    match WayOf(l, brush.attrs)
    case OnePiece => Piece(l, 0, brush, e.matrix, i, At(image, i), sk)
    case InPieces => Pieces(l, sk.pieces(l, brush.attrs, e.matrix), brush, e.matrix, i, At(image, i), sk)
    case OwnColors => sk.ownColors(l, brush, e.matrix, At(image, i), i)
    case Unpainted => sk.shadow(l, e.matrix, At(image, i), i)
  }

  function DrawOn(l: Look, brush: Brush, e: Env, image: Image, sk: Skia): Image {
    seq(|image|, i requires 0 <= i < |image| => DrawPixel(l, brush, e, image, i, sk))
  }

  // ----- Layers -----

  /** An open layer: how it will be composited, and the image it will be composited onto. */
  datatype OpenLayer = OpenLayer(brush: Brush, bounds: Option<Rect>, parent: Image)

  datatype Frame = Frame(env: Env, layer: Option<OpenLayer>)

  datatype Canvas = Canvas(env: Env, image: Image, stack: Stack<Frame>)

  function LayerPixel(layer: OpenLayer, e: Env, image: Image, i: nat, sk: Skia): Pixel {
    if !Inside(e.clip, i, sk) || (layer.bounds.Some? && !sk.inBounds(layer.bounds.value, e.matrix, i))
    then At(layer.parent, i)
    else
      var filter := layer.brush.attrs.imageFilter;
      var s := if filter.Some? then sk.filtered(filter.value, e.matrix, image, i) else At(image, i);
      Painted(layer.brush.attrs, layer.brush.attrs.blend, Fade(layer.brush.alpha, s), At(layer.parent, i), sk)
  }

  function Composite(layer: OpenLayer, e: Env, image: Image, sk: Skia): Image {
    seq(|layer.parent|, i requires 0 <= i < |layer.parent| => LayerPixel(layer, e, image, i, sk))
  }

  /** A new layer is transparent unless a backdrop filter fills it from what is below. */
  function LayerStart(backdrop: Option<nat>, e: Env, image: Image, sk: Skia): Image {
    if backdrop.None? then ClearImage(|image|)
    else seq(|image|, i requires 0 <= i < |image| => sk.backdrop(backdrop.value, e.matrix, image, i))
  }

  function CanvasSave(c: Canvas): Canvas {
    c.(stack := Push(c.stack, Frame(c.env, None)))
  }

  function CanvasSaveLayer(c: Canvas, bounds: Option<Rect>, brush: Brush, backdrop: Option<nat>, sk: Skia): Canvas {
    c.(stack := Push(c.stack, Frame(c.env, Some(OpenLayer(brush, bounds, c.image)))),
       image := LayerStart(backdrop, c.env, c.image, sk))
  }

  function CanvasRestore(c: Canvas, sk: Skia): Canvas {
    match c.stack
    case Empty => c
    case Push(below, frame) =>
      Canvas(frame.env,
             if frame.layer.Some? then Composite(frame.layer.value, frame.env, c.image, sk) else c.image,
             below)
  }

  function CanvasRestoreTo(c: Canvas, depth: nat, sk: Skia): Canvas
    decreases c.stack
  {
    if Depth(c.stack) <= depth then c else CanvasRestoreTo(CanvasRestore(c, sk), depth, sk)
  }
}
