// What DisplayListCanvasDispatcher does with a stream: the attributes and the opacity that
// children inherit, and the replacement of a distributable layer by a plain save. The
// replacement can be switched off, which gives the reference rendering where every
// saveLayer is a real layer.
module Dispatch {
  import opened Basics
  import opened DisplayListOps
  import opened Outlines
  import opened Trace
  import opened Canvas

  datatype Machine = Machine(attrs: Attrs, opacity: real, saved: Stack<real>, canvas: Canvas)

  function AlphaOf(color: Color): real {
    color.alpha as real / 255.0
  }

  function Opaque(a: Attrs): Attrs {
    a.(color := Color(255, a.color.rgb))
  }

  /** safe_paint: the current paint, or a default one that carries the inherited opacity. */
  function SafePaint(withAttributes: bool, a: Attrs, opacity: real): Brush {
    if withAttributes then Brush(Opaque(a), AlphaOf(a.color) * opacity) else Brush(DEFAULTS, opacity)
  }

  function BrushFor(d: Draw, a: Attrs, opacity: real): Brush {
    match d
    case DrawColor(color, _) => Brush(DEFAULTS, AlphaOf(color) * opacity)
    case DrawImage(_, withAttributes) => SafePaint(withAttributes, a, opacity)
    case DrawAtlas(_, withAttributes) => SafePaint(withAttributes, a, opacity)
    case DrawPicture(_, _, _, withAttributes) => SafePaint(withAttributes, a, opacity)
    case DrawShadow(_, _) => Brush(DEFAULTS, 1.0)
    case _ => SafePaint(true, a, opacity)
  }

  /** The layers that are dispatched as plain saves. */
  predicate IsEliminated(op: Op) {
    op.SaveLayer? && op.bounds == None && op.options.canDistributeOpacity && op.backdrop == None
  }

  function DoLayer(op: Op, m: Machine, sk: Skia, eliminate: bool): Machine
    requires op.SaveLayer?
  {
    var withAttributes := op.options.rendersWithAttributes;
    var brush := SafePaint(withAttributes, m.attrs, m.opacity);
    if eliminate && IsEliminated(op) then
      Machine(m.attrs, if withAttributes then brush.alpha else m.opacity,
              Push(m.saved, m.opacity), CanvasSave(m.canvas))
    else
      Machine(m.attrs, 1.0, Push(m.saved, m.opacity),
              CanvasSaveLayer(m.canvas, op.bounds, brush, op.backdrop, sk))
  }

  function DoRestore(m: Machine, sk: Skia): Machine {
    var canvas := CanvasRestore(m.canvas, sk);
    match m.saved
    case Empty => m.(canvas := canvas)
    case Push(below, opacity) => Machine(m.attrs, opacity, below, canvas)
  }

  function DoDraw(d: Draw, m: Machine, sk: Skia, eliminate: bool): Machine {
    match d
    case DrawDisplayList(list) =>
      m.(canvas := CanvasRestoreTo(RenderTo(list, CanvasSave(m.canvas), m.opacity, sk, eliminate),
                                   Depth(m.canvas.stack), sk))
    case _ => m.(canvas := m.canvas.(image :=
                DrawOn(LookOf(d), BrushFor(d, m.attrs, m.opacity), m.canvas.env, m.canvas.image, sk)))
  }

  function DoOp(op: Op, m: Machine, sk: Skia, eliminate: bool): Machine {
    match op
    case Set(s) => m.(attrs := Apply(s, m.attrs))
    case Save => Machine(m.attrs, m.opacity, Push(m.saved, m.opacity), CanvasSave(m.canvas))
    case SaveLayer(_, _, _) => DoLayer(op, m, sk, eliminate)
    case Restore => DoRestore(m, sk)
    case Paint(d) => DoDraw(d, m, sk, eliminate)
    case _ => m.(canvas := m.canvas.(env := StepEnv(op, m.canvas.env, sk.mats)))
  }

  function Run(ops: seq<Op>, m: Machine, sk: Skia, eliminate: bool): Machine {
    if ops == [] then m
    else DoOp(ops[|ops| - 1], Run(ops[..|ops| - 1], m, sk, eliminate), sk, eliminate)
  }

  /** A fresh dispatcher for the canvas. */
  function Fresh(canvas: Canvas, opacity: real): Machine {
    Machine(DEFAULTS, opacity, Empty, canvas)
  }

  function RenderTo(list: DisplayList, canvas: Canvas, opacity: real, sk: Skia, eliminate: bool): Canvas {
    Run(list.ops, Fresh(canvas, opacity), sk, eliminate).canvas
  }
}
