// What a drawing or a clip looks like, however it is expressed: a rounded rectangle that is
// an oval looks like the oval of its bounds, and a path that is a rectangle like the
// rectangle. What Skia does depends on looks only.
module Outlines {
  import opened Basics
  import opened DisplayListOps

  datatype Outline =
    | RectOutline(rect: Rect)
    | OvalOutline(bounds: Rect)
    | RRectOutline(bounds: Rect, id: nat)
    | PathOutline(id: nat, inverse: bool)
    | OtherOutline(figure: Figure)

  function RRectLooks(bounds: Rect, kind: RRectKind, id: nat): Outline {
    match kind
    case IsRect => RectOutline(bounds)
    case IsOval => OvalOutline(bounds)
    case GeneralRRect => RRectOutline(bounds, id)
  }

  function FigureOutline(f: Figure): Outline {
    match f
    case RectFigure(rect) => RectOutline(rect)
    case OvalFigure(rect) => OvalOutline(rect)
    case RRectFigure(bounds, kind, id) => RRectLooks(bounds, kind, id)
    case _ => OtherOutline(f)
  }

  /** What a clip is made by; a rectangle that is not finite clips nothing. */
  function ShapeOutline(shape: Shape): Option<Outline> {
    match shape
    case RectShape(rect, finite) => if finite then Some(RectOutline(rect)) else None
    case RRectShape(bounds, kind, id) => Some(RRectLooks(bounds, kind, id))
    case PathShape(id, _, true, _) => Some(PathOutline(id, true))
    case PathShape(_, PathIsRect(rect, finite), false, _) => if finite then Some(RectOutline(rect)) else None
    case PathShape(_, PathIsOval(oval), false, _) => Some(OvalOutline(oval))
    case PathShape(_, PathIsRRect(bounds, kind, id), false, _) => Some(RRectLooks(bounds, kind, id))
    case PathShape(id, GeneralPath, false, _) => Some(PathOutline(id, false))
  }

  /** A figure is known by its outline, any other operation by itself. */
  datatype Look = Figured(outline: Outline) | Plainly(draw: Draw)

  function LookOf(d: Draw): Look {
    if d.DrawFigure? then Figured(FigureOutline(d.figure)) else Plainly(d)
  }

  // ----- What is recorded looks like what was called -----

  lemma ReducedLooks(d: Draw)
    ensures LookOf(ReduceDraw(d)) == LookOf(d)
  {
  }

  lemma ReducedOutline(shape: Shape)
    ensures ClipIsIgnored(shape) <==> ShapeOutline(shape) == None
    ensures ShapeOutline(ReduceShape(shape)) == ShapeOutline(shape)
  {
  }
}
