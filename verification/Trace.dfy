// The reference meaning of a sequence of Dispatcher calls: which operations become
// visible, and under which attributes, matrix, clip and layer nesting. It is defined on
// raw calls and on recorded streams alike, and knows nothing of deferral or elision.
module Trace {
  import opened Basics
  import opened DisplayListOps
  import opened Outlines

  /** The parts of matrix arithmetic that this level of detail leaves open. */
  datatype Matrices = Matrices(concat: (M44, M44) -> M44, rotation: real -> M44)

  ghost predicate Lawful(mats: Matrices) {
    && (forall m :: mats.concat(m, IDENTITY) == m)
    && (forall degrees :: IsMultipleOf360(degrees) ==> mats.rotation(degrees) == IDENTITY)
  }

  function AffineMatrix(xx: real, xy: real, xt: real, yx: real, yy: real, yt: real): M44 {
    M44( xx,  xy, 0.0,  xt,
         yx,  yy, 0.0,  yt,
        0.0, 0.0, 1.0, 0.0,
        0.0, 0.0, 0.0, 1.0)
  }

  function MatrixOf(x: Xform, mats: Matrices): M44 {
    match x
    case Translate(tx, ty) => AffineMatrix(1.0, 0.0, tx, 0.0, 1.0, ty)
    case Scale(sx, sy) => AffineMatrix(sx, 0.0, 0.0, 0.0, sy, 0.0)
    case Rotate(degrees) => mats.rotation(degrees)
    case Skew(kx, ky) => AffineMatrix(1.0, kx, 0.0, ky, 1.0, 0.0)
    case Affine(xx, xy, xt, yx, yy, yt) => AffineMatrix(xx, xy, xt, yx, yy, yt)
    case Full(m) => m
  }

  datatype ClipEntry = ClipEntry(matrix: M44, outline: Outline, clipOp: ClipOp, aa: bool)

  /** The matrix and the clips in force; a clip remembers the matrix it was made under. */
  datatype Env = Env(matrix: M44, clip: seq<ClipEntry>)

  const START_ENV: Env := Env(IDENTITY, [])

  function StepEnv(op: Op, e: Env, mats: Matrices): Env {
    match op
    case Transform(x, finite) =>
      if finite || x.Rotate? then e.(matrix := mats.concat(e.matrix, MatrixOf(x, mats))) else e
    case TransformReset => e.(matrix := IDENTITY)
    case Clip(shape, clipOp, aa) =>
      var outline := ShapeOutline(shape);
      if outline == None then e else e.(clip := e.clip + [ClipEntry(e.matrix, outline.value, clipOp, aa)])
    case _ => e
  }

  datatype Event =
    | Drawn(look: Look, attrs: Attrs, env: Env)
    | LayerBegun(bounds: Option<Rect>, withAttributes: bool, backdrop: Option<nat>, attrs: Attrs, env: Env)
    | LayerEnded

  datatype SavedEnv = SavedEnv(env: Env, isLayer: bool)

  datatype Tracer = Tracer(attrs: Attrs, env: Env, stack: Stack<SavedEnv>, events: seq<Event>)

  function NewTracer(e: Env): Tracer {
    Tracer(DEFAULTS, e, Empty, [])
  }

  function StepTrace(op: Op, t: Tracer, mats: Matrices): Tracer {
    match op
    case Set(s) => t.(attrs := Apply(s, t.attrs))
    case Save => t.(stack := Push(t.stack, SavedEnv(t.env, false)))
    case SaveLayer(bounds, options, backdrop) =>
      t.(stack := Push(t.stack, SavedEnv(t.env, true)),
         events := t.events + [LayerBegun(bounds, options.rendersWithAttributes, backdrop, t.attrs, t.env)])
    case Restore =>
      if t.stack.Empty? then t
      else t.(stack := t.stack.below, env := t.stack.top.env,
              events := if t.stack.top.isLayer then t.events + [LayerEnded] else t.events)
    case Paint(d) => t.(events := t.events + [Drawn(LookOf(d), t.attrs, t.env)])
    case _ => t.(env := StepEnv(op, t.env, mats))
  }

  function RunTrace(ops: seq<Op>, t: Tracer, mats: Matrices): Tracer {
    if ops == [] then t else StepTrace(Last(ops), RunTrace(Init(ops), t, mats), mats)
  }

  /** Everything visible that a complete call sequence does, given the matrix and clip that
      it finds. */
  function EventsOf(ops: seq<Op>, e: Env, mats: Matrices): seq<Event> {
    RunTrace(ops, NewTracer(e), mats).events
  }
}
