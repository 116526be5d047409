// What DisplayListBuilder records, as a function of the calls it receives. The state is
// the stack of save levels, each holding the forest recorded inside it so far; flattening
// the stack gives the byte stream. The imperative builder is proved against this.
module Recorder {
  import opened Basics
  import opened DisplayListOps
  import opened RecordTree

  /** A level is the base, a save whose record is still deferred, a save that has been
      recorded, or a saveLayer. */
  datatype Kind = Base | Deferred | Saved | Layer(layer: LayerInfo)

  /** weight is the opacity bookkeeping of a level: TOO_MANY stands for
      cannot_inherit_opacity, SINGLE for has_compatible_op without it. */
  datatype Level = Level(kind: Kind, weight: Weight, nodes: seq<Node>)

  type Levels = Stack<Level>

  datatype Recorder = Recorder(levels: Levels, attrs: Attrs, nestedBytes: nat, nestedOps: U32)

  /** Sizes that depend on the platform: of each record in the buffer, and of the
      DisplayList object itself. */
  datatype Layout = Layout(sizeOf: Op -> nat, listHeader: nat)

  const START: Recorder := Recorder(Push(Empty, Level(Base, NOTHING, [])), DEFAULTS, 0, 0)

  // ----- The stream held by a stack of levels -----

  function OpenRecord(kind: Kind): seq<Op> {
    match kind
    case Base => []
    case Deferred => []
    case Saved => [Save]
    case Layer(layer) => [LayerOp(layer, false)]
  }

  function Stream(ls: Levels): seq<Op> {
    match ls
    case Empty => []
    case Push(below, top) => Stream(below) + OpenRecord(top.kind) + Flat(top.nodes)
  }

  /** The attributes that replaying the stream so far establishes. */
  function Replayed(ls: Levels): Attrs {
    After(Stream(ls), DEFAULTS)
  }

  // ----- Steps -----

  /** Adds a node to the innermost level whose save has been recorded. */
  function Append(ls: Levels, n: Node): Levels {
    match ls
    case Empty => Empty
    case Push(below, top) =>
      if top.kind.Deferred? then Push(Append(below, n), top)
      else Push(below, top.(nodes := top.nodes + [n]))
  }

  function AddWeight(ls: Levels, w: Weight): Levels {
    match ls
    case Empty => Empty
    case Push(below, top) => Push(below, top.(weight := Join(top.weight, w)))
  }

  /** Before a transform or clip is recorded, a deferred save is. */
  function Flush(ls: Levels): Levels {
    match ls
    case Empty => Empty
    case Push(below, top) => if top.kind.Deferred? then Push(below, top.(kind := Saved)) else ls
  }

  predicate IsDeferred(ls: Levels) {
    ls.Push? && ls.top.kind.Deferred?
  }

  /** The setter that ends up recorded for a setter call, if any. */
  function RecordedSetting(s: Setting, a: Attrs): Option<Setting> {
    match s
    case ColorSource(Some(PlainColor(color))) =>
      if a.color == color then None else Some(PaintColor(color))
    case PaintBlender(blender) =>
      if BlendOf(blender) == a.blend then None
      else if BlendOf(blender).ByMode? then Some(PaintBlendMode(BlendOf(blender).mode))
      else Some(s)
    case _ => if Apply(s, a) == a then None else Some(s)
  }

  function StepSet(r: Recorder, s: Setting): Recorder {
    var recorded := RecordedSetting(s, r.attrs);
    r.(levels := if recorded.Some? then Append(r.levels, Leaf(Set(recorded.value))) else r.levels,
       attrs := Apply(s, r.attrs))
  }

  function StepSave(r: Recorder): Recorder {
    r.(levels := Push(r.levels, Level(Deferred, NOTHING, [])))
  }

  function StepSaveLayer(r: Recorder, layer: LayerInfo): Recorder {
    r.(levels := Push(AddWeight(r.levels, LayerWeight(layer, r.attrs)),
                      Level(Layer(layer), OwnWeight(layer, r.attrs), [])))
  }

  /** The node left behind by a level that is closed, if any. */
  function ClosedNode(l: Level): Option<Node> {
    match l.kind
    case Layer(layer) => Some(LayerGroup(layer, l.weight != TOO_MANY, l.nodes))
    case Saved => Some(SaveGroup(l.nodes))
    case _ => None
  }

  /** A layer counted in its parent when it was opened; other levels are counted now. */
  function Close(below: Levels, l: Level): Levels {
    var ls := if l.kind.Layer? then below else AddWeight(below, l.weight);
    if ClosedNode(l).Some? then Append(ls, ClosedNode(l).value) else ls
  }

  /** There is a level above the base. */
  predicate CanRestore(ls: Levels) {
    ls.Push? && ls.below.Push?
  }

  function StepRestore(r: Recorder): Recorder {
    if !CanRestore(r.levels) then r else r.(levels := Close(r.levels.below, r.levels.top))
  }

  /** A transform or clip record, preceded by the save it was waiting for. */
  function StepEnvOp(r: Recorder, op: Op): Recorder {
    r.(levels := Append(Flush(r.levels), Leaf(op)))
  }

  function StepTransform(r: Recorder, x: Xform, finite: bool): Recorder {
    var x' := ReduceTransform(x, finite);
    if x'.Some? then StepEnvOp(r, Transform(x'.value, finite)) else r
  }

  function StepClip(r: Recorder, shape: Shape, clipOp: ClipOp, aa: bool): Recorder {
    if ClipIsIgnored(shape) then r else StepEnvOp(r, Clip(ReduceShape(shape), clipOp, aa))
  }

  function ListOps(list: DisplayList): U32 {
    Wrap32(list.opCount + list.nestedOpCount)
  }

  function ListBytes(list: DisplayList, layout: Layout): nat {
    layout.listHeader + list.byteCount + list.nestedByteCount
  }

  function NestedOps(d: Draw): int {
    match d
    case DrawDisplayList(list) => ListOps(list) - 1
    case DrawPicture(_, ops, _, _) => ops - 1
    case _ => 0
  }

  function NestedBytes(d: Draw, layout: Layout): nat {
    match d
    case DrawDisplayList(list) => ListBytes(list, layout)
    case DrawPicture(_, _, bytes, _) => bytes
    case _ => 0
  }

  function StepDraw(r: Recorder, d: Draw, layout: Layout): Recorder {
    Recorder(Append(AddWeight(r.levels, DrawWeight(d, r.attrs)), Leaf(Paint(d))), r.attrs,
             r.nestedBytes + NestedBytes(d, layout), Wrap32(r.nestedOps + NestedOps(d)))
  }

  function LayerOf(op: Op): LayerInfo
    requires op.SaveLayer?
  {
    LayerInfo(op.bounds, op.options.rendersWithAttributes, op.backdrop)
  }

  function Step(r: Recorder, op: Op, layout: Layout): Recorder {
    match op
    case Set(s) => StepSet(r, s)
    case Save => StepSave(r)
    case SaveLayer(_, _, _) => StepSaveLayer(r, LayerOf(op))
    case Restore => StepRestore(r)
    case Transform(x, finite) => StepTransform(r, x, finite)
    case TransformReset => StepEnvOp(r, op)
    case Clip(shape, clipOp, aa) => StepClip(r, shape, clipOp, aa)
    case Paint(d) => StepDraw(r, ReduceDraw(d), layout)
  }

  /** The recorder after some more calls. */
  function Record(calls: seq<Op>, r: Recorder, layout: Layout): Recorder {
    if calls == [] then r else Step(Record(Init(calls), r, layout), Last(calls), layout)
  }

  lemma Record1(op: Op, r: Recorder, layout: Layout)
    ensures Record([op], r, layout) == Step(r, op, layout)
  {
    assert Init([op]) == [];
  }

  function Restores(n: nat): (s: seq<Op>)
    ensures |s| == n
  {
    seq(n, _ => Restore)
  }

  /** The calls followed by the restores with which Build() closes every open level. */
  function Closed(calls: seq<Op>, layout: Layout): seq<Op> {
    var depth := Depth(Record(calls, START, layout).levels);
    calls + Restores(if depth == 0 then 0 else depth - 1)
  }

  function Bytes(ops: seq<Op>, layout: Layout): nat {
    if ops == [] then 0 else Bytes(Init(ops), layout) + layout.sizeOf(Last(ops))
  }

  function Increments(ops: seq<Op>): nat {
    if ops == [] then 0 else Increments(Init(ops)) + OpIncrement(Last(ops))
  }

  function ListOf(r: Recorder, layout: Layout): DisplayList {
    var ops := Stream(r.levels);
    DisplayList(ops, Bytes(ops, layout), Wrap32(Increments(ops)), r.nestedBytes, r.nestedOps,
                r.levels.Push? && r.levels.top.weight != TOO_MANY)
  }

  /** The first list built from a fresh builder that received these calls. */
  function Build(calls: seq<Op>, layout: Layout): DisplayList {
    ListOf(Record(Closed(calls, layout), START, layout), layout)
  }
}
