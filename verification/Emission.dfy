// How the byte stream evolves call by call: each call appends a few records, and a restore
// that ends a saveLayer may also patch the matching record, at the place where it was put.
module Emission {
  import opened Basics
  import opened DisplayListOps
  import opened RecordTree
  import opened Recorder
  import opened OpacityBits

  function PendingSave(ls: Levels): seq<Op> {
    if IsDeferred(ls) then [Save] else []
  }

  /** The records a call appends. */
  function Emitted(r: Recorder, op: Op): seq<Op> {
    match op
    case Set(s) =>
      var recorded := RecordedSetting(s, r.attrs);
      if recorded.Some? then [Set(recorded.value)] else []
    case Save => []
    case SaveLayer(_, _, _) => [LayerOp(LayerOf(op), false)]
    case Restore => if !CanRestore(r.levels) || IsDeferred(r.levels) then [] else [Restore]
    case Transform(x, finite) =>
      var x' := ReduceTransform(x, finite);
      if x'.Some? then PendingSave(r.levels) + [Transform(x'.value, finite)] else []
    case TransformReset => PendingSave(r.levels) + [op]
    case Clip(shape, clipOp, aa) =>
      if ClipIsIgnored(shape) then [] else PendingSave(r.levels) + [Clip(ReduceShape(shape), clipOp, aa)]
    case Paint(d) => [Paint(ReduceDraw(d))]
  }

  /** The call ends a saveLayer whose record gets the can-distribute bit. */
  predicate Patches(r: Recorder, op: Op) {
    op.Restore? && CanRestore(r.levels) && r.levels.top.kind.Layer? && r.levels.top.weight != TOO_MANY
  }

  /** The place of the innermost saveLayer record, and what it is patched to. */
  function Patch(r: Recorder, op: Op, s: seq<Op>): seq<Op> {
    if Patches(r, op) && |Stream(r.levels.below)| < |s|
    then s[|Stream(r.levels.below)| := LayerOp(r.levels.top.kind.layer, true)]
    else s
  }

  predicate PatchesItsRecord(r: Recorder, op: Op) {
    Patches(r, op) ==>
      && |Stream(r.levels.below)| < |Stream(r.levels)|
      && Stream(r.levels)[|Stream(r.levels.below)|] == LayerOp(r.levels.top.kind.layer, false)
  }

  lemma FlushShapedStream(ls: Levels, op: Op)
    requires Shaped(ls) && !op.Save? && !IsStructural(op)
    ensures Stream(Append(Flush(ls), Leaf(op))) == Stream(ls) + (PendingSave(ls) + [op])
  {
    if IsDeferred(ls) {
      DeferredAddsNothing(ls.below, ls.top);
      assert [] + [Leaf(op)] == [Leaf(op)];
      FlatSnoc([], Leaf(op));
      assert Stream(ls.below) + [Save] + [op] == Stream(ls.below) + ([Save] + [op]);
    } else {
      AppendStream(ls, Leaf(op));
    }
  }

  /** Closing a group in place, with or without replacing its opening record. */
  lemma CloseInPlace(before: seq<Op>, open: Op, open': Op, body: seq<Op>)
    ensures before + ([open'] + body + [Restore]) == (before + [open] + body + [Restore])[|before| := open']
  {
  }

  lemma CloseLayerStream(below: Levels, l: Level)
    requires Shaped(below) && l.kind.Layer?
    ensures var open, here := Stream(Push(below, l)), |Stream(below)|;
            && here < |open|
            && open[here] == LayerOp(l.kind.layer, false)
            && Stream(Close(below, l)) == (open + [Restore])[here := LayerOp(l.kind.layer, l.weight != TOO_MANY)]
  {
    AppendStream(below, ClosedNode(l).value);
    CloseInPlace(Stream(below), LayerOp(l.kind.layer, false),
                 LayerOp(l.kind.layer, l.weight != TOO_MANY), Flat(l.nodes));
  }

  lemma CloseSaveStream(below: Levels, l: Level)
    requires Shaped(below) && l.kind.Saved?
    ensures Stream(Close(below, l)) == Stream(Push(below, l)) + [Restore]
  {
    AddWeightOk(below, l.weight);
    AppendStream(AddWeight(below, l.weight), SaveGroup(l.nodes));
    CloseInPlace(Stream(below), Save, Save, Flat(l.nodes));
    var open := Stream(Push(below, l)) + [Restore];
    assert open[|Stream(below)| := Save] == open;
  }

  lemma CloseDeferredStream(below: Levels, l: Level)
    requires Shaped(below) && l.kind.Deferred? && l.nodes == []
    ensures Stream(Close(below, l)) == Stream(Push(below, l))
  {
    AddWeightOk(below, l.weight);
    DeferredAddsNothing(below, l);
  }

  lemma DrawStream(r: Recorder, d: Draw, layout: Layout)
    requires Shaped(r.levels)
    ensures Stream(StepDraw(r, d, layout).levels) == Stream(r.levels) + [Paint(d)]
  {
    var w := DrawWeight(d, r.attrs);
    AddWeightOk(r.levels, w);
    AppendStream(AddWeight(r.levels, w), Leaf(Paint(d)));
  }

  lemma SaveLayerStream(r: Recorder, layer: LayerInfo)
    requires Shaped(r.levels)
    ensures Stream(StepSaveLayer(r, layer).levels) == Stream(r.levels) + [LayerOp(layer, false)]
  {
    AddWeightOk(r.levels, LayerWeight(layer, r.attrs));
  }

  lemma AppendingStep(r: Recorder, op: Op, layout: Layout)
    requires Shaped(r.levels) && !op.Restore?
    ensures Stream(Step(r, op, layout).levels) == Stream(r.levels) + Emitted(r, op)
  {
    match op
    case Set(s) =>
      if RecordedSetting(s, r.attrs).Some? {
        AppendStream(r.levels, Leaf(Set(RecordedSetting(s, r.attrs).value)));
      }
    case Save => DeferredAddsNothing(r.levels, Level(Deferred, NOTHING, []));
    case SaveLayer(_, _, _) => SaveLayerStream(r, LayerOf(op));
    case Transform(x, finite) =>
      var x' := ReduceTransform(x, finite);
      if x'.Some? { FlushShapedStream(r.levels, Transform(x'.value, finite)); }
    case TransformReset => FlushShapedStream(r.levels, op);
    case Clip(shape, clipOp, aa) =>
      if !ClipIsIgnored(shape) { FlushShapedStream(r.levels, Clip(ReduceShape(shape), clipOp, aa)); }
    case Paint(d) => DrawStream(r, ReduceDraw(d), layout);
  }

  /** Closing any level, with its layer record patched if it is distributable. */
  lemma RestoringStep(r: Recorder)
    requires Shaped(r.levels) && CanRestore(r.levels)
    ensures Stream(StepRestore(r).levels) == Patch(r, Restore, Stream(r.levels) + Emitted(r, Restore))
    ensures PatchesItsRecord(r, Restore)
  {
    match r.levels.top.kind
    case Layer(_) => CloseLayerStream(r.levels.below, r.levels.top);
    case Saved => CloseSaveStream(r.levels.below, r.levels.top);
    case Deferred => CloseDeferredStream(r.levels.below, r.levels.top);
  }

  /** The stream after a call is the stream before it, with the call's records appended and,
      when a distributable layer ends, with that layer's own record patched. */
  lemma StreamStep(r: Recorder, op: Op, layout: Layout)
    requires Shaped(r.levels)
    ensures Stream(Step(r, op, layout).levels) == Patch(r, op, Stream(r.levels) + Emitted(r, op))
    ensures PatchesItsRecord(r, op)
  {
    if !op.Restore? {
      AppendingStep(r, op, layout);
    } else if CanRestore(r.levels) {
      RestoringStep(r);
    }
  }

  // ----- Balance -----

  /** How many more saves than restores a stream holds. */
  function OpenSaves(ops: seq<Op>): int {
    if ops == [] then 0 else
    OpenSaves(Init(ops)) +
    (match Last(ops) case Save => 1 case SaveLayer(_, _, _) => 1 case Restore => -1 case _ => 0)
  }

  /** The levels above the base whose save is not deferred. */
  function RecordedLevels(ls: Levels): nat {
    match ls
    case Empty => 0
    case Push(below, top) => RecordedLevels(below) + if top.kind.Saved? || top.kind.Layer? then 1 else 0
  }

  lemma {:induction false} OpenSavesConcat(s: seq<Op>, t: seq<Op>)
    ensures OpenSaves(s + t) == OpenSaves(s) + OpenSaves(t)
  {
    if t == [] {
      assert s + t == s;
    } else {
      assert Init(s + t) == s + Init(t);
      OpenSavesConcat(s, Init(t));
    }
  }

  lemma {:induction false} ForestIsBalanced(ns: seq<Node>)
    requires WellFormed(ns)
    ensures OpenSaves(Flat(ns)) == 0
    decreases ns, 0
  {
    if ns == [] {
    } else {
      ForestIsBalanced(Init(ns));
      OpenSavesConcat(Flat(Init(ns)), FlatNode(Last(ns)));
      NodeIsBalanced(Last(ns));
    }
  }

  lemma {:induction false} NodeIsBalanced(n: Node)
    requires WellFormedNode(n)
    ensures OpenSaves(FlatNode(n)) == 0
    decreases n, 0
  {
    match n
    case Leaf(op) => assert Init([op]) == [];
    case SaveGroup(body) => GroupIsBalanced(Save, body);
    case LayerGroup(layer, bit, body) => GroupIsBalanced(LayerOp(layer, bit), body);
  }

  lemma {:induction false} GroupIsBalanced(open: Op, body: seq<Node>)
    requires WellFormed(body) && (open.Save? || open.SaveLayer?)
    ensures OpenSaves([open] + Flat(body) + [Restore]) == 0
    decreases body, 1
  {
    ForestIsBalanced(body);
    OpenSavesConcat([open] + Flat(body), [Restore]);
    OpenSavesConcat([open], Flat(body));
    assert Init([open]) == [] && Init([Restore]) == [];
  }

  /** The saves and layers open in the stream are exactly the levels above the base whose
      save is not deferred. */
  lemma {:induction false} OpenRecordsAreLevels(ls: Levels)
    requires Shaped(ls)
    ensures OpenSaves(Stream(ls)) == RecordedLevels(ls)
  {
    if ls.below.Push? { OpenRecordsAreLevels(ls.below); }
    var open := OpenRecord(ls.top.kind);
    ForestIsBalanced(ls.top.nodes);
    OpenSavesConcat(Stream(ls.below) + open, Flat(ls.top.nodes));
    OpenSavesConcat(Stream(ls.below), open);
    assert open != [] ==> Init(open) == [];
  }

  /** At every moment of every recording the stream agrees with the level stack, and a
      built list leaves nothing open. */
  lemma RecordingIsBalanced(calls: seq<Op>, layout: Layout)
    ensures var levels := Record(calls, START, layout).levels;
            OpenSaves(Stream(levels)) == RecordedLevels(levels)
    ensures OpenSaves(Build(calls, layout).ops) == 0
  {
    RecordOk(calls, layout);
    OpenRecordsAreLevels(Record(calls, START, layout).levels);
    BuildIsExact(calls, layout);
    ForestIsBalanced(BuiltForest(calls, layout));
  }
}
