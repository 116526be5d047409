// DisplayListBuilder: the recording half of the builder, with the record buffer addressed
// by byte offset and the saveLayer records patched in place. Every method is proved to
// take the recorder of module Recorder one step further.
module Builder {
  import opened Basics
  import opened DisplayListOps
  import opened RecordTree
  import opened Recorder
  import R = Recorder
  import opened OpacityBits
  import opened Emission

  /** The recording fields of the builder's per-level bookkeeping. */
  datatype LevelInfo = LevelInfo(
    saveLayerOffset: nat, hasDeferredSaveOp: bool, hasLayer: bool,
    cannotInheritOpacity: bool, hasCompatibleOp: bool)

  function FlagWeight(info: LevelInfo): Weight {
    if info.cannotInheritOpacity then TOO_MANY else if info.hasCompatibleOp then SINGLE else NOTHING
  }

  /** Every record has a size, and the can-distribute bit does not change it. */
  ghost predicate Sane(layout: Layout) {
    && (forall op :: layout.sizeOf(op) > 0)
    && (forall layer, b :: layout.sizeOf(LayerOp(layer, b)) == layout.sizeOf(LayerOp(layer, false)))
  }

  // ----- Records at byte offsets -----

  /** Each record of the stream is stored at the total size of the records before it. */
  predicate Laid(records: map<nat, Op>, ops: seq<Op>, layout: Layout) {
    ops == [] ||
    (var here := Bytes(Init(ops), layout);
     Laid(records, Init(ops), layout) && here in records && records[here] == Last(ops))
  }

  /** Writing behind the stream does not touch it. */
  lemma {:induction false} LaidBefore(records: map<nat, Op>, ops: seq<Op>, offset: nat, op: Op, layout: Layout)
    requires Laid(records, ops, layout) && Sane(layout) && Bytes(ops, layout) <= offset
    ensures Laid(records[offset := op], ops, layout)
  {
    if ops == [] {
    } else {
      LaidBefore(records, Init(ops), offset, op, layout);
    }
  }

  lemma LaidPush(records: map<nat, Op>, ops: seq<Op>, op: Op, layout: Layout)
    requires Laid(records, ops, layout) && Sane(layout)
    ensures Laid(records[Bytes(ops, layout) := op], ops + [op], layout)
    ensures Bytes(ops + [op], layout) == Bytes(ops, layout) + layout.sizeOf(op)
    ensures Increments(ops + [op]) == Increments(ops) + OpIncrement(op)
  {
    assert Init(ops + [op]) == ops;
    LaidBefore(records, ops, Bytes(ops, layout), op, layout);
  }

  /** Writing over the record at its own offset changes that record and no other, and no
      total. */
  lemma {:induction false} LaidPatch(records: map<nat, Op>, ops: seq<Op>, k: nat, op: Op, layout: Layout)
    requires Laid(records, ops, layout) && Sane(layout)
    requires k < |ops| && layout.sizeOf(op) == layout.sizeOf(ops[k]) && OpIncrement(op) == OpIncrement(ops[k])
    ensures var here := Bytes(ops[..k], layout);
            && here in records && records[here] == ops[k]
            && here < Bytes(ops, layout)
            && Laid(records[here := op], ops[k := op], layout)
    ensures Bytes(ops[k := op], layout) == Bytes(ops, layout)
    ensures Increments(ops[k := op]) == Increments(ops)
  {
    if k == |ops| - 1 {
      assert Init(ops[k := op]) == Init(ops) == ops[..k];
      LaidBefore(records, Init(ops), Bytes(Init(ops), layout), op, layout);
    } else {
      LaidPatch(records, Init(ops), k, op, layout);
      assert Init(ops[k := op]) == Init(ops)[k := op] && Init(ops)[..k] == ops[..k];
    }
  }

  // ----- Levels -----

  predicate LevelMatches(info: LevelInfo, below: Levels, top: Level, layout: Layout) {
    && info.hasDeferredSaveOp == top.kind.Deferred?
    && info.hasLayer == top.kind.Layer?
    && FlagWeight(info) == top.weight
    && (info.hasLayer ==> info.saveLayerOffset == Bytes(Stream(below), layout))
  }

  predicate LevelsMatch(layers: seq<LevelInfo>, ls: Levels, layout: Layout) {
    match ls
    case Empty => layers == []
    case Push(below, top) =>
      layers != [] && LevelMatches(Last(layers), below, top, layout) && LevelsMatch(Init(layers), below, layout)
  }

  lemma {:induction false} AppendMatches(layers: seq<LevelInfo>, ls: Levels, n: Node, layout: Layout)
    ensures LevelsMatch(layers, Append(ls, n), layout) == LevelsMatch(layers, ls, layout)
  {
    if ls.Push? && layers != [] { AppendMatches(Init(layers), ls.below, n, layout); }
  }

  lemma {:induction false} MatchDepth(layers: seq<LevelInfo>, ls: Levels, layout: Layout)
    requires LevelsMatch(layers, ls, layout)
    ensures |layers| == Depth(ls)
  {
    if ls.Empty? {
    } else {
      MatchDepth(Init(layers), ls.below, layout);
    }
  }

  /** Replacing the top level on both sides. */
  lemma MatchTop(layers: seq<LevelInfo>, ls: Levels, info: LevelInfo, top: Level, layout: Layout)
    requires LevelsMatch(layers, ls, layout) && ls.Push?
    requires LevelMatches(info, ls.below, top, layout)
    ensures LevelsMatch(Init(layers) + [info], Push(ls.below, top), layout)
  {
    assert Init(Init(layers) + [info]) == Init(layers);
  }

  lemma MatchPush(layers: seq<LevelInfo>, ls: Levels, info: LevelInfo, top: Level, layout: Layout)
    requires LevelsMatch(layers, ls, layout) && LevelMatches(info, ls, top, layout)
    ensures LevelsMatch(layers + [info], Push(ls, top), layout)
  {
    assert Init(layers + [info]) == layers;
  }

  lemma FlushMatches(layers: seq<LevelInfo>, ls: Levels, layout: Layout)
    requires LevelsMatch(layers, ls, layout) && ls.Push?
    ensures layers != [] && Last(layers).hasDeferredSaveOp == IsDeferred(ls)
    ensures IsDeferred(ls) ==>
              LevelsMatch(Init(layers) + [Last(layers).(hasDeferredSaveOp := false)], Flush(ls), layout)
    ensures !IsDeferred(ls) ==> Flush(ls) == ls
  {
    if IsDeferred(ls) {
      MatchTop(layers, ls, Last(layers).(hasDeferredSaveOp := false), ls.top.(kind := Saved), layout);
    }
  }

  lemma CloseMatches(layers: seq<LevelInfo>, below: Levels, top: Level, layout: Layout)
    requires below.Push?
    requires LevelsMatch(layers, if top.kind.Layer? || top.weight == NOTHING then below else AddWeight(below, top.weight), layout)
    ensures LevelsMatch(layers, Close(below, top), layout)
  {
    assert AddWeight(below, NOTHING) == below;
    if ClosedNode(top).Some? {
      AppendMatches(layers, if top.kind.Layer? then below else AddWeight(below, top.weight), ClosedNode(top).value, layout);
    }
  }

  /** A full matrix is recorded as an affine one if it is one. */
  lemma FullIsReduced(r: Recorder, m: M44, finite: bool)
    ensures StepTransform(r, Full(m), finite) ==
              if IsAffine(m) then StepTransform(r, Affine(m.m00, m.m01, m.m03, m.m10, m.m11, m.m13), finite)
              else if finite then StepEnvOp(r, Transform(Full(m), finite)) else r
  {
  }

  /** A path clips as the simpler shape that it is, unless it is filled inversely. */
  lemma PathIsReduced(r: Recorder, id: nat, path: PathKind, inverse: bool, bounds: Rect, clipOp: ClipOp, aa: bool)
    ensures StepClip(r, PathShape(id, path, inverse, bounds), clipOp, aa) ==
              if !inverse && path.PathIsRect? then StepClip(r, RectShape(path.rect, path.finite), clipOp, aa)
              else if !inverse && path.PathIsOval? then StepClip(r, RRectShape(path.oval, IsOval, 0), clipOp, aa)
              else if !inverse && path.PathIsRRect? then StepClip(r, RRectShape(path.bounds, path.kind, path.id), clipOp, aa)
              else StepEnvOp(r, Clip(PathShape(id, path, inverse, bounds), clipOp, aa))
  {
  }

  class DisplayListBuilder {
    const layout: Layout

    // The record buffer and its counters.
    var records: map<nat, Op>
    var used: nat
    var opCount: int
    var nestedBytes: nat
    var nestedOpCount: U32

    var layers: seq<LevelInfo>

    // The current attributes; a blender, if there is one, supersedes the blend mode, and
    // the blend field of current is not used.
    var current: Attrs
    var blendMode: BlendMode
    var blender: Option<Blender>
    var opacityCompatible: bool

    /** The recorder this builder implements. */
    ghost var model: Recorder

    ghost predicate Holds(ops: seq<Op>)
      reads this`records, this`used, this`opCount
    {
      Laid(records, ops, layout) && used == Bytes(ops, layout) && opCount == Increments(ops)
    }

    ghost predicate LevelsInSync(ls: Levels)
      reads this`records, this`used, this`opCount, this`layers
    {
      Shaped(ls) && Holds(Stream(ls)) && LevelsMatch(layers, ls, layout)
    }

    function CurrentBlend(): Blend
      reads this`blendMode, this`blender
    {
      if blender.Some? then ByBlender(blender.value.id) else ByMode(blendMode)
    }

    ghost predicate AttrsMatch(a: Attrs)
      reads this`current, this`blendMode, this`blender
    {
      && current.(blend := CurrentBlend()) == a
      && (blender.Some? ==> blender.value.asMode == None)
    }

    ghost predicate NestedMatch(bytes: nat, ops: U32)
      reads this`nestedBytes, this`nestedOpCount
    {
      nestedBytes == bytes && nestedOpCount == ops
    }

    /** The fields hold what the recorder holds. */
    ghost predicate Valid()
      reads this
    {
      && Sane(layout)
      && LevelsInSync(model.levels)
      && AttrsMatch(model.attrs)
      && opacityCompatible == Compatible(model.attrs)
      && NestedMatch(model.nestedBytes, model.nestedOps)
    }

    constructor (layout: Layout)
      requires Sane(layout)
      ensures Valid() && this.layout == layout && model == START
    {
      this.layout := layout;
      records, used, opCount, nestedBytes, nestedOpCount := map[], 0, 0, 0, 0;
      layers := [LevelInfo(0, false, false, false, false)];
      current, blendMode, blender, opacityCompatible := DEFAULTS, SrcOver, None, true;
      model := START;
      new;
      assert Stream(START.levels) == [];
      assert Init(layers) == [];
    }

    // ----- The record buffer -----

    method PushRecord(op: Op, ghost ops: seq<Op>)
      requires Sane(layout) && Holds(ops)
      modifies this`records, this`used, this`opCount
      ensures Holds(ops + [op])
      ensures unchanged(this`layers)
    {
      LaidPush(records, ops, op, layout);
      records := records[used := op];
      used := used + layout.sizeOf(op);
      opCount := opCount + OpIncrement(op);
    }

    /** Sets the can-distribute bit of the saveLayer record at a byte offset, in place. */
    method PatchSaveLayer(offset: nat, ghost ops: seq<Op>, ghost k: nat, ghost layer: LayerInfo)
      requires Sane(layout) && Holds(ops)
      requires k < |ops| && ops[k] == LayerOp(layer, false) && offset == Bytes(ops[..k], layout)
      modifies this`records
      ensures Holds(ops[k := LayerOp(layer, true)])
    {
      LaidPatch(records, ops, k, LayerOp(layer, true), layout);
      var op := records[offset];
      records := records[offset := op.(options := op.options.WithCanDistributeOpacity())];
    }

    /** Writes the save record that the current level has been waiting with. */
    method CheckForDeferredSave(ghost ls: Levels)
      requires Sane(layout) && Holds(Stream(ls)) && LevelsMatch(layers, ls, layout) && ls.Push?
      modifies this`records, this`used, this`opCount, this`layers
      ensures Holds(Stream(ls) + PendingSave(ls)) && LevelsMatch(layers, Flush(ls), layout)
    {
      var top := layers[|layers| - 1];
      FlushMatches(layers, ls, layout);
      if top.hasDeferredSaveOp {
        PushRecord(Op.Save, Stream(ls));
        layers := layers[..|layers| - 1] + [top.(hasDeferredSaveOp := false)];
      } else {
        assert Stream(ls) + [] == Stream(ls);
      }
    }

    // ----- The opacity flags of the current level -----

    method MarkIncompatible()
      requires layers != []
      modifies this`layers
      ensures layers == old(Init(layers) + [Last(layers).(cannotInheritOpacity := true)])
    {
      layers := layers[..|layers| - 1] + [layers[|layers| - 1].(cannotInheritOpacity := true)];
    }

    method AddCompatibleOp()
      requires layers != []
      modifies this`layers
      ensures |layers| == old(|layers|) && Init(layers) == old(Init(layers))
      ensures FlagWeight(Last(layers)) == Join(old(FlagWeight(Last(layers))), SINGLE)
      ensures Last(layers).(cannotInheritOpacity := false, hasCompatibleOp := false)
           == old(Last(layers)).(cannotInheritOpacity := false, hasCompatibleOp := false)
    {
      var top := layers[|layers| - 1];
      if !top.cannotInheritOpacity {
        if top.hasCompatibleOp {
          top := top.(cannotInheritOpacity := true);
        } else {
          top := top.(hasCompatibleOp := true);
        }
      }
      layers := layers[..|layers| - 1] + [top];
    }

    /** The level gains the weight of an operation. */
    method UpdateLayerOpacityCompatibility(compatible: bool, ghost ls: Levels)
      requires LevelsMatch(layers, ls, layout) && ls.Push?
      modifies this`layers
      ensures LevelsMatch(layers, AddWeight(ls, WeightOf(compatible)), layout)
    {
      ghost var before := layers;
      if compatible {
        AddCompatibleOp();
      } else {
        MarkIncompatible();
      }
      MatchTop(before, ls, Last(layers), ls.top.(weight := Join(ls.top.weight, WeightOf(compatible))), layout);
      assert layers == Init(before) + [Last(layers)];
    }

    method UpdateCurrentOpacityCompatibility()
      modifies this`opacityCompatible
      ensures forall a :: AttrsMatch(a) ==> opacityCompatible == Compatible(a)
    {
      opacityCompatible := current.colorFilter == None && !current.invertColors
                           && blender == None && blendMode == SrcOver;
    }

    // ----- Moving the model along -----

    /** The levels have been brought up to date; nothing else has changed. */
    ghost method EnterLevels(levels: Levels)
      requires Sane(layout) && LevelsInSync(levels)
      requires AttrsMatch(model.attrs) && opacityCompatible == Compatible(model.attrs)
      requires NestedMatch(model.nestedBytes, model.nestedOps)
      modifies this`model
      ensures Valid() && model == old(model).(levels := levels)
    {
      model := model.(levels := levels);
    }

    /** The attributes have been brought up to date; nothing else has changed. */
    ghost method EnterAttrs(attrs: Attrs)
      requires Sane(layout) && LevelsInSync(model.levels)
      requires AttrsMatch(attrs) && opacityCompatible == Compatible(attrs)
      requires NestedMatch(model.nestedBytes, model.nestedOps)
      modifies this`model
      ensures Valid() && model == old(model).(attrs := attrs)
    {
      model := model.(attrs := attrs);
    }

    ghost method EnterNested(bytes: nat, ops: U32)
      requires Sane(layout) && LevelsInSync(model.levels)
      requires AttrsMatch(model.attrs) && opacityCompatible == Compatible(model.attrs)
      requires NestedMatch(bytes, ops)
      modifies this`model
      ensures Valid() && model == old(model).(nestedBytes := bytes, nestedOps := ops)
    {
      model := model.(nestedBytes := bytes, nestedOps := ops);
    }

    // ----- Saves, layers, restores -----

    method PushSaveLevel(ghost ls: Levels)
      requires LevelsInSync(ls)
      modifies this`layers
      ensures LevelsInSync(Push(ls, Level(Deferred, NOTHING, [])))
    {
      DeferredAddsNothing(ls, Level(Deferred, NOTHING, []));
      MatchPush(layers, ls, LevelInfo(0, true, false, false, false), Level(Deferred, NOTHING, []), layout);
      layers := layers + [LevelInfo(0, true, false, false, false)];
    }

    method Save()
      requires Valid()
      modifies this
      ensures Valid() && model == StepSave(old(model))
    {
      PushSaveLevel(model.levels);
      EnterLevels(Push(model.levels, Level(Deferred, NOTHING, [])));
    }

    /** Counts the layer in its parent and opens a level for it. */
    method PushLayerLevel(saveLayerOffset: nat, rendersWithAttributes: bool, ghost ls: Levels, ghost layer: LayerInfo)
      requires LevelsMatch(layers, ls, layout) && ls.Push? && saveLayerOffset == Bytes(Stream(ls), layout)
      modifies this`layers
      ensures LevelsMatch(layers,
                Push(AddWeight(ls, WeightOf(!rendersWithAttributes || opacityCompatible)),
                     Level(Layer(layer),
                           if rendersWithAttributes && (!opacityCompatible || current.imageFilter.Some?) then TOO_MANY else NOTHING,
                           [])), layout)
    {
      UpdateLayerOpacityCompatibility(!rendersWithAttributes || opacityCompatible, ls);
      ghost var below := AddWeight(ls, WeightOf(!rendersWithAttributes || opacityCompatible));
      assert Stream(below) == Stream(ls);
      var info := LevelInfo(saveLayerOffset, false, true, false, false);
      MatchPush(layers, below, info, Level(Layer(layer), NOTHING, []), layout);
      layers := layers + [info];
      if rendersWithAttributes {
        if !opacityCompatible || current.imageFilter.Some? {
          UpdateLayerOpacityCompatibility(false, Push(below, Level(Layer(layer), NOTHING, [])));
        }
      }
    }

    method WriteSaveLayer(bounds: Option<Rect>, options: SaveLayerOptions, backdrop: Option<nat>, ghost r: Recorder)
      requires Sane(layout) && LevelsInSync(r.levels)
      requires AttrsMatch(r.attrs) && opacityCompatible == Compatible(r.attrs)
      requires !options.canDistributeOpacity
      modifies this`records, this`used, this`opCount, this`layers
      ensures LevelsInSync(StepSaveLayer(r, LayerInfo(bounds, options.rendersWithAttributes, backdrop)).levels)
      ensures unchanged(this`current, this`blendMode, this`blender, this`opacityCompatible,
                        this`nestedBytes, this`nestedOpCount, this`model)
    {
      ghost var layer := LayerInfo(bounds, options.rendersWithAttributes, backdrop);
      SaveLayerStep(r, layer);
      var saveLayerOffset := used;
      PushRecord(Op.SaveLayer(bounds, options, backdrop), Stream(r.levels));
      PushLayerLevel(saveLayerOffset, options.rendersWithAttributes, r.levels, layer);
    }

    method SaveLayer(bounds: Option<Rect>, inOptions: SaveLayerOptions, backdrop: Option<nat>)
      requires Valid()
      modifies this
      ensures Valid()
      ensures model == StepSaveLayer(old(model), LayerInfo(bounds, inOptions.rendersWithAttributes, backdrop))
    {
      WriteSaveLayer(bounds, inOptions.WithoutOptimizations(), backdrop, model);
      EnterLevels(StepSaveLayer(model, LayerInfo(bounds, inOptions.rendersWithAttributes, backdrop)).levels);
    }

    /** Leaves the top level: its flags go to the saveLayer record or to the level below. */
    method PopLevel(ghost below: Levels, ghost top: Level)
      requires Sane(layout) && Holds(ClosingStream(below, top)) && Closable(below, top)
      requires LevelsMatch(layers, Push(below, top), layout)
      modifies this`layers, this`records
      ensures LevelsMatch(layers, Close(below, top), layout)
      ensures Holds(ClosedStream(below, top))
      ensures unchanged(this`used, this`opCount, this`current, this`blendMode, this`blender, this`opacityCompatible,
                        this`nestedBytes, this`nestedOpCount, this`model)
    {
      var info := layers[|layers| - 1];
      layers := layers[..|layers| - 1];
      if info.hasLayer {
        if !info.cannotInheritOpacity {
          ghost var ops := ClosingStream(below, top);
          assert ops[..|Stream(below)|] == Stream(below);
          PatchSaveLayer(info.saveLayerOffset, ops, |Stream(below)|, top.kind.layer);
        }
      } else if info.cannotInheritOpacity {
        UpdateLayerOpacityCompatibility(false, below);
      } else if info.hasCompatibleOp {
        UpdateLayerOpacityCompatibility(true, below);
      }
      CloseMatches(layers, below, top, layout);
    }

    /** Writes the restore record, if the save was recorded. */
    method WriteRestore(ghost below: Levels, ghost top: Level)
      requires Sane(layout) && Holds(Stream(Push(below, top))) && LevelsMatch(layers, Push(below, top), layout)
      modifies this`records, this`used, this`opCount
      ensures Holds(ClosingStream(below, top))
      ensures unchanged(this`layers, this`current, this`blendMode, this`blender, this`opacityCompatible,
                        this`nestedBytes, this`nestedOpCount, this`model)
    {
      if !layers[|layers| - 1].hasDeferredSaveOp {
        PushRecord(Op.Restore, Stream(Push(below, top)));
      }
    }

    /** Leaves the top level, with its restore record if it has one. */
    method CloseLevel(ghost below: Levels, ghost top: Level)
      requires Sane(layout) && below.Push? && LevelsInSync(Push(below, top))
      modifies this`records, this`used, this`opCount, this`layers
      ensures LevelsInSync(Close(below, top))
      ensures unchanged(this`current, this`blendMode, this`blender, this`opacityCompatible,
                        this`nestedBytes, this`nestedOpCount, this`model)
    {
      RestoreStep(below, top);
      WriteRestore(below, top);
      PopLevel(below, top);
    }

    /** Ends the innermost level, if there is one above the base. */
    method Restore()
      requires Valid()
      modifies this
      ensures Valid() && model == StepRestore(old(model))
      ensures |layers| == if old(|layers|) > 1 then old(|layers|) - 1 else old(|layers|)
    {
      MatchDepth(layers, model.levels, layout);
      if |layers| > 1 {
        ghost var below, top := model.levels.below, model.levels.top;
        CloseLevel(below, top);
        MatchDepth(layers, Close(below, top), layout);
        CloseDepth(below, top);
        EnterLevels(Close(below, top));
      }
    }

    method RestoreToCount(restoreCount: int)
      requires Valid()
      modifies this
      ensures Valid()
      ensures |layers| == if restoreCount >= old(|layers|) then old(|layers|) else if restoreCount > 1 then restoreCount else 1
      ensures model == Unwound(old(model), old(|layers|) - |layers|)
    {
      MatchDepth(layers, model.levels, layout);
      ghost var n := 0;
      while restoreCount < |layers| && |layers| > 1
        invariant Valid() && |layers| >= 1 && n == old(|layers|) - |layers| >= 0
        invariant if restoreCount < old(|layers|) then (if restoreCount > 1 then restoreCount else 1) <= |layers| else n == 0
        invariant model == Unwound(old(model), n)
        decreases |layers|
      {
        Restore();
        n := n + 1;
      }
    }

    // ----- Transforms and clips -----

    /** Records a transform or clip, after the save it was waiting for. */
    method WriteEnvOp(op: Op, ghost ls: Levels)
      requires Sane(layout) && LevelsInSync(ls) && IsEnvOp(op)
      modifies this`records, this`used, this`opCount, this`layers
      ensures LevelsInSync(Append(Flush(ls), Leaf(op)))
      ensures unchanged(this`current, this`blendMode, this`blender, this`opacityCompatible,
                        this`nestedBytes, this`nestedOpCount, this`model)
    {
      EnvOpStep(ls, op);
      CheckForDeferredSave(ls);
      AppendMatches(layers, Flush(ls), Leaf(op), layout);
      PushRecord(op, Stream(ls) + PendingSave(ls));
    }

    method RecordEnvOp(op: Op)
      requires Valid() && IsEnvOp(op)
      modifies this
      ensures Valid() && model == StepEnvOp(old(model), op)
    {
      WriteEnvOp(op, model.levels);
      EnterLevels(Append(Flush(model.levels), Leaf(op)));
    }

    method Translate(tx: real, ty: real, finite: bool)
      requires Valid()
      modifies this
      ensures Valid() && model == StepTransform(old(model), Xform.Translate(tx, ty), finite)
    {
      if finite && (tx != 0.0 || ty != 0.0) {
        RecordEnvOp(Transform(Xform.Translate(tx, ty), finite));
      }
    }

    method Scale(sx: real, sy: real, finite: bool)
      requires Valid()
      modifies this
      ensures Valid() && model == StepTransform(old(model), Xform.Scale(sx, sy), finite)
    {
      if finite && (sx != 1.0 || sy != 1.0) {
        RecordEnvOp(Transform(Xform.Scale(sx, sy), finite));
      }
    }

    method Rotate(degrees: real, finite: bool)
      requires Valid()
      modifies this
      ensures Valid() && model == StepTransform(old(model), Xform.Rotate(degrees), finite)
    {
      if !IsMultipleOf360(degrees) {
        RecordEnvOp(Transform(Xform.Rotate(degrees), finite));
      }
    }

    method Skew(kx: real, ky: real, finite: bool)
      requires Valid()
      modifies this
      ensures Valid() && model == StepTransform(old(model), Xform.Skew(kx, ky), finite)
    {
      if finite && (kx != 0.0 || ky != 0.0) {
        RecordEnvOp(Transform(Xform.Skew(kx, ky), finite));
      }
    }

    method Transform2DAffine(xx: real, xy: real, xt: real, yx: real, yy: real, yt: real, finite: bool)
      requires Valid()
      modifies this
      ensures Valid() && model == StepTransform(old(model), Affine(xx, xy, xt, yx, yy, yt), finite)
    {
      if finite && !(xx == 1.0 && xy == 0.0 && xt == 0.0 && yx == 0.0 && yy == 1.0 && yt == 0.0) {
        RecordEnvOp(Transform(Affine(xx, xy, xt, yx, yy, yt), finite));
      }
    }

    /** A full matrix that is affine is recorded as an affine one, or not at all. */
    method TransformFullPerspective(m: M44, finite: bool)
      requires Valid()
      modifies this
      ensures Valid() && model == StepTransform(old(model), Full(m), finite)
    {
      FullIsReduced(model, m, finite);
      if IsAffine(m) {
        Transform2DAffine(m.m00, m.m01, m.m03, m.m10, m.m11, m.m13, finite);
      } else if finite {
        RecordEnvOp(Transform(Full(m), finite));
      }
    }

    method ResetTransform()
      requires Valid()
      modifies this
      ensures Valid() && model == StepEnvOp(old(model), TransformReset)
    {
      RecordEnvOp(TransformReset);
    }

    method ClipRect(rect: Rect, finite: bool, clipOp: ClipOp, aa: bool)
      requires Valid()
      modifies this
      ensures Valid() && model == StepClip(old(model), RectShape(rect, finite), clipOp, aa)
    {
      if finite {
        RecordEnvOp(Clip(RectShape(rect, finite), clipOp, aa));
      }
    }

    method ClipRRect(bounds: Rect, kind: RRectKind, id: nat, clipOp: ClipOp, aa: bool)
      requires Valid()
      modifies this
      ensures Valid() && model == StepClip(old(model), RRectShape(bounds, kind, id), clipOp, aa)
    {
      if kind == IsRect {
        ClipRect(bounds, true, clipOp, aa);
      } else {
        RecordEnvOp(Clip(RRectShape(bounds, kind, id), clipOp, aa));
      }
    }

    /** A path that is a rectangle, an oval or a rounded rectangle clips as one, unless it
        is filled inversely. */
    method ClipPath(id: nat, pathKind: PathKind, inverse: bool, bounds: Rect, clipOp: ClipOp, aa: bool)
      requires Valid()
      modifies this
      ensures Valid() && model == StepClip(old(model), PathShape(id, pathKind, inverse, bounds), clipOp, aa)
    {
      PathIsReduced(model, id, pathKind, inverse, bounds, clipOp, aa);
      if !inverse && pathKind.PathIsRect? {
        ClipRect(pathKind.rect, pathKind.finite, clipOp, aa);
      } else if !inverse && pathKind.PathIsOval? {
        ClipRRect(pathKind.oval, IsOval, 0, clipOp, aa);
      } else if !inverse && pathKind.PathIsRRect? {
        ClipRRect(pathKind.bounds, pathKind.kind, pathKind.id, clipOp, aa);
      } else {
        RecordEnvOp(Clip(PathShape(id, pathKind, inverse, bounds), clipOp, aa));
      }
    }

    // ----- Attributes -----

    /** Records a setter whose field has just been assigned. */
    method RecordSetter(s: Setting, ghost attrs: Attrs)
      requires Sane(layout) && LevelsInSync(model.levels)
      requires AttrsMatch(attrs) && opacityCompatible == Compatible(attrs)
      requires NestedMatch(model.nestedBytes, model.nestedOps)
      modifies this`records, this`used, this`opCount, this`model
      ensures Valid()
      ensures model == old(model).(levels := Append(old(model).levels, Leaf(Op.Set(s))), attrs := attrs)
    {
      EnterAttrs(attrs);
      WriteLeaf(Op.Set(s), model.levels);
      EnterLevels(Append(model.levels, Leaf(Op.Set(s))));
    }

    /** Writes a record that neither waits for a save nor opens or closes a level. */
    method WriteLeaf(op: Op, ghost ls: Levels)
      requires Sane(layout) && LevelsInSync(ls) && !IsStructural(op)
      modifies this`records, this`used, this`opCount
      ensures LevelsInSync(Append(ls, Leaf(op)))
      ensures unchanged(this`current, this`blendMode, this`blender, this`opacityCompatible,
                        this`nestedBytes, this`nestedOpCount, this`model)
    {
      AppendShaped(ls, Leaf(op));
      AppendStream(ls, Leaf(op));
      AppendMatches(layers, ls, Leaf(op), layout);
      PushRecord(op, Stream(ls));
    }

    method SetAntiAlias(on: bool)
      requires Valid()
      modifies this
      ensures Valid() && model == StepSet(old(model), AntiAlias(on))
    {
      if current.antiAlias != on {
        current := current.(antiAlias := on);
        RecordSetter(AntiAlias(on), Apply(AntiAlias(on), model.attrs));
      }
    }

    method SetDither(on: bool)
      requires Valid()
      modifies this
      ensures Valid() && model == StepSet(old(model), Dither(on))
    {
      if current.dither != on {
        current := current.(dither := on);
        RecordSetter(Dither(on), Apply(Dither(on), model.attrs));
      }
    }

    method SetStrokeCap(cap: Cap)
      requires Valid()
      modifies this
      ensures Valid() && model == StepSet(old(model), StrokeCap(cap))
    {
      if current.cap != cap {
        current := current.(cap := cap);
        RecordSetter(StrokeCap(cap), Apply(StrokeCap(cap), model.attrs));
      }
    }

    method SetStrokeJoin(join: LineJoin)
      requires Valid()
      modifies this
      ensures Valid() && model == StepSet(old(model), StrokeJoin(join))
    {
      if current.join != join {
        current := current.(join := join);
        RecordSetter(StrokeJoin(join), Apply(StrokeJoin(join), model.attrs));
      }
    }

    method SetStyle(style: Style)
      requires Valid()
      modifies this
      ensures Valid() && model == StepSet(old(model), DrawStyle(style))
    {
      if current.style != style {
        current := current.(style := style);
        RecordSetter(DrawStyle(style), Apply(DrawStyle(style), model.attrs));
      }
    }

    method SetStrokeWidth(width: real)
      requires Valid()
      modifies this
      ensures Valid() && model == StepSet(old(model), StrokeWidth(width))
    {
      if current.width != width {
        current := current.(width := width);
        RecordSetter(StrokeWidth(width), Apply(StrokeWidth(width), model.attrs));
      }
    }

    method SetStrokeMiter(limit: real)
      requires Valid()
      modifies this
      ensures Valid() && model == StepSet(old(model), StrokeMiter(limit))
    {
      if current.miter != limit {
        current := current.(miter := limit);
        RecordSetter(StrokeMiter(limit), Apply(StrokeMiter(limit), model.attrs));
      }
    }

    method SetImageFilter(filter: Option<nat>)
      requires Valid()
      modifies this
      ensures Valid() && model == StepSet(old(model), ImageFilter(filter))
    {
      if current.imageFilter != filter {
        current := current.(imageFilter := filter);
        RecordSetter(ImageFilter(filter), Apply(ImageFilter(filter), model.attrs));
      }
    }

    method SetPathEffect(effect: Option<nat>)
      requires Valid()
      modifies this
      ensures Valid() && model == StepSet(old(model), PathEffect(effect))
    {
      if current.pathEffect != effect {
        current := current.(pathEffect := effect);
        RecordSetter(PathEffect(effect), Apply(PathEffect(effect), model.attrs));
      }
    }

    method SetMaskFilter(filter: Option<nat>)
      requires Valid()
      modifies this
      ensures Valid() && model == StepSet(old(model), MaskFilter(filter))
    {
      if current.maskFilter != filter {
        current := current.(maskFilter := filter);
        RecordSetter(MaskFilter(filter), Apply(MaskFilter(filter), model.attrs));
      }
    }

    method SetColor(color: Color)
      requires Valid()
      modifies this
      ensures Valid() && model == StepSet(old(model), PaintColor(color))
    {
      if current.color != color {
        current := current.(color := color);
        RecordSetter(PaintColor(color), Apply(PaintColor(color), model.attrs));
      }
    }

    method SetInvertColors(on: bool)
      requires Valid()
      modifies this
      ensures Valid() && model == StepSet(old(model), InvertColors(on))
    {
      if current.invertColors != on {
        current := current.(invertColors := on);
        UpdateCurrentOpacityCompatibility();
        RecordSetter(InvertColors(on), Apply(InvertColors(on), model.attrs));
      }
    }

    method SetColorFilter(filter: Option<nat>)
      requires Valid()
      modifies this
      ensures Valid() && model == StepSet(old(model), ColorFilter(filter))
    {
      if current.colorFilter != filter {
        current := current.(colorFilter := filter);
        UpdateCurrentOpacityCompatibility();
        RecordSetter(ColorFilter(filter), Apply(ColorFilter(filter), model.attrs));
      }
    }

    method OnSetBlendMode(mode: BlendMode)
      requires Valid()
      modifies this
      ensures Valid()
      ensures model == old(model).(levels := Append(old(model).levels, Leaf(Op.Set(PaintBlendMode(mode)))),
                                   attrs := old(model).attrs.(blend := ByMode(mode)))
    {
      blender := None;
      blendMode := mode;
      UpdateCurrentOpacityCompatibility();
      RecordSetter(PaintBlendMode(mode), model.attrs.(blend := ByMode(mode)));
    }

    method SetBlendMode(mode: BlendMode)
      requires Valid()
      modifies this
      ensures Valid() && model == StepSet(old(model), PaintBlendMode(mode))
    {
      if blender.Some? || blendMode != mode {
        OnSetBlendMode(mode);
      }
    }

    method RecordBlender(newBlender: Blender)
      requires Valid() && newBlender.asMode == None
      modifies this
      ensures Valid()
      ensures model == old(model).(levels := Append(old(model).levels, Leaf(Op.Set(PaintBlender(Some(newBlender))))),
                                   attrs := old(model).attrs.(blend := ByBlender(newBlender.id)))
    {
      blender := Some(newBlender);
      UpdateCurrentOpacityCompatibility();
      RecordSetter(PaintBlender(blender), model.attrs.(blend := ByBlender(newBlender.id)));
    }

    /** A blender that is a mode in disguise is recorded as the mode. */
    method OnSetBlender(newBlender: Blender)
      requires Valid()
      modifies this
      ensures Valid()
      ensures newBlender.asMode.Some? ==> model == StepSet(old(model), PaintBlendMode(newBlender.asMode.value))
      ensures newBlender.asMode.None? ==>
        model == old(model).(levels := Append(old(model).levels, Leaf(Op.Set(PaintBlender(Some(newBlender))))),
                             attrs := old(model).attrs.(blend := ByBlender(newBlender.id)))
    {
      if newBlender.asMode.Some? {
        SetBlendMode(newBlender.asMode.value);
      } else {
        RecordBlender(newBlender);
      }
    }

    method SetBlender(newBlender: Option<Blender>)
      requires Valid()
      modifies this
      ensures Valid() && model == StepSet(old(model), PaintBlender(newBlender))
    {
      BlenderStep(model, newBlender);
      if newBlender == None {
        SetBlendMode(SrcOver);
      } else if blender != newBlender {
        OnSetBlender(newBlender.value);
      }
    }

    method RecordSource(source: Option<nat>)
      requires Valid()
      modifies this
      ensures Valid()
      ensures model == StepSet(old(model), ColorSource(if source.Some? then Some(Shader(source.value)) else None))
    {
      if current.source != source {
        current := current.(source := source);
        RecordSetter(ColorSource(if source.Some? then Some(Shader(source.value)) else None),
                     model.attrs.(source := source));
      }
    }

    /** A colour-type source is taken as the colour, and no record says that the previous
        source is gone. */
    method SetPlainColorSource(color: Color)
      requires Valid()
      modifies this
      ensures Valid()
      ensures model == StepSet(old(model).(attrs := old(model).attrs.(source := None)), PaintColor(color))
    {
      current := current.(source := None);
      EnterAttrs(model.attrs.(source := None));
      SetColor(color);
    }

    method SetColorSource(source: Option<Source>)
      requires Valid()
      modifies this
      ensures Valid() && model == StepSet(old(model), ColorSource(source))
    {
      match source
      case None => RecordSource(None);
      case Some(Shader(id)) => RecordSource(Some(id));
      case Some(PlainColor(color)) => SetPlainColorSource(color);
    }

    // ----- Rendering operations -----

    method WriteDraw(d: Draw, compatible: bool, ghost ls: Levels)
      requires Sane(layout) && LevelsInSync(ls)
      modifies this`records, this`used, this`opCount, this`layers
      ensures LevelsInSync(Append(AddWeight(ls, WeightOf(compatible)), Leaf(Paint(d))))
      ensures unchanged(this`current, this`blendMode, this`blender, this`opacityCompatible,
                        this`nestedBytes, this`nestedOpCount, this`model)
    {
      AddWeightOk(ls, WeightOf(compatible));
      UpdateLayerOpacityCompatibility(compatible, ls);
      WriteLeaf(Paint(d), AddWeight(ls, WeightOf(compatible)));
    }

    /** Records a rendering operation and counts it as compatible or not. */
    method RecordDraw(d: Draw, compatible: bool)
      requires Valid()
      modifies this`records, this`used, this`opCount, this`layers, this`model
      ensures Valid()
      ensures model == old(model).(
                levels := Append(AddWeight(old(model).levels, WeightOf(compatible)), Leaf(Paint(d))))
    {
      ghost var levels := Append(AddWeight(model.levels, WeightOf(compatible)), Leaf(Paint(d)));
      WriteDraw(d, compatible, model.levels);
      EnterLevels(levels);
    }

    /** An operation that is compatible when the attributes are. */
    method DrawWithAttributes(d: Draw)
      requires Valid() && (d.DrawPaint? || d.DrawFigure?) && ReduceDraw(d) == d
      modifies this
      ensures Valid() && model == StepDraw(old(model), d, layout)
    {
      RecordDraw(d, opacityCompatible);
    }

    method DrawColor(color: Color, mode: BlendMode)
      requires Valid()
      modifies this
      ensures Valid() && model == StepDraw(old(model), Draw.DrawColor(color, mode), layout)
    {
      RecordDraw(Draw.DrawColor(color, mode), mode == SrcOver);
    }

    /** A rounded rectangle that is a rectangle or an oval is drawn as one. */
    method DrawRRect(bounds: Rect, kind: RRectKind, id: nat)
      requires Valid()
      modifies this
      ensures Valid()
      ensures model == StepDraw(old(model), ReduceDraw(DrawFigure(RRectFigure(bounds, kind, id))), layout)
    {
      if kind == IsRect {
        DrawWithAttributes(DrawFigure(RectFigure(bounds)));
      } else if kind == IsOval {
        DrawWithAttributes(DrawFigure(OvalFigure(bounds)));
      } else {
        DrawWithAttributes(DrawFigure(RRectFigure(bounds, kind, id)));
      }
    }

    /** A hairline is not compatible. */
    method DrawPath(id: nat)
      requires Valid()
      modifies this
      ensures Valid() && model == StepDraw(old(model), Draw.DrawPath(id), layout)
    {
      RecordDraw(Draw.DrawPath(id), opacityCompatible && (current.style == Fill || current.width > 0.0));
    }

    method DrawArc(id: nat, useCenter: bool)
      requires Valid()
      modifies this
      ensures Valid() && model == StepDraw(old(model), Draw.DrawArc(id, useCenter), layout)
    {
      var compatible := opacityCompatible;
      if useCenter {
        compatible := compatible && (current.style == Fill || current.width > 0.0);
      }
      RecordDraw(Draw.DrawArc(id, useCenter), compatible);
    }

    method DrawImage(id: nat, withAttributes: bool)
      requires Valid()
      modifies this
      ensures Valid() && model == StepDraw(old(model), Draw.DrawImage(id, withAttributes), layout)
    {
      RecordDraw(Draw.DrawImage(id, withAttributes), !withAttributes || opacityCompatible);
    }

    /** Operations made of parts that may overlap are never compatible. */
    method DrawParts(d: Draw)
      requires Valid() && (d.DrawPoints? || d.DrawVertices? || d.DrawAtlas? || d.DrawShadow?)
      modifies this
      ensures Valid() && model == StepDraw(old(model), d, layout)
    {
      RecordDraw(d, false);
    }

    method AddNested(bytes: nat, ops: int)
      requires Valid()
      modifies this`nestedBytes, this`nestedOpCount, this`model
      ensures Valid()
      ensures model == old(model).(nestedBytes := old(model).nestedBytes + bytes,
                                   nestedOps := Wrap32(old(model).nestedOps + ops))
    {
      nestedOpCount := Wrap32(nestedOpCount + ops);
      nestedBytes := nestedBytes + bytes;
      EnterNested(model.nestedBytes + bytes, Wrap32(model.nestedOps + ops));
    }

    method DrawPicture(id: nat, approximateOps: nat, approximateBytes: nat, withAttributes: bool)
      requires Valid()
      modifies this
      ensures Valid()
      ensures model ==
        StepDraw(old(model), Draw.DrawPicture(id, approximateOps, approximateBytes, withAttributes), layout)
    {
      RecordDraw(Draw.DrawPicture(id, approximateOps, approximateBytes, withAttributes),
                 !withAttributes || opacityCompatible);
      AddNested(approximateBytes, approximateOps - 1);
    }

    method DrawDisplayList(list: DisplayList)
      requires Valid()
      modifies this
      ensures Valid() && model == StepDraw(old(model), Draw.DrawDisplayList(list), layout)
    {
      RecordDraw(Draw.DrawDisplayList(list), list.canApplyGroupOpacity);
      AddNested(ListBytes(list, layout), ListOps(list) - 1);
    }

    // ----- Receiving a whole call sequence -----

    method ReceiveSetter(s: Setting)
      requires Valid()
      modifies this
      ensures Valid() && model == StepSet(old(model), s)
    {
      match s
      case AntiAlias(on) => SetAntiAlias(on);
      case Dither(on) => SetDither(on);
      case InvertColors(on) => SetInvertColors(on);
      case StrokeCap(cap) => SetStrokeCap(cap);
      case StrokeJoin(join) => SetStrokeJoin(join);
      case DrawStyle(style) => SetStyle(style);
      case StrokeWidth(width) => SetStrokeWidth(width);
      case StrokeMiter(limit) => SetStrokeMiter(limit);
      case PaintColor(color) => SetColor(color);
      case PaintBlendMode(mode) => SetBlendMode(mode);
      case PaintBlender(b) => SetBlender(b);
      case ColorSource(source) => SetColorSource(source);
      case ImageFilter(filter) => SetImageFilter(filter);
      case ColorFilter(filter) => SetColorFilter(filter);
      case PathEffect(effect) => SetPathEffect(effect);
      case MaskFilter(filter) => SetMaskFilter(filter);
    }

    method ReceiveTransform(x: Xform, finite: bool)
      requires Valid()
      modifies this
      ensures Valid() && model == StepTransform(old(model), x, finite)
    {
      match x
      case Translate(tx, ty) => Translate(tx, ty, finite);
      case Scale(sx, sy) => Scale(sx, sy, finite);
      case Rotate(degrees) => Rotate(degrees, finite);
      case Skew(kx, ky) => Skew(kx, ky, finite);
      case Affine(xx, xy, xt, yx, yy, yt) => Transform2DAffine(xx, xy, xt, yx, yy, yt, finite);
      case Full(m) => TransformFullPerspective(m, finite);
    }

    method ReceiveClip(shape: Shape, clipOp: ClipOp, aa: bool)
      requires Valid()
      modifies this
      ensures Valid() && model == StepClip(old(model), shape, clipOp, aa)
    {
      match shape
      case RectShape(rect, finite) => ClipRect(rect, finite, clipOp, aa);
      case RRectShape(bounds, kind, id) => ClipRRect(bounds, kind, id, clipOp, aa);
      case PathShape(id, kind, inverse, bounds) => ClipPath(id, kind, inverse, bounds, clipOp, aa);
    }

    method ReceiveDraw(d: Draw)
      requires Valid()
      modifies this
      ensures Valid() && model == StepDraw(old(model), ReduceDraw(d), layout)
    {
      match d
      case DrawPaint => DrawWithAttributes(d);
      case DrawColor(color, mode) => DrawColor(color, mode);
      case DrawFigure(RRectFigure(bounds, kind, id)) => DrawRRect(bounds, kind, id);
      case DrawFigure(_) => DrawWithAttributes(d);
      case DrawPath(id) => DrawPath(id);
      case DrawArc(id, useCenter) => DrawArc(id, useCenter);
      case DrawImage(id, withAttributes) => DrawImage(id, withAttributes);
      case DrawPicture(id, ops, bytes, withAttributes) => DrawPicture(id, ops, bytes, withAttributes);
      case DrawDisplayList(list) => DrawDisplayList(list);
      case _ => DrawParts(d);
    }

    method ReceiveStructural(op: Op)
      requires Valid() && IsStructural(op)
      modifies this
      ensures Valid() && model == Step(old(model), op, layout)
    {
      match op
      case Save => Save();
      case SaveLayer(bounds, options, backdrop) => SaveLayer(bounds, options, backdrop);
      case Restore => Restore();
    }

    method Receive(op: Op)
      requires Valid()
      modifies this
      ensures Valid() && model == Step(old(model), op, layout)
    {
      if IsStructural(op) {
        ReceiveStructural(op);
        return;
      }
      match op
      case Set(s) => ReceiveSetter(s);
      case Transform(x, finite) => ReceiveTransform(x, finite);
      case TransformReset => ResetTransform();
      case Clip(shape, clipOp, aa) => ReceiveClip(shape, clipOp, aa);
      case Paint(d) => ReceiveDraw(d);
    }

    /** A list is dispatched to the builder record by record. */
    method ReceiveAll(ops: seq<Op>)
      requires Valid()
      modifies this
      ensures Valid() && model == Record(ops, old(model), layout)
    {
      var i := 0;
      while i < |ops|
        invariant 0 <= i <= |ops| && Valid()
        invariant model == Record(ops[..i], old(model), layout)
      {
        assert Init(ops[..i + 1]) == ops[..i];
        Receive(ops[i]);
        i := i + 1;
      }
      assert ops[..i] == ops;
    }

    // ----- Building -----

    /** Walks the buffer from its start, each record saying where the next one is. */
    method ReadRecords(ghost stream: seq<Op>) returns (ops: seq<Op>)
      requires Sane(layout) && Holds(stream)
      ensures ops == stream
    {
      ops := [];
      var offset := 0;
      ghost var k := 0;
      while offset < used
        invariant k <= |stream| && ops == stream[..k] && offset == Bytes(stream[..k], layout)
        decreases |stream| - k
      {
        assert stream[..|stream|] == stream;
        LaidAt(records, stream, k, layout);
        ops := ops + [records[offset]];
        offset := offset + layout.sizeOf(records[offset]);
        k := k + 1;
      }
      BytesGrow(stream, k, layout);
    }

    /** The list in the buffer. */
    method TakeList() returns (list: DisplayList)
      requires Valid()
      ensures list == ListOf(model, layout)
    {
      var ops := ReadRecords(Stream(model.levels));
      list := DisplayList(ops, used, Wrap32(opCount), nestedBytes, nestedOpCount,
                          !layers[|layers| - 1].cannotInheritOpacity);
    }

    /** Closes the open levels and hands the buffer over. The attributes and the flags of the
        base level stay as they are. */
    method Build() returns (list: DisplayList)
      requires Valid()
      modifies this
      ensures list == ListOf(Unwound(old(model), old(|layers|) - 1), layout)
      ensures forall calls {:trigger Record(calls, START, layout)} ::
                old(model) == Record(calls, START, layout) ==> list == R.Build(calls, layout)
      ensures Valid() && |layers| == 1
      ensures model == Reused(Unwound(old(model), old(|layers|) - 1))
    {
      MatchDepth(layers, model.levels, layout);
      ClosedIsUnwound(model, |layers|, layout);
      list := CloseAndTake();
    }

    method CloseAndTake() returns (list: DisplayList)
      requires Valid()
      modifies this
      ensures list == ListOf(Unwound(old(model), old(|layers|) - 1), layout)
      ensures Valid() && |layers| == 1
      ensures model == Reused(Unwound(old(model), old(|layers|) - 1))
    {
      MatchDepth(layers, model.levels, layout);
      RestoreToCount(1);
      list := TakeList();
      Clear();
    }

    method Clear()
      requires Valid() && |layers| == 1
      modifies this
      ensures Valid() && |layers| == 1
      ensures model == Reused(old(model))
    {
      MatchDepth(layers, model.levels, layout);
      records, used, opCount, nestedBytes, nestedOpCount := map[], 0, 0, 0, 0;
      ClearedLevels(layers, model.levels, layout);
      model := Reused(model);
    }
  }

  /** Building unwinds what has been recorded. */
  lemma ClosedIsUnwound(r: Recorder, depth: nat, layout: Layout)
    requires depth == Depth(r.levels) > 0
    ensures forall calls {:trigger Record(calls, START, layout)} ::
              r == Record(calls, START, layout) ==> R.Build(calls, layout) == ListOf(Unwound(r, depth - 1), layout)
  {
    forall calls {:trigger Record(calls, START, layout)} | r == Record(calls, START, layout)
      ensures R.Build(calls, layout) == ListOf(Unwound(r, depth - 1), layout)
    {
      UnwoundIsRecorded(calls, depth - 1, START, layout);
    }
  }

  lemma {:induction false} LaidAt(records: map<nat, Op>, ops: seq<Op>, k: nat, layout: Layout)
    requires Laid(records, ops, layout) && k < |ops|
    ensures Bytes(ops[..k], layout) in records && records[Bytes(ops[..k], layout)] == ops[k]
    ensures Bytes(ops[..k + 1], layout) == Bytes(ops[..k], layout) + layout.sizeOf(ops[k])
  {
    assert Init(ops[..k + 1]) == ops[..k];
    if k == |ops| - 1 {
      assert ops[..k] == Init(ops);
    } else {
      LaidAt(records, Init(ops), k, layout);
      assert Init(ops)[..k] == ops[..k];
    }
  }

  /** Only the whole stream is as long as the whole stream. */
  lemma {:induction false} BytesGrow(ops: seq<Op>, k: nat, layout: Layout)
    requires Sane(layout) && k <= |ops| && Bytes(ops[..k], layout) >= Bytes(ops, layout)
    ensures ops[..k] == ops
  {
    if k < |ops| {
      ShorterIsSmaller(ops, k, layout);
    }
  }

  lemma {:induction false} ShorterIsSmaller(ops: seq<Op>, k: nat, layout: Layout)
    requires Sane(layout) && k < |ops|
    ensures Bytes(ops[..k], layout) < Bytes(ops, layout)
  {
    if k == |ops| - 1 {
      assert ops[..k] == Init(ops);
    } else {
      ShorterIsSmaller(Init(ops), k, layout);
      assert Init(ops)[..k] == ops[..k];
    }
  }

  /** What a builder starts its next list from. */
  function Reused(r: Recorder): Recorder {
    Recorder(Push(Empty, Level(Base, if r.levels.Push? then r.levels.top.weight else NOTHING, [])), r.attrs, 0, 0)
  }

  lemma ClearedLevels(layers: seq<LevelInfo>, ls: Levels, layout: Layout)
    requires LevelsMatch(layers, ls, layout) && Shaped(ls) && Depth(ls) == 1
    ensures var ls' := Push(Empty, Level(Base, ls.top.weight, []));
            LevelsMatch(layers, ls', layout) && Shaped(ls') && Stream(ls') == []
  {
    assert ls.below == Empty;
  }

  /** The stream when the top level is left, before the saveLayer record is patched. */
  ghost function ClosingStream(below: Levels, top: Level): seq<Op> {
    if top.kind.Deferred? then Stream(Push(below, top)) else Stream(Push(below, top)) + [Op.Restore]
  }

  /** The saveLayer record that opened the level is where the level began. */
  ghost predicate Closable(below: Levels, top: Level) {
    && below.Push? && Stream(below) <= ClosingStream(below, top)
    && (top.kind.Layer? ==>
          && |Stream(below)| < |ClosingStream(below, top)|
          && ClosingStream(below, top)[|Stream(below)|] == LayerOp(top.kind.layer, false))
  }

  ghost function ClosedStream(below: Levels, top: Level): seq<Op>
    requires Closable(below, top)
  {
    if top.kind.Layer? && top.weight != TOO_MANY
    then ClosingStream(below, top)[|Stream(below)| := LayerOp(top.kind.layer, true)] else ClosingStream(below, top)
  }

  lemma RestoreLayerStep(below: Levels, top: Level)
    requires Shaped(below) && top.kind.Layer? && below.Push?
    ensures Closable(below, top) && Stream(Close(below, top)) == ClosedStream(below, top)
  {
    var end, here := Stream(Push(below, top)) + [Op.Restore], |Stream(below)|;
    CloseLayerStream(below, top);
    LevelStream(below, top);
    assert end[here] == LayerOp(top.kind.layer, false);
    assert end[here := end[here]] == end;
  }

  lemma LevelStream(below: Levels, top: Level)
    ensures Stream(below) <= Stream(Push(below, top)) <= Stream(Push(below, top)) + [Op.Restore]
  {
  }

  lemma RestoreSavedStep(below: Levels, top: Level)
    requires Shaped(below) && top.kind.Saved? && below.Push?
    ensures Closable(below, top) && Stream(Close(below, top)) == ClosedStream(below, top)
  {
    CloseSaveStream(below, top);
  }

  lemma RestoreDeferredStep(below: Levels, top: Level)
    requires Shaped(below) && top.kind.Deferred? && top.nodes == [] && below.Push?
    ensures Closable(below, top) && Stream(Close(below, top)) == ClosedStream(below, top)
  {
    CloseDeferredStream(below, top);
  }

  lemma RestoreStep(below: Levels, top: Level)
    requires Shaped(Push(below, top)) && below.Push?
    ensures Shaped(Close(below, top)) && Closable(below, top)
    ensures Stream(Close(below, top)) == ClosedStream(below, top)
  {
    CloseShaped(below, top);
    match top.kind
    case Layer(_) => RestoreLayerStep(below, top);
    case Saved => RestoreSavedStep(below, top);
    case Deferred => RestoreDeferredStep(below, top);
  }

  /** Setting a blender is setting the mode it stands for, or recording the blender unless it
      is the current one. */
  lemma BlenderStep(r: Recorder, b: Option<Blender>)
    ensures b == None ==> StepSet(r, PaintBlender(b)) == StepSet(r, PaintBlendMode(SrcOver))
    ensures b.Some? && b.value.asMode.Some? ==>
              StepSet(r, PaintBlender(b)) == StepSet(r, PaintBlendMode(b.value.asMode.value))
    ensures b.Some? && b.value.asMode.None? ==>
              StepSet(r, PaintBlender(b)) ==
                if r.attrs.blend == ByBlender(b.value.id) then r
                else r.(levels := Append(r.levels, Leaf(Op.Set(PaintBlender(b)))),
                        attrs := r.attrs.(blend := ByBlender(b.value.id)))
  {
  }

  lemma EnvOpStep(ls: Levels, op: Op)
    requires Shaped(ls) && IsEnvOp(op)
    ensures Shaped(Append(Flush(ls), Leaf(op)))
    ensures Stream(Append(Flush(ls), Leaf(op))) == (Stream(ls) + PendingSave(ls)) + [op]
  {
    FlushShaped(ls, op);
    FlushShapedStream(ls, op);
    Associates(Stream(ls), PendingSave(ls), [op]);
  }

  /** The recorder after n restores. */
  function Unwound(r: Recorder, n: nat): Recorder {
    if n == 0 then r else StepRestore(Unwound(r, n - 1))
  }

  lemma {:induction false} UnwoundIsRecorded(calls: seq<Op>, n: nat, r: Recorder, layout: Layout)
    ensures Record(calls + Restores(n), r, layout) == Unwound(Record(calls, r, layout), n)
  {
    if n == 0 {
      assert calls + Restores(0) == calls;
    } else {
      UnwoundIsRecorded(calls, n - 1, r, layout);
      assert calls + Restores(n) == (calls + Restores(n - 1)) + [Op.Restore];
      RecordSnoc(calls + Restores(n - 1), Op.Restore, r, layout);
    }
  }

  lemma SaveLayerStep(r: Recorder, layer: LayerInfo)
    requires Shaped(r.levels)
    ensures Shaped(StepSaveLayer(r, layer).levels)
    ensures Stream(StepSaveLayer(r, layer).levels) == Stream(r.levels) + [LayerOp(layer, false)]
  {
    AddWeightOk(r.levels, LayerWeight(layer, r.attrs));
  }
}
