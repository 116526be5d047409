// What a builder keeps when it has built a list, and what that does to its next lists.
module BuilderReuse {
  import opened Basics
  import opened DisplayListOps
  import opened RecordTree
  import opened Recorder
  import R = Recorder
  import opened OpacityBits
  import opened Builder

  /** The list built from calls on a builder that starts from some state. */
  function BuildFrom(start: Recorder, calls: seq<Op>, layout: Layout): DisplayList {
    ListOf(ClosedFrom(start, calls, layout), layout)
  }

  function ClosedFrom(start: Recorder, calls: seq<Op>, layout: Layout): Recorder {
    var r := Record(calls, start, layout);
    Unwound(r, if Depth(r.levels) == 0 then 0 else Depth(r.levels) - 1)
  }

  /** The first list is the one specified for the calls. */
  lemma FirstList(calls: seq<Op>, layout: Layout)
    ensures BuildFrom(START, calls, layout) == R.Build(calls, layout)
  {
    RecordOk(calls, layout);
    ClosedIsUnwound(Record(calls, START, layout), Depth(Record(calls, START, layout).levels), layout);
  }

  // ----- A weight on the base level -----

  /** The base level weighs more. */
  function OnBase(ls: Levels, w: Weight): Levels {
    match ls
    case Empty => Empty
    case Push(below, top) =>
      if below.Empty? then Push(Empty, top.(weight := Join(w, top.weight))) else Push(OnBase(below, w), top)
  }

  function WithBase(r: Recorder, w: Weight): Recorder {
    r.(levels := OnBase(r.levels, w))
  }

  lemma {:induction false} OnBaseKeeps(ls: Levels, w: Weight)
    ensures Stream(OnBase(ls, w)) == Stream(ls) && Depth(OnBase(ls, w)) == Depth(ls)
  {
    if ls.Empty? {
    } else {
      OnBaseKeeps(ls.below, w);
    }
  }

  lemma {:induction false} AppendOnBase(ls: Levels, n: Node, w: Weight)
    ensures Append(OnBase(ls, w), n) == OnBase(Append(ls, n), w)
    ensures Append(ls, n).Push? == ls.Push?
  {
    if ls.Empty? {
    } else {
      AppendOnBase(ls.below, n, w);
    }
  }

  lemma AddWeightOnBase(ls: Levels, v: Weight, w: Weight)
    ensures AddWeight(OnBase(ls, w), v) == OnBase(AddWeight(ls, v), w)
  {
    if ls.Push? && ls.below.Empty? {
      JoinAssoc(w, ls.top.weight, v);
    }
  }

  lemma CloseOnBase(below: Levels, l: Level, w: Weight)
    requires below.Push?
    ensures Close(OnBase(below, w), l) == OnBase(Close(below, l), w)
    ensures Close(below, l).Push?
  {
    AddWeightOnBase(below, l.weight, w);
    if ClosedNode(l).Some? {
      AppendOnBase(if l.kind.Layer? then below else AddWeight(below, l.weight), ClosedNode(l).value, w);
    }
  }

  lemma LeafOnBase(ls: Levels, v: Weight, op: Op, w: Weight)
    ensures Append(AddWeight(OnBase(ls, w), v), Leaf(op)) == OnBase(Append(AddWeight(ls, v), Leaf(op)), w)
  {
    AddWeightOnBase(ls, v, w);
    AppendOnBase(AddWeight(ls, v), Leaf(op), w);
  }

  lemma EnvOpOnBase(r: Recorder, op: Op, w: Weight)
    ensures StepEnvOp(WithBase(r, w), op) == WithBase(StepEnvOp(r, op), w)
  {
    assert Flush(OnBase(r.levels, w)) == OnBase(Flush(r.levels), w);
    AppendOnBase(Flush(r.levels), Leaf(op), w);
  }

  /** What is on the base from the start makes no difference to any step but that it is
      there. */
  lemma StepOnBase(r: Recorder, op: Op, w: Weight, layout: Layout)
    requires r.levels.Push?
    ensures Step(WithBase(r, w), op, layout) == WithBase(Step(r, op, layout), w)
    ensures Step(r, op, layout).levels.Push?
  {
    match op
    case Set(s) =>
      var recorded := RecordedSetting(s, r.attrs);
      if recorded.Some? { AppendOnBase(r.levels, Leaf(Op.Set(recorded.value)), w); }
    case Save =>
    case SaveLayer(_, _, _) => AddWeightOnBase(r.levels, LayerWeight(LayerOf(op), r.attrs), w);
    case Restore => RestoreOnBase(r, w);
    case Transform(x, finite) =>
      var x' := ReduceTransform(x, finite);
      if x'.Some? {
        EnvOpOnBase(r, Transform(x'.value, finite), w);
        AppendOnBase(Flush(r.levels), Leaf(Transform(x'.value, finite)), w);
      }
    case TransformReset =>
      EnvOpOnBase(r, op, w);
      AppendOnBase(Flush(r.levels), Leaf(op), w);
    case Clip(shape, clipOp, aa) =>
      if !ClipIsIgnored(shape) {
        EnvOpOnBase(r, Clip(ReduceShape(shape), clipOp, aa), w);
        AppendOnBase(Flush(r.levels), Leaf(Clip(ReduceShape(shape), clipOp, aa)), w);
      }
    case Paint(d) =>
      LeafOnBase(r.levels, DrawWeight(ReduceDraw(d), r.attrs), Paint(ReduceDraw(d)), w);
      AppendOnBase(AddWeight(r.levels, DrawWeight(ReduceDraw(d), r.attrs)), Leaf(Paint(ReduceDraw(d))), w);
  }

  lemma RestoreOnBase(r: Recorder, w: Weight)
    requires r.levels.Push?
    ensures StepRestore(WithBase(r, w)) == WithBase(StepRestore(r), w)
    ensures StepRestore(r).levels.Push?
  {
    if CanRestore(r.levels) {
      CloseOnBase(r.levels.below, r.levels.top, w);
    }
  }

  lemma {:induction false} RecordOnBase(calls: seq<Op>, r: Recorder, w: Weight, layout: Layout)
    requires r.levels.Push?
    ensures Record(calls, WithBase(r, w), layout) == WithBase(Record(calls, r, layout), w)
    ensures Record(calls, r, layout).levels.Push?
  {
    if calls == [] {
    } else {
      RecordOnBase(Init(calls), r, w, layout);
      StepOnBase(Record(Init(calls), r, layout), Last(calls), w, layout);
    }
  }

  lemma {:induction false} UnwoundOnBase(r: Recorder, n: nat, w: Weight)
    requires r.levels.Push?
    ensures Unwound(WithBase(r, w), n) == WithBase(Unwound(r, n), w)
    ensures Unwound(r, n).levels.Push?
  {
    if n == 0 {
    } else {
      UnwoundOnBase(r, n - 1, w);
      RestoreOnBase(Unwound(r, n - 1), w);
    }
  }

  /** All levels above the base have been left. */
  lemma {:induction false} UnwoundDepth(r: Recorder, n: nat)
    requires n < Depth(r.levels)
    ensures Depth(Unwound(r, n).levels) == Depth(r.levels) - n
  {
    if n == 0 {
    } else {
      UnwoundDepth(r, n - 1);
      var ls := Unwound(r, n - 1).levels;
      CloseDepth(ls.below, ls.top);
    }
  }

  // ----- Later lists -----

  /** The state of a builder that has kept its attributes and nothing else. */
  function KeepingAttrs(r: Recorder): Recorder {
    START.(attrs := r.attrs)
  }

  lemma ReusedIsOnBase(r: Recorder)
    requires r.levels.Push?
    ensures Reused(r) == WithBase(KeepingAttrs(r), r.levels.top.weight)
  {
  }

  lemma ClosedOnBase(start: Recorder, calls: seq<Op>, w: Weight, layout: Layout)
    requires start.levels.Push?
    ensures ClosedFrom(WithBase(start, w), calls, layout) == WithBase(ClosedFrom(start, calls, layout), w)
    ensures var own := ClosedFrom(start, calls, layout); own.levels.Push? && own.levels.below.Empty?
  {
    RecordOnBase(calls, start, w, layout);
    var rec := Record(calls, start, layout);
    OnBaseKeeps(rec.levels, w);
    UnwoundOnBase(rec, Depth(rec.levels) - 1, w);
    UnwoundDepth(rec, Depth(rec.levels) - 1);
  }

  lemma ListOnBase(own: Recorder, w: Weight, layout: Layout)
    requires own.levels.Push? && own.levels.below.Empty?
    ensures ListOf(WithBase(own, w), layout) ==
              ListOf(own, layout).(canApplyGroupOpacity := Join(w, own.levels.top.weight) != TOO_MANY)
  {
    OnBaseKeeps(own.levels, w);
  }

  /** A later list is the list that the same calls give from the kept attributes alone, but
      its group-opacity flag also counts what was counted on the base for the lists before. */
  lemma LaterList(r: Recorder, calls: seq<Op>, layout: Layout)
    requires r.levels.Push?
    ensures var own := ClosedFrom(KeepingAttrs(r), calls, layout);
            && own.levels.Push?
            && BuildFrom(Reused(r), calls, layout) ==
                 ListOf(own, layout).(canApplyGroupOpacity := Join(r.levels.top.weight, own.levels.top.weight) != TOO_MANY)
  {
    ReusedIsOnBase(r);
    ClosedOnBase(KeepingAttrs(r), calls, r.levels.top.weight, layout);
    ListOnBase(ClosedFrom(KeepingAttrs(r), calls, layout), r.levels.top.weight, layout);
  }

  // ----- When later lists are as good as first ones -----

  /** A setter that gives one attribute its default value, if it has another. */
  function Resetting(a: Attrs): Option<Setting> {
    if a.antiAlias != DEFAULTS.antiAlias then Some(AntiAlias(DEFAULTS.antiAlias))
    else if a.dither != DEFAULTS.dither then Some(Dither(DEFAULTS.dither))
    else if a.invertColors != DEFAULTS.invertColors then Some(InvertColors(DEFAULTS.invertColors))
    else if a.cap != DEFAULTS.cap then Some(StrokeCap(DEFAULTS.cap))
    else if a.join != DEFAULTS.join then Some(StrokeJoin(DEFAULTS.join))
    else if a.style != DEFAULTS.style then Some(DrawStyle(DEFAULTS.style))
    else if a.width != DEFAULTS.width then Some(StrokeWidth(DEFAULTS.width))
    else if a.miter != DEFAULTS.miter then Some(StrokeMiter(DEFAULTS.miter))
    else if a.color != DEFAULTS.color then Some(PaintColor(DEFAULTS.color))
    else if a.blend != DEFAULTS.blend then Some(PaintBlendMode(SrcOver))
    else if a.source != DEFAULTS.source then Some(ColorSource(None))
    else if a.imageFilter != DEFAULTS.imageFilter then Some(ImageFilter(DEFAULTS.imageFilter))
    else if a.colorFilter != DEFAULTS.colorFilter then Some(ColorFilter(DEFAULTS.colorFilter))
    else if a.pathEffect != DEFAULTS.pathEffect then Some(PathEffect(DEFAULTS.pathEffect))
    else if a.maskFilter != DEFAULTS.maskFilter then Some(MaskFilter(DEFAULTS.maskFilter))
    else None
  }

  lemma ResettingIsNoticed(a: Attrs)
    ensures Resetting(a).None? <==> a == DEFAULTS
    ensures Resetting(a).Some? ==>
              RecordedSetting(Resetting(a).value, DEFAULTS) == None && RecordedSetting(Resetting(a).value, a).Some?
  {
  }

  lemma BaseStream(ls: Levels, nodes: seq<Node>)
    requires ls.Push? && ls.below.Empty? && ls.top.kind.Base? && ls.top.nodes == nodes
    ensures nodes == [] ==> Stream(ls) == []
    ensures |nodes| == 1 && nodes[0].Leaf? ==> Stream(ls) == [nodes[0].op]
  {
    if |nodes| == 1 && nodes[0].Leaf? {
      FlatSnoc([], nodes[0]);
      assert nodes == [] + [nodes[0]];
    }
  }

  /** The list of a single setter, on a builder at its base. */
  lemma SingleSetter(start: Recorder, s: Setting, layout: Layout)
    requires start.levels.Push? && start.levels.below.Empty? && start.levels.top.kind.Base? && start.levels.top.nodes == []
    ensures |BuildFrom(start, [Set(s)], layout).ops| == if RecordedSetting(s, start.attrs).Some? then 1 else 0
  {
    Record1(Set(s), start, layout);
    ClosedAtBase(start, [Set(s)], layout);
    var ls := ClosedFrom(start, [Set(s)], layout).levels;
    BaseStream(ls, ls.top.nodes);
  }

  /** With no level open, there is nothing to close. */
  lemma ClosedAtBase(start: Recorder, calls: seq<Op>, layout: Layout)
    requires var r := Record(calls, start, layout); r.levels.Push? && r.levels.below.Empty?
    ensures ClosedFrom(start, calls, layout) == Record(calls, start, layout)
  {
    assert Depth(Record(calls, start, layout).levels.below) == 0;
  }

  /** The flag of the list of a single SrcOver colour, whatever the attributes. */
  lemma SingleColor(start: Recorder, w: Weight, layout: Layout)
    requires start.levels == Push(Empty, Level(Base, w, []))
    ensures BuildFrom(start, [Paint(DrawColor(BLACK, SrcOver))], layout).canApplyGroupOpacity
            <==> Join(w, SINGLE) != TOO_MANY
  {
    Record1(Paint(DrawColor(BLACK, SrcOver)), start, layout);
    ClosedAtBase(start, [Paint(DrawColor(BLACK, SrcOver))], layout);
  }

  lemma KeptAttrsAreNoticed(r: Recorder, layout: Layout)
    requires r.attrs != DEFAULTS
    ensures Resetting(r.attrs).Some?
    ensures BuildFrom(Reused(r), [Set(Resetting(r.attrs).value)], layout) != R.Build([Set(Resetting(r.attrs).value)], layout)
  {
    ResettingIsNoticed(r.attrs);
    var s := Resetting(r.attrs).value;
    SingleSetter(Reused(r), s, layout);
    SingleSetter(START, s, layout);
    FirstList([Set(s)], layout);
  }

  lemma KeptWeightIsNoticed(r: Recorder, layout: Layout)
    requires r.levels.Push? && r.levels.top.weight != NOTHING
    ensures var calls := [Paint(DrawColor(BLACK, SrcOver))];
            BuildFrom(Reused(r), calls, layout) != R.Build(calls, layout)
  {
    var calls := [Paint(DrawColor(BLACK, SrcOver))];
    SingleColor(Reused(r), r.levels.top.weight, layout);
    SingleColor(START, NOTHING, layout);
    FirstList(calls, layout);
  }

  /** The lists of a builder that has built one are those of a fresh builder, for all calls,
      exactly if its attributes are the defaults again and nothing has ever been counted on
      its base. */
  lemma WhenLaterListsAreFirstLists(r: Recorder, layout: Layout)
    requires r.levels.Push?
    ensures (forall calls {:trigger R.Build(calls, layout)} :: BuildFrom(Reused(r), calls, layout) == R.Build(calls, layout))
       <==> r.attrs == DEFAULTS && r.levels.top.weight == NOTHING
  {
    if r.attrs != DEFAULTS {
      KeptAttrsAreNoticed(r, layout);
    } else if r.levels.top.weight != NOTHING {
      KeptWeightIsNoticed(r, layout);
    } else {
      assert Reused(r) == START;
      forall calls {:trigger R.Build(calls, layout)}
        ensures BuildFrom(Reused(r), calls, layout) == R.Build(calls, layout)
      {
        FirstList(calls, layout);
      }
    }
  }

  // ----- Inputs on which a later list is wrong -----

  /** One compatible draw in each of two lists: both could apply group opacity, but the second
      says it cannot. */
  lemma SecondDrawIsSpoilt(calls: seq<Op>, layout: Layout)
    requires calls == [Paint(DrawColor(BLACK, SrcOver))]
    ensures R.Build(calls, layout).canApplyGroupOpacity
    ensures !BuildFrom(Reused(ClosedFrom(START, calls, layout)), calls, layout).canApplyGroupOpacity
  {
    FirstList(calls, layout);
    SingleColor(START, NOTHING, layout);
    Record1(calls[0], START, layout);
    ClosedAtBase(START, calls, layout);
    var first := ClosedFrom(START, calls, layout);
    assert first.levels.top.weight == SINGLE;
    SingleColor(Reused(first), SINGLE, layout);
  }

  /** The same colour set for each of two lists: the second list does not record it, and
      replays in black. */
  lemma KeptColourIsLost(color: Color, first: seq<Op>, second: seq<Op>, layout: Layout)
    requires color != BLACK
    requires first == [Set(PaintColor(color))] && second == [Set(PaintColor(color)), Paint(DrawPaint)]
    ensures var list := BuildFrom(Reused(ClosedFrom(START, first, layout)), second, layout);
            list.ops == [Paint(DrawPaint)] && After(list.ops, DEFAULTS).color == BLACK
    ensures After(second, DEFAULTS).color == color
  {
    Record1(first[0], START, layout);
    ClosedAtBase(START, first, layout);
    var start := Reused(ClosedFrom(START, first, layout));
    assert start.attrs.color == color;
    assert Init(second) == [second[0]];
    Record1(second[0], start, layout);
    var r := Record(second, start, layout);
    assert r == StepDraw(start, DrawPaint, layout);
    ClosedAtBase(start, second, layout);
    assert r.levels.top.nodes == [Leaf(Paint(DrawPaint))];
    BaseStream(r.levels, r.levels.top.nodes);
    AfterLeaf(Paint(DrawPaint), DEFAULTS);
    AfterLeaf(second[0], DEFAULTS);
    assert second[..1] == [second[0]];
  }
}
