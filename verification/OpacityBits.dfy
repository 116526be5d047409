// The back-patched can-distribute bits are exact: the flags the builder keeps per save
// level, merged on restore, decide exactly what the forest-based analysis says.
module OpacityBits {
  import opened Basics
  import opened DisplayListOps
  import opened RecordTree
  import opened Recorder

  /** The bookkeeping of a level together with the plain saves still open above it. */
  function Tally(ls: Levels): Weight {
    match ls
    case Empty => NOTHING
    case Push(below, top) =>
      if top.kind.Base? || top.kind.Layer? then top.weight else Join(Tally(below), top.weight)
  }

  /** What the recorded content of those same levels counts for. */
  function Content(ls: Levels): Weight {
    match ls
    case Empty => NOTHING
    case Push(below, top) =>
      var count := Count(top.nodes, Replayed(below));
      match top.kind
      case Base => count
      case Layer(layer) => Join(OwnWeight(layer, Replayed(below)), count)
      case _ => Join(Content(below), count)
  }

  predicate IsEnvOp(op: Op) {
    op.Transform? || op.TransformReset? || op.Clip?
  }

  predicate StartsWithEnvOp(ns: seq<Node>) {
    ns != [] && ns[0].Leaf? && IsEnvOp(ns[0].op)
  }

  /** The base, and only the base, is at the bottom; deferred levels hold nothing, recorded
      saves start with the operation they were waiting for. */
  predicate Shaped(ls: Levels) {
    && ls.Push?
    && (ls.top.kind.Base? <==> ls.below.Empty?)
    && (ls.top.kind.Deferred? ==> ls.top.nodes == [])
    && (ls.top.kind.Saved? ==> StartsWithEnvOp(ls.top.nodes))
    && WellFormed(ls.top.nodes)
    && (ls.below.Push? ==> Shaped(ls.below))
  }

  /** Every closed layer carries the right bit, and below every open layer the books
      already include that layer. */
  predicate Exact(ls: Levels) {
    match ls
    case Empty => true
    case Push(below, top) =>
      && Exact(below)
      && BitsExact(top.nodes, Replayed(below))
      && (top.kind.Layer? ==>
            Tally(below) == Join(Content(below), LayerWeight(top.kind.layer, Replayed(below))))
  }

  predicate Ok(r: Recorder) {
    && Shaped(r.levels)
    && Exact(r.levels)
    && Tally(r.levels) == Content(r.levels)
    && AgreeExceptSource(r.attrs, Replayed(r.levels))
  }

  // ----- Streams and attributes -----

  lemma AfterLeaf(op: Op, a: Attrs)
    ensures After([op], a) == StepAttrs(op, a)
  {
    assert [op][..0] == [];
  }

  lemma ReplayedPush(below: Levels, top: Level)
    ensures Replayed(Push(below, top)) == After(Flat(top.nodes), Replayed(below))
  {
    var open := OpenRecord(top.kind);
    AfterConcat(Stream(below) + open, Flat(top.nodes), DEFAULTS);
    AfterConcat(Stream(below), open, DEFAULTS);
    if open != [] { AfterLeaf(open[0], Replayed(below)); }
  }

  lemma NodesSnoc(ns: seq<Node>, n: Node, a: Attrs)
    ensures Flat(ns + [n]) == Flat(ns) + FlatNode(n)
    ensures After(Flat(ns + [n]), a) == After(FlatNode(n), After(Flat(ns), a))
    ensures Count(ns + [n], a) == Join(Count(ns, a), NodeWeight(n, After(Flat(ns), a)))
    ensures BitsExact(ns + [n], a) == (BitsExact(ns, a) && NodeBitExact(n, After(Flat(ns), a)))
    ensures WellFormed(ns + [n]) == (WellFormed(ns) && WellFormedNode(n))
  {
    assert (ns + [n])[..|ns|] == ns;
    AfterConcat(Flat(ns), FlatNode(n), a);
  }

  lemma {:induction false} AppendStream(ls: Levels, n: Node)
    requires Shaped(ls)
    ensures Stream(Append(ls, n)) == Stream(ls) + FlatNode(n)
  {
    if ls.top.kind.Deferred? {
      AppendStream(ls.below, n);
      DeferredAddsNothing(ls.below, ls.top);
      DeferredAddsNothing(Append(ls.below, n), ls.top);
    } else {
      FlatSnoc(ls.top.nodes, n);
      Associates(Stream(ls.below) + OpenRecord(ls.top.kind), Flat(ls.top.nodes), FlatNode(n));
    }
  }

  lemma DeferredAddsNothing(below: Levels, top: Level)
    requires top.kind.Deferred? && top.nodes == []
    ensures Stream(Push(below, top)) == Stream(below)
  {
    assert Flat(top.nodes) == [];
  }

  lemma AppendReplayed(ls: Levels, n: Node)
    requires Shaped(ls)
    ensures Replayed(Append(ls, n)) == After(FlatNode(n), Replayed(ls))
  {
    AppendStream(ls, n);
    AfterConcat(Stream(ls), FlatNode(n), DEFAULTS);
  }

  // ----- The primitive moves keep the books -----

  lemma JoinAssoc(a: Weight, b: Weight, c: Weight)
    ensures Join(Join(a, b), c) == Join(a, Join(b, c))
  {
  }

  lemma {:induction false} AppendShaped(ls: Levels, n: Node)
    requires Shaped(ls) && WellFormedNode(n)
    ensures Shaped(Append(ls, n))
  {
    if ls.top.kind.Deferred? {
      AppendShaped(ls.below, n);
    } else {
      WellFormedSnoc(ls.top.nodes, n);
    }
  }

  lemma WellFormedSnoc(ns: seq<Node>, n: Node)
    ensures WellFormed(ns + [n]) == (WellFormed(ns) && WellFormedNode(n))
    ensures StartsWithEnvOp(ns) ==> StartsWithEnvOp(ns + [n])
  {
    assert (ns + [n])[..|ns|] == ns;
  }

  lemma {:induction false} AppendTally(ls: Levels, n: Node)
    ensures Tally(Append(ls, n)) == Tally(ls)
  {
    if ls.Empty? {
    } else {
      AppendTally(ls.below, n);
    }
  }

  lemma {:induction false} AppendExact(ls: Levels, n: Node)
    requires Shaped(ls) && Exact(ls) && NodeBitExact(n, Replayed(ls))
    ensures Exact(Append(ls, n))
    ensures Content(Append(ls, n)) == Join(Content(ls), NodeWeight(n, Replayed(ls)))
  {
    ReplayedPush(ls.below, ls.top);
    if ls.top.kind.Deferred? {
      AppendExact(ls.below, n);
    } else {
      var a := Replayed(ls.below);
      NodesSnoc(ls.top.nodes, n, a);
      JoinAssoc(Content(ls.below), Count(ls.top.nodes, a), NodeWeight(n, Replayed(ls)));
      if ls.top.kind.Layer? {
        JoinAssoc(OwnWeight(ls.top.kind.layer, a), Count(ls.top.nodes, a), NodeWeight(n, Replayed(ls)));
      }
    }
  }

  /** Appending a node keeps the stack in order and raises its content by the node's weight. */
  lemma AppendOk(ls: Levels, n: Node)
    requires Shaped(ls) && Exact(ls)
    requires WellFormedNode(n) && NodeBitExact(n, Replayed(ls))
    ensures Shaped(Append(ls, n)) && Exact(Append(ls, n))
    ensures Content(Append(ls, n)) == Join(Content(ls), NodeWeight(n, Replayed(ls)))
    ensures Tally(Append(ls, n)) == Tally(ls)
    ensures Replayed(Append(ls, n)) == After(FlatNode(n), Replayed(ls))
  {
    AppendShaped(ls, n);
    AppendTally(ls, n);
    AppendExact(ls, n);
    AppendReplayed(ls, n);
  }

  lemma AddWeightOk(ls: Levels, w: Weight)
    requires Shaped(ls)
    ensures Shaped(AddWeight(ls, w)) && Exact(AddWeight(ls, w)) == Exact(ls)
    ensures Content(AddWeight(ls, w)) == Content(ls)
    ensures Tally(AddWeight(ls, w)) == Join(Tally(ls), w)
    ensures Stream(AddWeight(ls, w)) == Stream(ls)
  {
  }

  // ----- Steps -----

  lemma SourceAgrees(source: Option<Source>, a: Attrs, b: Attrs)
    requires AgreeExceptSource(a, b)
    ensures var s := ColorSource(source);
            var recorded := RecordedSetting(s, a);
            AgreeExceptSource(Apply(s, a), if recorded.Some? then Apply(recorded.value, b) else b)
  {
  }

  lemma BlenderAgrees(blender: Option<Blender>, a: Attrs, b: Attrs)
    requires AgreeExceptSource(a, b)
    ensures var s := PaintBlender(blender);
            var recorded := RecordedSetting(s, a);
            AgreeExceptSource(Apply(s, a), if recorded.Some? then Apply(recorded.value, b) else b)
  {
  }

  /** The recorded setter has the effect of the call, except perhaps on the source. */
  lemma SettingAgrees(s: Setting, a: Attrs, b: Attrs)
    requires AgreeExceptSource(a, b)
    ensures var recorded := RecordedSetting(s, a);
            AgreeExceptSource(Apply(s, a), if recorded.Some? then Apply(recorded.value, b) else b)
  {
    match s
    case ColorSource(source) => SourceAgrees(source, a, b);
    case PaintBlender(blender) => BlenderAgrees(blender, a, b);
    case _ =>
  }

  lemma SetterOk(r: Recorder, recorded: Setting, a: Attrs)
    requires Ok(r) && AgreeExceptSource(a, Apply(recorded, Replayed(r.levels)))
    ensures Ok(r.(levels := Append(r.levels, Leaf(Set(recorded))), attrs := a))
  {
    AppendOk(r.levels, Leaf(Set(recorded)));
    AfterLeaf(Set(recorded), Replayed(r.levels));
  }

  lemma SetOk(r: Recorder, s: Setting)
    requires Ok(r)
    ensures Ok(StepSet(r, s))
  {
    var recorded := RecordedSetting(s, r.attrs);
    SettingAgrees(s, r.attrs, Replayed(r.levels));
    if recorded.Some? {
      SetterOk(r, recorded.value, Apply(s, r.attrs));
    }
  }

  lemma SaveOk(r: Recorder)
    requires Ok(r)
    ensures Ok(StepSave(r))
  {
    ReplayedPush(r.levels, Level(Deferred, NOTHING, []));
  }

  lemma SaveLayerOk(r: Recorder, layer: LayerInfo)
    requires Ok(r)
    ensures Ok(StepSaveLayer(r, layer))
  {
    AddWeightOk(r.levels, LayerWeight(layer, r.attrs));
    ReplayedPush(AddWeight(r.levels, LayerWeight(layer, r.attrs)),
                 Level(Layer(layer), OwnWeight(layer, r.attrs), []));
  }

  lemma FlushOk(ls: Levels, op: Op)
    requires Shaped(ls) && Exact(ls) && IsEnvOp(op) && ls.top.kind.Deferred?
    ensures var ls' := Append(Flush(ls), Leaf(op));
            && Shaped(ls') && Exact(ls')
            && Content(ls') == Content(ls)
            && Tally(ls') == Tally(ls)
            && Replayed(ls') == Replayed(ls)
  {
    NodesSnoc([], Leaf(op), Replayed(ls.below));
    assert [] + [Leaf(op)] == [Leaf(op)];
    AfterLeaf(op, Replayed(ls.below));
    ReplayedPush(ls.below, ls.top);
    ReplayedPush(ls.below, Level(Saved, ls.top.weight, [Leaf(op)]));
  }

  lemma EnvOpOk(r: Recorder, op: Op)
    requires Ok(r) && IsEnvOp(op)
    ensures Ok(StepEnvOp(r, op))
  {
    if IsDeferred(r.levels) {
      FlushOk(r.levels, op);
    } else {
      AppendOk(r.levels, Leaf(op));
      AfterLeaf(op, Replayed(r.levels));
    }
  }

  lemma DrawOk(r: Recorder, d: Draw, layout: Layout)
    requires Ok(r)
    ensures Ok(StepDraw(r, d, layout))
  {
    AddWeightOk(r.levels, DrawWeight(d, r.attrs));
    AppendOk(AddWeight(r.levels, DrawWeight(d, r.attrs)), Leaf(Paint(d)));
    AfterLeaf(Paint(d), Replayed(r.levels));
  }

  /** A group leaves the attributes as its body leaves them. */
  lemma AfterGroup(open: Op, body: seq<Node>, a: Attrs)
    requires IsStructural(open)
    ensures After([open] + Flat(body) + [Restore], a) == After(Flat(body), a)
  {
    AfterConcat([open] + Flat(body), [Restore], a);
    AfterConcat([open], Flat(body), a);
    AfterLeaf(open, a);
    AfterLeaf(Restore, After(Flat(body), a));
  }

  lemma CloseOk(below: Levels, l: Level)
    requires Shaped(Push(below, l)) && Exact(Push(below, l)) && below.Push?
    requires Tally(Push(below, l)) == Content(Push(below, l))
    ensures Shaped(Close(below, l)) && Exact(Close(below, l))
    ensures Tally(Close(below, l)) == Content(Close(below, l))
    ensures Replayed(Close(below, l)) == Replayed(Push(below, l))
  {
    ReplayedPush(below, l);
    AddWeightOk(below, l.weight);
    var ls := if l.kind.Layer? then below else AddWeight(below, l.weight);
    if ClosedNode(l).Some? {
      AppendOk(ls, ClosedNode(l).value);
      match l.kind
      case Layer(layer) => AfterGroup(LayerOp(layer, l.weight != TOO_MANY), l.nodes, Replayed(below));
      case _ => AfterGroup(Save, l.nodes, Replayed(below));
    }
  }

  lemma CloseShaped(below: Levels, l: Level)
    requires Shaped(Push(below, l)) && below.Push?
    ensures Shaped(Close(below, l))
  {
    if ClosedNode(l).Some? {
      AppendShaped(if l.kind.Layer? then below else AddWeight(below, l.weight), ClosedNode(l).value);
    }
  }

  lemma FlushShaped(ls: Levels, op: Op)
    requires Shaped(ls) && IsEnvOp(op)
    ensures Shaped(Append(Flush(ls), Leaf(op)))
  {
    if IsDeferred(ls) {
      WellFormedSnoc([], Leaf(op));
    } else {
      AppendShaped(ls, Leaf(op));
    }
  }

  lemma StepOk(r: Recorder, op: Op, layout: Layout)
    requires Ok(r)
    ensures Ok(Step(r, op, layout))
  {
    match op
    case Set(s) => SetOk(r, s);
    case Save => SaveOk(r);
    case SaveLayer(_, _, _) => SaveLayerOk(r, LayerOf(op));
    case Restore => if CanRestore(r.levels) { CloseOk(r.levels.below, r.levels.top); }
    case Transform(x, finite) =>
      var x' := ReduceTransform(x, finite);
      if x'.Some? { EnvOpOk(r, Transform(x'.value, finite)); }
    case TransformReset => EnvOpOk(r, op);
    case Clip(shape, clipOp, aa) =>
      if !ClipIsIgnored(shape) { EnvOpOk(r, Clip(ReduceShape(shape), clipOp, aa)); }
    case Paint(d) => DrawOk(r, ReduceDraw(d), layout);
  }

  lemma {:induction false} RecordOk(calls: seq<Op>, layout: Layout)
    ensures Ok(Record(calls, START, layout))
  {
    if calls == [] {
    } else {
      RecordOk(Init(calls), layout);
      StepOk(Record(Init(calls), START, layout), Last(calls), layout);
    }
  }

  // ----- Closing -----

  lemma RecordSnoc(calls: seq<Op>, op: Op, r: Recorder, layout: Layout)
    ensures Record(calls + [op], r, layout) == Step(Record(calls, r, layout), op, layout)
  {
    assert Init(calls + [op]) == calls;
  }

  lemma {:induction false} AppendDepth(ls: Levels, n: Node)
    ensures Depth(Append(ls, n)) == Depth(ls)
  {
    if ls.Empty? {
    } else {
      AppendDepth(ls.below, n);
    }
  }

  lemma CloseDepth(below: Levels, l: Level)
    ensures Depth(Close(below, l)) == Depth(below)
  {
    if ClosedNode(l).Some? {
      AppendDepth(if l.kind.Layer? then below else AddWeight(below, l.weight), ClosedNode(l).value);
    }
  }

  lemma {:induction false} RestoresClose(calls: seq<Op>, n: nat, layout: Layout)
    requires n < Depth(Record(calls, START, layout).levels)
    ensures Depth(Record(calls + Restores(n), START, layout).levels)
         == Depth(Record(calls, START, layout).levels) - n
  {
    if n == 0 {
      assert calls + Restores(0) == calls;
    } else {
      RestoresClose(calls, n - 1, layout);
      var before := calls + Restores(n - 1);
      assert calls + Restores(n) == before + [Restore];
      RecordSnoc(before, Restore, START, layout);
      var ls := Record(before, START, layout).levels;
      CloseDepth(ls.below, ls.top);
    }
  }

  lemma ClosedReachesBase(calls: seq<Op>, layout: Layout)
    ensures Depth(Record(Closed(calls, layout), START, layout).levels) == 1
    ensures Ok(Record(Closed(calls, layout), START, layout))
  {
    RecordOk(calls, layout);
    RestoresClose(calls, Depth(Record(calls, START, layout).levels) - 1, layout);
    RecordOk(Closed(calls, layout), layout);
  }

  /** A list the builder could have produced, not looking inside the lists it draws. */
  predicate IsBuilt(list: DisplayList, ns: seq<Node>) {
    && WellFormed(ns)
    && list.ops == Flat(ns)
    && BitsExact(ns, DEFAULTS)
    && (list.canApplyGroupOpacity <==> Count(ns, DEFAULTS) != TOO_MANY)
  }

  function BuiltForest(calls: seq<Op>, layout: Layout): seq<Node> {
    var ls := Record(Closed(calls, layout), START, layout).levels;
    if ls.Push? then ls.top.nodes else []
  }

  /** The main result: whatever calls the builder receives, the list it builds is balanced,
      every saveLayer record in it carries the can-distribute bit exactly when its content
      and attributes allow it, and so does the list itself. */
  lemma BuildIsExact(calls: seq<Op>, layout: Layout)
    ensures IsBuilt(Build(calls, layout), BuiltForest(calls, layout))
  {
    ClosedReachesBase(calls, layout);
    var ls := Record(Closed(calls, layout), START, layout).levels;
    assert Replayed(ls.below) == DEFAULTS;
    assert Stream(ls) == Flat(ls.top.nodes);
  }
}
