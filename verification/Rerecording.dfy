// Recording is a normal form: dispatching a built list into a fresh builder and building
// again gives the same list, bit for bit, except exactly when the first recording set a
// source that an earlier colour-type source had left live.
module Rerecording {
  import opened Basics
  import opened DisplayListOps
  import opened RecordTree
  import opened Recorder
  import opened OpacityBits
  import opened Emission
  import opened Elision
  import opened NestedCounts

  // ----- Records in normal form -----

  /** Recorded as itself, whatever the attributes; setters are treated separately. */
  predicate IsReduced(op: Op) {
    match op
    case Transform(x, finite) => ReduceTransform(x, finite) == Some(x)
    case Clip(shape, _, _) => !ClipIsIgnored(shape) && ReduceShape(shape) == shape
    case Paint(d) => ReduceDraw(d) == d
    case _ => true
  }

  predicate NormalNode(n: Node) {
    match n
    case Leaf(op) => IsReduced(op) && !IsStructural(op)
    case SaveGroup(body) => StartsWithEnvOp(body) && Normal(body)
    case LayerGroup(_, _, body) => Normal(body)
  }

  predicate Normal(ns: seq<Node>) {
    ns == [] || (Normal(ns[..|ns| - 1]) && NormalNode(ns[|ns| - 1]))
  }

  predicate NormalLevels(ls: Levels) {
    ls.Push? ==> Normal(ls.top.nodes) && NormalLevels(ls.below)
  }

  lemma NormalSnoc(ns: seq<Node>, n: Node)
    ensures Normal(ns + [n]) == (Normal(ns) && NormalNode(n))
  {
    assert (ns + [n])[..|ns|] == ns;
  }

  lemma {:induction false} AppendNormal(ls: Levels, n: Node)
    requires NormalLevels(ls) && NormalNode(n)
    ensures NormalLevels(Append(ls, n))
  {
    if ls.Empty? {
    } else {
      AppendNormal(ls.below, n);
      NormalSnoc(ls.top.nodes, n);
    }
  }

  lemma CloseNormal(below: Levels, l: Level)
    requires Shaped(Push(below, l)) && NormalLevels(Push(below, l))
    ensures NormalLevels(Close(below, l))
  {
    if ClosedNode(l).Some? {
      AppendNormal(if l.kind.Layer? then below else AddWeight(below, l.weight), ClosedNode(l).value);
    }
  }

  lemma ReductionsAreReduced(op: Op)
    ensures op.Transform? && ReduceTransform(op.xform, op.finite).Some? ==>
              IsReduced(Transform(ReduceTransform(op.xform, op.finite).value, op.finite))
    ensures op.Clip? && !ClipIsIgnored(op.shape) ==> IsReduced(Clip(ReduceShape(op.shape), op.clipOp, op.aa))
    ensures op.Paint? ==> IsReduced(Paint(ReduceDraw(op.draw)))
  {
  }

  lemma StepNormal(r: Recorder, op: Op, layout: Layout)
    requires Shaped(r.levels) && NormalLevels(r.levels)
    ensures NormalLevels(Step(r, op, layout).levels)
  {
    ReductionsAreReduced(op);
    match op
    case Set(s) =>
      if RecordedSetting(s, r.attrs).Some? { AppendNormal(r.levels, Leaf(Set(RecordedSetting(s, r.attrs).value))); }
    case Restore => if CanRestore(r.levels) { CloseNormal(r.levels.below, r.levels.top); }
    case Transform(x, finite) =>
      var x' := ReduceTransform(x, finite);
      if x'.Some? { AppendNormal(Flush(r.levels), Leaf(Transform(x'.value, finite))); }
    case TransformReset => AppendNormal(Flush(r.levels), Leaf(op));
    case Clip(shape, clipOp, aa) =>
      if !ClipIsIgnored(shape) { AppendNormal(Flush(r.levels), Leaf(Clip(ReduceShape(shape), clipOp, aa))); }
    case Paint(d) =>
      AppendNormal(AddWeight(r.levels, DrawWeight(ReduceDraw(d), r.attrs)), Leaf(Paint(ReduceDraw(d))));
    case _ =>
  }

  lemma {:induction false} RecordNormal(calls: seq<Op>, layout: Layout)
    ensures NormalLevels(Record(calls, START, layout).levels)
  {
    if calls == [] {
    } else {
      RecordNormal(Init(calls), layout);
      RecordOk(Init(calls), layout);
      StepNormal(Record(Init(calls), START, layout), Last(calls), layout);
    }
  }

  // ----- Setters that have an effect -----

  /** Every setter changes the attributes that replay has at that moment. */
  predicate Effective(ops: seq<Op>, a: Attrs) {
    ops == [] ||
    (Effective(Init(ops), a) &&
     (Last(ops).Set? ==> RecordedSetting(Last(ops).setting, After(Init(ops), a)) == Some(Last(ops).setting)))
  }

  lemma {:induction false} EffectiveConcat(s: seq<Op>, t: seq<Op>, a: Attrs)
    ensures Effective(s + t, a) == (Effective(s, a) && Effective(t, After(s, a)))
  {
    if t == [] {
      assert s + t == s;
    } else {
      EffectiveConcat(s, Init(t), a);
      AfterConcat(s, Init(t), a);
      assert Init(s + t) == s + Init(t);
    }
  }

  // ----- Rerecording a forest -----

  /** The top level after the forest has been recorded into it. */
  function WithNodes(ls: Levels, ns: seq<Node>, w: Weight): Levels {
    match ls
    case Empty => Empty
    case Push(below, top) => Push(below, Level(top.kind, Join(top.weight, w), top.nodes + ns))
  }

  predicate Rerecords(ns: seq<Node>, r: Recorder, layout: Layout) {
    var r' := Record(Flat(ns), r, layout);
    r'.levels == WithNodes(r.levels, ns, Count(ns, r.attrs)) && r'.attrs == After(Flat(ns), r.attrs)
  }

  lemma {:induction false} RecordConcat(s: seq<Op>, t: seq<Op>, r: Recorder, layout: Layout)
    ensures Record(s + t, r, layout) == Record(t, Record(s, r, layout), layout)
  {
    if t == [] {
      assert s + t == s;
    } else {
      RecordConcat(s, Init(t), r, layout);
      assert Init(s + t) == s + Init(t);
    }
  }

  lemma RecordGroup(open: Op, body: seq<Op>, r: Recorder, layout: Layout)
    ensures Record([open] + body + [Restore], r, layout)
         == StepRestore(Record(body, Step(r, open, layout), layout))
  {
    RecordConcat([open] + body, [Restore], r, layout);
    RecordConcat([open], body, r, layout);
    Record1(open, r, layout);
    Record1(Restore, Record(body, Step(r, open, layout), layout), layout);
  }

  function Opened(r: Recorder, kind: Kind): Recorder {
    r.(levels := Push(r.levels, Level(kind, NOTHING, [])))
  }

  lemma FlushingStep(op: Op, r: Recorder, layout: Layout)
    requires IsEnvOp(op) && IsReduced(op)
    ensures Step(Opened(r, Deferred), op, layout) == Step(Opened(r, Saved), op, layout)
  {
  }

  /** With a first record that flushes, it makes no difference whether the save is deferred. */
  lemma DeferredOrSaved(body: seq<Node>, r: Recorder, layout: Layout)
    requires StartsWithEnvOp(body) && IsReduced(body[0].op)
    ensures Record(Flat(body), Opened(r, Deferred), layout) == Record(Flat(body), Opened(r, Saved), layout)
  {
    var op, rest := body[0].op, Flat(body[1..]);
    assert body == [body[0]] + body[1..];
    FlatConcat([body[0]], body[1..]);
    SingleNode(body[0], r.attrs);
    assert Flat(body) == [op] + rest;
    RecordConcat([op], rest, Opened(r, Deferred), layout);
    RecordConcat([op], rest, Opened(r, Saved), layout);
    Record1(op, Opened(r, Deferred), layout);
    Record1(op, Opened(r, Saved), layout);
    FlushingStep(op, r, layout);
  }

  lemma {:induction false} FirstIsNormal(ns: seq<Node>)
    requires Normal(ns) && ns != []
    ensures NormalNode(ns[0])
  {
    if |ns| > 1 { FirstIsNormal(Init(ns)); }
  }

  lemma RerecordLeaf(op: Op, r: Recorder, layout: Layout)
    requires NormalNode(Leaf(op)) && Effective([op], r.attrs)
    requires r.levels.Push? && !IsDeferred(r.levels)
    ensures Rerecords([Leaf(op)], r, layout)
  {
    SingleNode(Leaf(op), r.attrs);
    Record1(op, r, layout);
    AfterLeaf(op, r.attrs);
    assert Init([op]) == [];
  }

  lemma SingleNode(n: Node, a: Attrs)
    ensures Flat([n]) == FlatNode(n)
    ensures Count([n], a) == NodeWeight(n, a)
    ensures BitsExact([n], a) == NodeBitExact(n, a)
  {
    assert [n][..0] == [];
    assert Flat([]) == [] && After([], a) == a && Count([], a) == NOTHING;
  }

  /** Recording the forest into an open level and closing that level leaves its node below. */
  lemma CloseRerecorded(below: Levels, l: Level, w: Weight)
    requires below.Push? && !IsDeferred(below) && (l.kind.Saved? || l.kind.Layer?)
    requires w == if l.kind.Saved? then l.weight else NOTHING
    ensures Close(below, l) == WithNodes(below, [ClosedNode(l).value], w)
  {
  }

  lemma {:induction false} RerecordSave(body: seq<Node>, r: Recorder, layout: Layout)
    requires NormalNode(SaveGroup(body)) && BitsExact(body, r.attrs) && Effective(Flat(body), r.attrs)
    requires r.levels.Push? && !IsDeferred(r.levels)
    ensures Rerecords([SaveGroup(body)], r, layout)
    decreases body, 2
  {
    SingleNode(SaveGroup(body), r.attrs);
    RecordGroup(Save, Flat(body), r, layout);
    AfterGroup(Save, body, r.attrs);
    FirstIsNormal(body);
    DeferredOrSaved(body, r, layout);
    RerecordForest(body, Opened(r, Saved), layout);
    assert [] + body == body;
    CloseRerecorded(r.levels, Level(Saved, Count(body, r.attrs), body), Count(body, r.attrs));
  }

  lemma {:induction false} RerecordLayer(layer: LayerInfo, bit: bool, body: seq<Node>, r: Recorder, layout: Layout)
    requires Normal(body) && NodeBitExact(LayerGroup(layer, bit, body), r.attrs) && Effective(Flat(body), r.attrs)
    requires r.levels.Push? && !IsDeferred(r.levels)
    ensures Rerecords([LayerGroup(layer, bit, body)], r, layout)
    decreases body, 2
  {
    var open, r1 := LayerOp(layer, bit), StepSaveLayer(r, layer);
    SingleNode(LayerGroup(layer, bit, body), r.attrs);
    RecordGroup(open, Flat(body), r, layout);
    AfterGroup(open, body, r.attrs);
    assert Step(r, open, layout) == r1;
    RerecordForest(body, r1, layout);
    CloseLayerAgain(layer, bit, body, r, Record(Flat(body), r1, layout));
  }

  lemma CloseLayerAgain(layer: LayerInfo, bit: bool, body: seq<Node>, r: Recorder, r2: Recorder)
    requires bit == CanDistribute(layer, body, r.attrs) && r.levels.Push? && !IsDeferred(r.levels)
    requires r2.levels == WithNodes(StepSaveLayer(r, layer).levels, body, Count(body, r.attrs))
    ensures StepRestore(r2).levels == WithNodes(r.levels, [LayerGroup(layer, bit, body)], LayerWeight(layer, r.attrs))
  {
    assert [] + body == body;
    var below := AddWeight(r.levels, LayerWeight(layer, r.attrs));
    CloseRerecorded(below, Level(Layer(layer), Join(OwnWeight(layer, r.attrs), Count(body, r.attrs)), body), NOTHING);
  }

  lemma {:induction false} RerecordNode(n: Node, r: Recorder, layout: Layout)
    requires NormalNode(n) && NodeBitExact(n, r.attrs) && Effective(FlatNode(n), r.attrs)
    requires r.levels.Push? && !IsDeferred(r.levels)
    ensures Rerecords([n], r, layout)
    decreases n, 0
  {
    match n
    case Leaf(op) =>
      RerecordLeaf(op, r, layout);
    case SaveGroup(body) =>
      EffectiveGroup(Save, body, r.attrs);
      RerecordSave(body, r, layout);
    case LayerGroup(layer, bit, body) =>
      EffectiveGroup(LayerOp(layer, bit), body, r.attrs);
      RerecordLayer(layer, bit, body, r, layout);
  }

  lemma EffectiveGroup(open: Op, body: seq<Node>, a: Attrs)
    requires IsStructural(open) && Effective([open] + Flat(body) + [Restore], a)
    ensures Effective(Flat(body), a)
  {
    EffectiveConcat([open] + Flat(body), [Restore], a);
    EffectiveConcat([open], Flat(body), a);
    AfterLeaf(open, a);
  }

  lemma WithNodesTwice(ls: Levels, ns: seq<Node>, v: Weight, n: Node, w: Weight)
    ensures WithNodes(WithNodes(ls, ns, v), [n], w) == WithNodes(ls, ns + [n], Join(v, w))
  {
    if ls.Push? { assert ls.top.nodes + (ns + [n]) == (ls.top.nodes + ns) + [n]; }
  }

  /** The forests recorded one after the other. */
  lemma RerecordSnoc(init: seq<Node>, last: Node, r: Recorder, layout: Layout)
    requires Rerecords(init, r, layout)
    requires Rerecords([last], Record(Flat(init), r, layout), layout)
    ensures Rerecords(init + [last], r, layout)
  {
    var r1 := Record(Flat(init), r, layout);
    SingleNode(last, r1.attrs);
    NodesSnoc(init, last, r.attrs);
    RecordConcat(Flat(init), FlatNode(last), r, layout);
    WithNodesTwice(r.levels, init, Count(init, r.attrs), last, NodeWeight(last, r1.attrs));
  }

  lemma {:induction false} RerecordForest(ns: seq<Node>, r: Recorder, layout: Layout)
    requires Normal(ns) && BitsExact(ns, r.attrs) && Effective(Flat(ns), r.attrs)
    requires r.levels.Push? && !IsDeferred(r.levels)
    ensures Rerecords(ns, r, layout)
    decreases ns, 1
  {
    if ns == [] {
      assert r.levels.top.nodes + [] == r.levels.top.nodes;
    } else {
      var init, last := Init(ns), Last(ns);
      assert ns == init + [last];
      EffectiveConcat(Flat(init), FlatNode(last), r.attrs);
      RerecordForest(init, r, layout);
      RerecordNode(last, Record(Flat(init), r, layout), layout);
      RerecordSnoc(init, last, r, layout);
    }
  }

  // ----- When every recorded setter has an effect -----

  /** No call brings back the very source that is still live on replay. */
  predicate NoLiveSourceAgain(calls: seq<Op>) {
    calls == [] ||
    (var init, op := Init(calls), Last(calls);
     && NoLiveSourceAgain(init)
     && (IsSourceCall(op) && !IsColourSourceCall(op) && CurrentSource(calls) != CurrentSource(init) ==>
           CurrentSource(calls) != LiveSource(init)))
  }

  lemma {:induction false} PatchKeepsSetters(s: seq<Op>, i: nat, op: Op, a: Attrs)
    requires i < |s| && !s[i].Set? && !op.Set?
    ensures After(s[i := op], a) == After(s, a)
    ensures Effective(s[i := op], a) == Effective(s, a)
  {
    if i == |s| - 1 {
      assert Init(s[i := op]) == Init(s);
    } else {
      PatchKeepsSetters(Init(s), i, op, a);
      assert Init(s[i := op]) == Init(s)[i := op];
    }
  }

  predicate NoSetters(ops: seq<Op>) {
    forall op :: op in ops ==> !op.Set?
  }

  lemma {:induction false} NoSettersAreEffective(ops: seq<Op>, b: Attrs)
    requires NoSetters(ops)
    ensures Effective(ops, b)
  {
    if ops == [] {
    } else {
      NoSettersAreEffective(Init(ops), b);
    }
  }

  lemma EmitsNoSetters(r: Recorder, op: Op)
    requires !op.Set?
    ensures NoSetters(Emitted(r, op))
  {
  }

  lemma SingleEffective(s: Setting, b: Attrs)
    ensures Effective([], b)
    ensures Effective([Set(s)], b) <==> RecordedSetting(s, b) == Some(s)
  {
    assert Init([Set(s)]) == [];
  }

  lemma EffectiveEmission(r: Recorder, op: Op, b: Attrs)
    ensures Effective(Emitted(r, op), b) ==
            (op.Set? && RecordedSetting(op.setting, r.attrs).Some? ==>
               RecordedSetting(RecordedSetting(op.setting, r.attrs).value, b)
               == Some(RecordedSetting(op.setting, r.attrs).value))
  {
    if op.Set? {
      var recorded := RecordedSetting(op.setting, r.attrs);
      SingleEffective(if recorded.Some? then recorded.value else op.setting, b);
    } else {
      EmitsNoSetters(r, op);
      NoSettersAreEffective(Emitted(r, op), b);
    }
  }

  /** A recorded setter has no effect on replay only if it sets the source that is live. */
  lemma EffectiveSetting(s: Setting, a: Attrs, b: Attrs)
    requires AgreeExceptSource(a, b)
    ensures var recorded := RecordedSetting(s, a);
            recorded.Some? ==>
              (RecordedSetting(recorded.value, b) == recorded
               <==> !(s.ColorSource? && !IsColourSourceCall(Set(s)) && Apply(s, a).source == b.source))
    ensures s.ColorSource? && !IsColourSourceCall(Set(s)) ==>
              (RecordedSetting(s, a).Some? <==> Apply(s, a).source != a.source)
  {
  }

  lemma {:induction false} WhenSettersAreEffective(calls: seq<Op>, layout: Layout)
    ensures Effective(Stream(Record(calls, START, layout).levels), DEFAULTS) <==> NoLiveSourceAgain(calls)
  {
    if calls == [] {
    } else {
      var init, op := Init(calls), Last(calls);
      var r := Record(init, START, layout);
      WhenSettersAreEffective(init, layout);
      RecordOk(init, layout);
      RecorderFollowsAttrs(init, layout);
      LiveSourceIsReplayed(init, layout);
      StreamStep(r, op, layout);
      var s := Stream(r.levels) + Emitted(r, op);
      if Patches(r, op) {
        PatchKeepsSetters(s, |Stream(r.levels.below)|, LayerOp(r.levels.top.kind.layer, true), DEFAULTS);
      }
      EffectiveConcat(Stream(r.levels), Emitted(r, op), DEFAULTS);
      EffectiveEmission(r, op, Replayed(r.levels));
      if op.Set? { EffectiveSetting(op.setting, r.attrs, Replayed(r.levels)); }
    }
  }

  // ----- Recording never makes a stream longer -----

  function DeferredLevels(ls: Levels): nat {
    match ls
    case Empty => 0
    case Push(below, top) => DeferredLevels(below) + if top.kind.Deferred? then 1 else 0
  }

  function Held(r: Recorder): nat {
    |Stream(r.levels)| + DeferredLevels(r.levels)
  }

  lemma {:induction false} AppendDeferred(ls: Levels, n: Node)
    ensures DeferredLevels(Append(ls, n)) == DeferredLevels(ls)
  {
    if ls.Empty? {
    } else {
      AppendDeferred(ls.below, n);
    }
  }

  lemma CloseDeferred(below: Levels, l: Level)
    ensures DeferredLevels(Close(below, l)) == DeferredLevels(below)
  {
    if ClosedNode(l).Some? {
      AppendDeferred(if l.kind.Layer? then below else AddWeight(below, l.weight), ClosedNode(l).value);
    }
  }

  /** A call adds at most one to the records held, and a setter that is dropped adds nothing. */
  lemma HeldStep(r: Recorder, op: Op, layout: Layout)
    requires Shaped(r.levels)
    ensures Held(Step(r, op, layout)) <= Held(r) + 1
    ensures op.Set? && RecordedSetting(op.setting, r.attrs) == None ==> Held(Step(r, op, layout)) == Held(r)
  {
    StreamStep(r, op, layout);
    match op
    case Set(s) =>
      if RecordedSetting(s, r.attrs).Some? { AppendDeferred(r.levels, Leaf(Set(RecordedSetting(s, r.attrs).value))); }
    case Restore => if CanRestore(r.levels) { CloseDeferred(r.levels.below, r.levels.top); }
    case Transform(x, finite) =>
      var x' := ReduceTransform(x, finite);
      if x'.Some? { AppendDeferred(Flush(r.levels), Leaf(Transform(x'.value, finite))); }
    case TransformReset => AppendDeferred(Flush(r.levels), Leaf(op));
    case Clip(shape, clipOp, aa) =>
      if !ClipIsIgnored(shape) { AppendDeferred(Flush(r.levels), Leaf(Clip(ReduceShape(shape), clipOp, aa))); }
    case Paint(d) =>
      AppendDeferred(AddWeight(r.levels, DrawWeight(ReduceDraw(d), r.attrs)), Leaf(Paint(ReduceDraw(d))));
    case SaveLayer(_, _, _) =>
      assert DeferredLevels(AddWeight(r.levels, LayerWeight(LayerOf(op), r.attrs))) == DeferredLevels(r.levels);
    case Save =>
      assert DeferredLevels(StepSave(r).levels) == DeferredLevels(r.levels) + 1;
  }

  /** Each setter would be recorded in some form. */
  predicate Noticed(ops: seq<Op>) {
    ops == [] ||
    (Noticed(Init(ops)) &&
     (Last(ops).Set? ==> RecordedSetting(Last(ops).setting, After(Init(ops), DEFAULTS)).Some?))
  }

  lemma {:induction false} HeldBound(calls: seq<Op>, layout: Layout)
    ensures Held(Record(calls, START, layout)) <= |calls|
    ensures !Noticed(calls) ==> Held(Record(calls, START, layout)) < |calls|
  {
    if calls == [] {
      assert Stream(START.levels) == [];
    } else {
      HeldBound(Init(calls), layout);
      RecordOk(Init(calls), layout);
      RecorderFollowsAttrs(Init(calls), layout);
      HeldStep(Record(Init(calls), START, layout), Last(calls), layout);
    }
  }

  /** The forms in which setters are recorded. */
  predicate IsRecordable(op: Op) {
    op.Set? ==>
      match op.setting
      case ColorSource(source) => source.Some? ==> source.value.Shader?
      case PaintBlender(blender) => BlendOf(blender).ByBlender?
      case _ => true
  }

  predicate AllRecordable(ops: seq<Op>) {
    forall op :: op in ops ==> IsRecordable(op)
  }

  /** A setter in a recorded stream that is noticed at all is recorded as itself. */
  lemma {:induction false} NoticedIsEffective(ops: seq<Op>)
    requires Noticed(ops)
    requires AllRecordable(ops)
    ensures Effective(ops, DEFAULTS)
  {
    if ops == [] {
    } else {
      NoticedIsEffective(Init(ops));
      assert IsRecordable(Last(ops));
    }
  }

  lemma EmittedIsRecordable(r: Recorder, op: Op)
    ensures AllRecordable(Emitted(r, op))
  {
  }

  lemma {:induction false} StreamIsRecordable(calls: seq<Op>, layout: Layout)
    ensures AllRecordable(Stream(Record(calls, START, layout).levels))
  {
    if calls == [] {
      assert Stream(START.levels) == [];
    } else {
      var r, op := Record(Init(calls), START, layout), Last(calls);
      StreamIsRecordable(Init(calls), layout);
      RecordOk(Init(calls), layout);
      StreamStep(r, op, layout);
      EmittedIsRecordable(r, op);
    }
  }

  // ----- Depth along a forest -----

  lemma DepthStep(r: Recorder, op: Op, layout: Layout)
    requires r.levels.Push?
    ensures Depth(Step(r, op, layout).levels) == Depth(r.levels) +
              (if op.Save? || op.SaveLayer? then 1 else if op.Restore? && CanRestore(r.levels) then -1 else 0)
  {
    match op
    case Set(s) =>
      if RecordedSetting(s, r.attrs).Some? { AppendDepth(r.levels, Leaf(Set(RecordedSetting(s, r.attrs).value))); }
    case Restore => if CanRestore(r.levels) { CloseDepth(r.levels.below, r.levels.top); }
    case Transform(x, finite) =>
      var x' := ReduceTransform(x, finite);
      if x'.Some? { AppendDepth(Flush(r.levels), Leaf(Transform(x'.value, finite))); }
    case TransformReset => AppendDepth(Flush(r.levels), Leaf(op));
    case Clip(shape, clipOp, aa) =>
      if !ClipIsIgnored(shape) { AppendDepth(Flush(r.levels), Leaf(Clip(ReduceShape(shape), clipOp, aa))); }
    case Paint(d) =>
      AppendDepth(AddWeight(r.levels, DrawWeight(ReduceDraw(d), r.attrs)), Leaf(Paint(ReduceDraw(d))));
    case _ =>
  }

  lemma {:induction false} NodeKeepsDepth(n: Node, r: Recorder, layout: Layout)
    requires WellFormedNode(n) && r.levels.Push?
    ensures Depth(Record(FlatNode(n), r, layout).levels) == Depth(r.levels)
    decreases n, 0
  {
    match n
    case Leaf(op) =>
      Record1(op, r, layout);
      DepthStep(r, op, layout);
    case SaveGroup(body) => GroupKeepsDepth(Save, body, r, layout);
    case LayerGroup(layer, bit, body) => GroupKeepsDepth(LayerOp(layer, bit), body, r, layout);
  }

  lemma {:induction false} GroupKeepsDepth(open: Op, body: seq<Node>, r: Recorder, layout: Layout)
    requires WellFormed(body) && r.levels.Push? && (open.Save? || open.SaveLayer?)
    ensures Depth(Record([open] + Flat(body) + [Restore], r, layout).levels) == Depth(r.levels)
    decreases body, 2
  {
    RecordGroup(open, Flat(body), r, layout);
    DepthStep(r, open, layout);
    var r1 := Step(r, open, layout);
    ForestKeepsDepth(body, r1, layout);
    DepthStep(Record(Flat(body), r1, layout), Restore, layout);
  }

  lemma {:induction false} ForestKeepsDepth(ns: seq<Node>, r: Recorder, layout: Layout)
    requires WellFormed(ns) && r.levels.Push?
    ensures Depth(Record(Flat(ns), r, layout).levels) == Depth(r.levels)
    decreases ns, 1
  {
    if ns == [] {
    } else {
      RecordConcat(Flat(Init(ns)), FlatNode(Last(ns)), r, layout);
      ForestKeepsDepth(Init(ns), r, layout);
      NodeKeepsDepth(Last(ns), Record(Flat(Init(ns)), r, layout), layout);
    }
  }

  // ----- The normal form -----

  /** A balanced stream needs no closing restores. */
  lemma BalancedIsClosed(ns: seq<Node>, layout: Layout)
    requires WellFormed(ns)
    ensures Closed(Flat(ns), layout) == Flat(ns)
  {
    ForestKeepsDepth(ns, START, layout);
    assert Depth(START.levels) == 1;
    assert Flat(ns) + Restores(0) == Flat(ns);
  }

  /** The lists of two recorders with the same level and the same draw calls. */
  lemma SameTotals(calls: seq<Op>, again: seq<Op>, layout: Layout)
    requires Record(calls, START, layout).levels == Record(again, START, layout).levels
    requires Draws(calls) == Draws(again)
    ensures ListOf(Record(calls, START, layout), layout) == ListOf(Record(again, START, layout), layout)
  {
    NestedTotals(calls, layout);
    NestedTotals(again, layout);
  }

  /** A forest recorded from the start ends up on the base level. */
  lemma RerecordOnBase(ns: seq<Node>, w: Weight, layout: Layout)
    requires Normal(ns) && BitsExact(ns, DEFAULTS) && Effective(Flat(ns), DEFAULTS) && w == Count(ns, DEFAULTS)
    ensures Record(Flat(ns), START, layout).levels == Push(Empty, Level(Base, w, ns))
  {
    RerecordForest(ns, START, layout);
    OnBase(ns, w);
  }

  lemma OnBase(ns: seq<Node>, w: Weight)
    ensures WithNodes(START.levels, ns, w) == Push(Empty, Level(Base, w, ns))
  {
    assert [] + ns == ns;
  }

  /** What a closed recording is: a normal forest on the base level. */
  lemma ClosedRecording(calls: seq<Op>, layout: Layout)
    ensures var ns := BuiltForest(calls, layout);
            && Record(Closed(calls, layout), START, layout).levels == Push(Empty, Level(Base, Count(ns, DEFAULTS), ns))
            && Normal(ns)
  {
    ClosedReachesBase(calls, layout);
    RecordNormal(Closed(calls, layout), layout);
  }

  /** The first half: with every setter effective, rerecording gives the same list. */
  lemma SameListAgain(calls: seq<Op>, layout: Layout)
    requires Effective(Build(calls, layout).ops, DEFAULTS)
    ensures Build(Build(calls, layout).ops, layout) == Build(calls, layout)
  {
    var ns := BuiltForest(calls, layout);
    BuildIsExact(calls, layout);
    ClosedRecording(calls, layout);
    BalancedIsClosed(ns, layout);
    RerecordOnBase(ns, Count(ns, DEFAULTS), layout);
    DrawsOfBuild(calls, layout);
    SameTotals(Closed(calls, layout), Flat(ns), layout);
  }

  lemma {:induction false} RestoresAreNotSources(calls: seq<Op>, n: nat)
    ensures NoLiveSourceAgain(calls + Restores(n)) == NoLiveSourceAgain(calls)
  {
    if n == 0 {
      assert calls + Restores(0) == calls;
    } else {
      RestoresAreNotSources(calls, n - 1);
      assert Init(calls + Restores(n)) == calls + Restores(n - 1);
    }
  }

  /** The second half: a setter without effect is dropped the second time. */
  lemma ShorterListAgain(calls: seq<Op>, layout: Layout)
    requires !Effective(Build(calls, layout).ops, DEFAULTS)
    ensures |Build(Build(calls, layout).ops, layout).ops| < |Build(calls, layout).ops|
  {
    var list := Build(calls, layout);
    BuildIsExact(calls, layout);
    StreamIsRecordable(Closed(calls, layout), layout);
    if Noticed(list.ops) { NoticedIsEffective(list.ops); }
    BalancedIsClosed(BuiltForest(calls, layout), layout);
    HeldBound(list.ops, layout);
  }

  /** The main result: dispatching a built list into a fresh builder and building again gives
      the identical list - records, back-patched bits, sizes, counts and all - exactly when
      no call brought back a source that a colour-type source had left live. */
  lemma RecordingIsANormalForm(calls: seq<Op>, layout: Layout)
    ensures Build(Build(calls, layout).ops, layout) == Build(calls, layout) <==> NoLiveSourceAgain(calls)
  {
    var closed := Closed(calls, layout);
    assert closed == calls + Restores(|closed| - |calls|);
    RestoresAreNotSources(calls, |closed| - |calls|);
    WhenSettersAreEffective(closed, layout);
    if Effective(Build(calls, layout).ops, DEFAULTS) {
      SameListAgain(calls, layout);
    } else {
      ShorterListAgain(calls, layout);
    }
  }

  /** A shader, a colour over it, and the same shader again: the second shader is recorded,
      but a recording of the list drops it. */
  lemma ShaderAgainIsDropped(color: Color, calls: seq<Op>, layout: Layout)
    requires calls == [Set(ColorSource(Some(Shader(7)))), Set(ColorSource(Some(PlainColor(color)))), Set(ColorSource(Some(Shader(7))))]
    ensures Build(Build(calls, layout).ops, layout) != Build(calls, layout)
  {
    assert Init(calls) == calls[..2] && Init(calls[..2]) == calls[..1] && Init(calls[..1]) == [];
    assert CurrentSource(calls[..1]) == Some(7) && LiveSource(calls[..1]) == Some(7);
    assert CurrentSource(calls[..2]) == None && LiveSource(calls[..2]) == Some(7);
    assert CurrentSource(calls) == Some(7);
    RecordingIsANormalForm(calls, layout);
  }
}
