// Elision preserves meaning: dropping redundant setters, identity transforms, ignored
// clips and unneeded saves does not change what becomes visible, except exactly when an
// operation is drawn while a colour-type source has left an earlier source live.
module Elision {
  import opened Basics
  import opened DisplayListOps
  import opened Outlines
  import opened RecordTree
  import opened Recorder
  import opened OpacityBits
  import opened Emission
  import opened Trace

  // ----- Elided transforms and clips are neutral -----

  lemma ReducedTransform(x: Xform, finite: bool, e: Env, mats: Matrices)
    requires Lawful(mats)
    ensures var x' := ReduceTransform(x, finite);
            StepEnv(Transform(x, finite), e, mats)
            == if x'.Some? then StepEnv(Transform(x'.value, finite), e, mats) else e
  {
    assert mats.concat(e.matrix, IDENTITY) == e.matrix;
  }

  lemma ReducedClip(shape: Shape, clipOp: ClipOp, aa: bool, e: Env, mats: Matrices)
    ensures StepEnv(Clip(shape, clipOp, aa), e, mats)
         == if ClipIsIgnored(shape) then e else StepEnv(Clip(ReduceShape(shape), clipOp, aa), e, mats)
  {
    ReducedOutline(shape);
  }

  // ----- The can-distribute bit is not part of the meaning -----

  function Erase(op: Op): Op {
    if op.SaveLayer? then op.(options := op.options.WithoutOptimizations()) else op
  }

  lemma {:induction false} BitsDoNotMatter(s: seq<Op>, t: seq<Op>, start: Tracer, mats: Matrices)
    requires |s| == |t|
    requires forall i :: 0 <= i < |s| ==> Erase(s[i]) == Erase(t[i])
    ensures RunTrace(s, start, mats) == RunTrace(t, start, mats)
  {
    if s == [] {
    } else {
      BitsDoNotMatter(Init(s), Init(t), start, mats);
      assert Erase(Last(s)) == Erase(Last(t));
    }
  }

  lemma {:induction false} TraceConcat(s: seq<Op>, t: seq<Op>, start: Tracer, mats: Matrices)
    ensures RunTrace(s + t, start, mats) == RunTrace(t, RunTrace(s, start, mats), mats)
  {
    if t == [] {
      assert s + t == s;
    } else {
      TraceConcat(s, Init(t), start, mats);
      assert Init(s + t) == s + Init(t);
    }
  }

  /** A call moves the replay on by the records it emits, whether or not it patches. */
  lemma ReplayStep(r: Recorder, op: Op, layout: Layout, start: Tracer, mats: Matrices)
    requires Shaped(r.levels)
    ensures RunTrace(Stream(Step(r, op, layout).levels), start, mats)
         == RunTrace(Emitted(r, op), RunTrace(Stream(r.levels), start, mats), mats)
  {
    StreamStep(r, op, layout);
    var s := Stream(r.levels) + Emitted(r, op);
    BitsDoNotMatter(Patch(r, op, s), s, start, mats);
    TraceConcat(Stream(r.levels), Emitted(r, op), start, mats);
  }

  lemma Trace1(a: Op, t: Tracer, mats: Matrices)
    ensures RunTrace([a], t, mats) == StepTrace(a, t, mats)
  {
    assert Init([a]) == [];
  }

  lemma Trace2(a: Op, b: Op, t: Tracer, mats: Matrices)
    ensures RunTrace([a] + [b], t, mats) == StepTrace(b, StepTrace(a, t, mats), mats)
  {
    assert Init([a] + [b]) == [a];
    Trace1(a, t, mats);
  }

  // ----- The colour source that replay has live -----

  function CurrentSource(calls: seq<Op>): Option<nat> {
    After(calls, DEFAULTS).source
  }

  predicate IsSourceCall(op: Op) {
    op.Set? && op.setting.ColorSource?
  }

  predicate IsColourSourceCall(op: Op) {
    IsSourceCall(op) && op.setting.source.Some? && op.setting.source.value.PlainColor?
  }

  /** The source that replay has after these calls. A colour-type source is recorded as a
      colour only and leaves an earlier source live; any other source call is recorded
      when it changes the source that the caller sees. */
  function LiveSource(calls: seq<Op>): Option<nat> {
    if calls == [] then None else
    var init, op := Init(calls), Last(calls);
    if IsSourceCall(op) && !IsColourSourceCall(op) && CurrentSource(calls) != CurrentSource(init)
    then CurrentSource(calls) else LiveSource(init)
  }

  lemma {:induction false} RecorderFollowsAttrs(calls: seq<Op>, layout: Layout)
    ensures Record(calls, START, layout).attrs == After(calls, DEFAULTS)
  {
    if calls == [] {
    } else {
      RecorderFollowsAttrs(Init(calls), layout);
    }
  }

  /** What a recorded setter does to the replayed source. */
  lemma RecordedSource(s: Setting, a: Attrs, b: Attrs)
    ensures var recorded := RecordedSetting(s, a);
            (if recorded.Some? then Apply(recorded.value, b) else b).source
            == if s.ColorSource? && !IsColourSourceCall(Set(s)) && Apply(s, a).source != a.source
               then Apply(s, a).source else b.source
  {
  }

  lemma {:induction false} LiveSourceIsReplayed(calls: seq<Op>, layout: Layout)
    ensures Replayed(Record(calls, START, layout).levels).source == LiveSource(calls)
  {
    if calls == [] {
    } else {
      var init, op := Init(calls), Last(calls);
      var r := Record(init, START, layout);
      LiveSourceIsReplayed(init, layout);
      RecorderFollowsAttrs(init, layout);
      RecordOk(init, layout);
      EmissionReplayed(r, op, layout);
      if op.Set? { RecordedSource(op.setting, r.attrs, Replayed(r.levels)); }
    }
  }

  /** A call changes the replayed attributes only through the setter it records. */
  lemma EmissionReplayed(r: Recorder, op: Op, layout: Layout)
    requires Ok(r)
    ensures var recorded := if op.Set? then RecordedSetting(op.setting, r.attrs) else None;
            Replayed(Step(r, op, layout).levels)
            == if recorded.Some? then Apply(recorded.value, Replayed(r.levels)) else Replayed(r.levels)
  {
    match op
    case Set(s) =>
      var recorded := RecordedSetting(s, r.attrs);
      if recorded.Some? {
        AppendReplayed(r.levels, Leaf(Set(recorded.value)));
        AfterLeaf(Set(recorded.value), Replayed(r.levels));
      }
    case Save => ReplayedPush(r.levels, Level(Deferred, NOTHING, []));
    case SaveLayer(_, _, _) =>
      AddWeightOk(r.levels, LayerWeight(LayerOf(op), r.attrs));
      ReplayedPush(AddWeight(r.levels, LayerWeight(LayerOf(op), r.attrs)),
                   Level(Layer(LayerOf(op)), OwnWeight(LayerOf(op), r.attrs), []));
    case Restore => if CanRestore(r.levels) { CloseOk(r.levels.below, r.levels.top); }
    case Paint(d) => DrawReplayed(r, ReduceDraw(d), layout);
    case Transform(x, finite) =>
      var x' := ReduceTransform(x, finite);
      if x'.Some? { EnvOpReplayed(r, Transform(x'.value, finite)); }
    case TransformReset => EnvOpReplayed(r, op);
    case Clip(shape, clipOp, aa) =>
      if !ClipIsIgnored(shape) { EnvOpReplayed(r, Clip(ReduceShape(shape), clipOp, aa)); }
  }

  lemma DrawReplayed(r: Recorder, d: Draw, layout: Layout)
    requires Ok(r)
    ensures Replayed(StepDraw(r, d, layout).levels) == Replayed(r.levels)
  {
    AddWeightOk(r.levels, DrawWeight(d, r.attrs));
    AppendReplayed(AddWeight(r.levels, DrawWeight(d, r.attrs)), Leaf(Paint(d)));
    AfterLeaf(Paint(d), Replayed(r.levels));
  }

  lemma EnvOpReplayed(r: Recorder, op: Op)
    requires Ok(r) && IsEnvOp(op)
    ensures Replayed(StepEnvOp(r, op).levels) == Replayed(r.levels)
  {
    if IsDeferred(r.levels) {
      FlushOk(r.levels, op);
    } else {
      AppendReplayed(r.levels, Leaf(op));
      AfterLeaf(op, Replayed(r.levels));
    }
  }

  predicate IsVisible(op: Op) {
    op.Paint? || op.SaveLayer?
  }

  /** No operation is drawn while the live source differs from the one the caller set. */
  predicate NoStaleDraw(calls: seq<Op>) {
    calls == [] ||
    (NoStaleDraw(Init(calls)) &&
     (IsVisible(Last(calls)) ==> LiveSource(Init(calls)) == CurrentSource(Init(calls))))
  }

  // ----- The one call that loses a source -----

  /** No colour-type source is set while another source is current. */
  predicate NoSourceReplacedByColour(calls: seq<Op>) {
    calls == [] ||
    (NoSourceReplacedByColour(Init(calls)) &&
     (IsColourSourceCall(Last(calls)) ==> CurrentSource(Init(calls)) == None))
  }

  predicate InStepThroughout(calls: seq<Op>) {
    LiveSource(calls) == CurrentSource(calls) && (calls != [] ==> InStepThroughout(Init(calls)))
  }

  lemma SourceStep(a: Attrs, op: Op)
    ensures !IsSourceCall(op) ==> StepAttrs(op, a).source == a.source
    ensures IsColourSourceCall(op) ==> StepAttrs(op, a).source == None
  {
  }

  /** The replayed source follows the caller's at every moment exactly when no colour-type
      source ever replaces another source; then nothing stale can be drawn. */
  lemma {:induction false} WhenReplayFollowsTheSource(calls: seq<Op>)
    ensures InStepThroughout(calls) <==> NoSourceReplacedByColour(calls)
    ensures NoSourceReplacedByColour(calls) ==> NoStaleDraw(calls)
  {
    if calls == [] {
    } else {
      WhenReplayFollowsTheSource(Init(calls));
      SourceStep(After(Init(calls), DEFAULTS), Last(calls));
    }
  }

  // ----- Simulation -----

  /** Of the saved environments, the ones at levels whose save was recorded. */
  function Kept(ls: Levels, stack: Stack<SavedEnv>): Stack<SavedEnv> {
    if ls.Empty? || stack.Empty? then Empty
    else if ls.top.kind.Deferred? then Kept(ls.below, stack.below)
    else Push(Kept(ls.below, stack.below), stack.top)
  }

  /** The level stack and the stack of saved environments match, and a deferred level still
      has the environment of the level below it. */
  predicate Aligned(ls: Levels, stack: Stack<SavedEnv>, e: Env) {
    && ls.Push?
    && (stack.Empty? <==> ls.below.Empty?)
    && (stack.Push? ==>
          && stack.top.isLayer == ls.top.kind.Layer?
          && (ls.top.kind.Deferred? ==> stack.top.env == e)
          && Aligned(ls.below, stack.below, stack.top.env))
  }

  /** The two events differ at most in the colour source. */
  predicate SameButSource(a: Event, b: Event) {
    match a
    case Drawn(look, attrs, env) => b.Drawn? && b == Drawn(look, b.attrs, env) && AgreeExceptSource(attrs, b.attrs)
    case LayerBegun(bounds, withAttributes, backdrop, attrs, env) =>
      b.LayerBegun? && b == LayerBegun(bounds, withAttributes, backdrop, b.attrs, env) && AgreeExceptSource(attrs, b.attrs)
    case LayerEnded => b.LayerEnded?
  }

  predicate EventsInStep(ts: seq<Event>, us: seq<Event>, clean: bool) {
    && |us| == |ts|
    && (forall i :: 0 <= i < |ts| ==> SameButSource(ts[i], us[i]))
    && (us == ts <==> clean)
  }

  /** The direct run t and the replay u of what was recorded are in step; clean says that
      no event so far was drawn with a stale source. */
  predicate InStep(r: Recorder, t: Tracer, u: Tracer, clean: bool) {
    && t.attrs == r.attrs
    && AgreeExceptSource(t.attrs, u.attrs)
    && u.env == t.env
    && u.stack == Kept(r.levels, t.stack)
    && Aligned(r.levels, t.stack, t.env)
    && EventsInStep(t.events, u.events, clean)
  }

  // ----- Moves that leave the kinds of the levels alone -----

  lemma {:induction false} AppendAligned(ls: Levels, n: Node, stack: Stack<SavedEnv>, e: Env)
    ensures Kept(Append(ls, n), stack) == Kept(ls, stack)
    ensures Aligned(Append(ls, n), stack, e) == Aligned(ls, stack, e)
  {
    if ls.Push? && stack.Push? { AppendAligned(ls.below, n, stack.below, stack.top.env); }
    if ls.Push? && ls.top.kind.Deferred? { AppendEmpty(ls.below, n); }
  }

  lemma AppendEmpty(ls: Levels, n: Node)
    ensures Append(ls, n).Empty? <==> ls.Empty?
  {
  }

  lemma AddWeightAligned(ls: Levels, w: Weight, stack: Stack<SavedEnv>, e: Env)
    ensures Kept(AddWeight(ls, w), stack) == Kept(ls, stack)
    ensures Aligned(AddWeight(ls, w), stack, e) == Aligned(ls, stack, e)
  {
  }

  lemma CloseAligned(below: Levels, l: Level, stack: Stack<SavedEnv>, e: Env)
    ensures Kept(Close(below, l), stack) == Kept(below, stack)
    ensures Aligned(Close(below, l), stack, e) == Aligned(below, stack, e)
  {
    AddWeightAligned(below, l.weight, stack, e);
    var ls := if l.kind.Layer? then below else AddWeight(below, l.weight);
    if ClosedNode(l).Some? { AppendAligned(ls, ClosedNode(l).value, stack, e); }
  }

  // ----- One step of the simulation -----

  predicate StaysClean(op: Op, t: Tracer, u: Tracer, clean: bool) {
    clean && (IsVisible(op) ==> u.attrs.source == t.attrs.source)
  }

  /** The state after op, on both sides, is in step. */
  predicate StepsTogether(r: Recorder, op: Op, t: Tracer, u: Tracer, clean: bool, layout: Layout, mats: Matrices) {
    InStep(Step(r, op, layout), StepTrace(op, t, mats), RunTrace(Emitted(r, op), u, mats),
           StaysClean(op, t, u, clean))
  }

  lemma SimSet(r: Recorder, s: Setting, t: Tracer, u: Tracer, clean: bool, layout: Layout, mats: Matrices)
    requires InStep(r, t, u, clean)
    ensures StepsTogether(r, Set(s), t, u, clean, layout, mats)
  {
    var recorded := RecordedSetting(s, r.attrs);
    SettingAgrees(s, t.attrs, u.attrs);
    if recorded.Some? {
      AppendAligned(r.levels, Leaf(Set(recorded.value)), t.stack, t.env);
      Trace1(Set(recorded.value), u, mats);
    }
  }

  /** One more event on each side keeps the event sequences in step. */
  lemma OneMoreEvent(ts: seq<Event>, us: seq<Event>, a: Event, b: Event, clean: bool)
    requires EventsInStep(ts, us, clean) && SameButSource(a, b)
    ensures EventsInStep(ts + [a], us + [b], clean && a == b)
  {
    assert Init(ts + [a]) == ts && Init(us + [b]) == us;
    assert Last(ts + [a]) == a && Last(us + [b]) == b;
  }

  lemma DrawAligned(r: Recorder, d: Draw, layout: Layout, stack: Stack<SavedEnv>, e: Env)
    ensures var r' := StepDraw(r, d, layout);
            && r'.attrs == r.attrs
            && Kept(r'.levels, stack) == Kept(r.levels, stack) && Aligned(r'.levels, stack, e) == Aligned(r.levels, stack, e)
  {
    var w := DrawWeight(d, r.attrs);
    AddWeightAligned(r.levels, w, stack, e);
    AppendAligned(AddWeight(r.levels, w), Leaf(Paint(d)), stack, e);
  }

  lemma SimDraw(r: Recorder, d: Draw, t: Tracer, u: Tracer, clean: bool, layout: Layout, mats: Matrices)
    requires InStep(r, t, u, clean)
    ensures StepsTogether(r, Paint(d), t, u, clean, layout, mats)
  {
    var d' := ReduceDraw(d);
    DrawAligned(r, d', layout, t.stack, t.env);
    Trace1(Paint(d'), u, mats);
    ReducedLooks(d);
    OneMoreEvent(t.events, u.events, Drawn(LookOf(d), t.attrs, t.env), Drawn(LookOf(d'), u.attrs, u.env), clean);
  }

  lemma SimSaveLayer(r: Recorder, op: Op, t: Tracer, u: Tracer, clean: bool, layout: Layout, mats: Matrices)
    requires InStep(r, t, u, clean) && op.SaveLayer?
    ensures StepsTogether(r, op, t, u, clean, layout, mats)
  {
    var layer := LayerOf(op);
    AddWeightAligned(r.levels, LayerWeight(layer, r.attrs), t.stack, t.env);
    Trace1(LayerOp(layer, false), u, mats);
    OneMoreEvent(t.events, u.events,
      LayerBegun(layer.bounds, layer.withAttributes, layer.backdrop, t.attrs, t.env),
      LayerBegun(layer.bounds, layer.withAttributes, layer.backdrop, u.attrs, u.env), clean);
  }

  lemma SimRestore(r: Recorder, t: Tracer, u: Tracer, clean: bool, layout: Layout, mats: Matrices)
    requires Shaped(r.levels) && InStep(r, t, u, clean)
    ensures StepsTogether(r, Restore, t, u, clean, layout, mats)
  {
    Trace1(Restore, u, mats);
    if CanRestore(r.levels) {
      CloseAligned(r.levels.below, r.levels.top, t.stack.below, t.stack.top.env);
      if r.levels.top.kind.Layer? {
        OneMoreEvent(t.events, u.events, LayerEnded, LayerEnded, clean);
      }
    }
  }

  function FlushedStack(ls: Levels, stack: Stack<SavedEnv>, e: Env): Stack<SavedEnv> {
    if IsDeferred(ls) then Push(stack, SavedEnv(e, false)) else stack
  }

  lemma TraceEnv(ls: Levels, op: Op, u: Tracer, mats: Matrices)
    requires IsEnvOp(op)
    ensures RunTrace(PendingSave(ls) + [op], u, mats)
         == u.(env := StepEnv(op, u.env, mats), stack := FlushedStack(ls, u.stack, u.env))
  {
    if IsDeferred(ls) {
      Trace2(Save, op, u, mats);
    } else {
      assert [] + [op] == [op];
      Trace1(op, u, mats);
    }
  }

  lemma FlushAligned(ls: Levels, stack: Stack<SavedEnv>, e: Env, e': Env)
    requires Aligned(ls, stack, e) && Shaped(ls)
    ensures Kept(Flush(ls), stack) == FlushedStack(ls, Kept(ls, stack), e) && Aligned(Flush(ls), stack, e')
  {
  }

  /** A transform or clip makes its save real first; the saved environment is the current one. */
  lemma SimEnv(r: Recorder, op: Op, t: Tracer, u: Tracer, clean: bool, mats: Matrices)
    requires Shaped(r.levels) && InStep(r, t, u, clean) && IsEnvOp(op)
    ensures InStep(StepEnvOp(r, op), t.(env := StepEnv(op, t.env, mats)),
                   RunTrace(PendingSave(r.levels) + [op], u, mats), clean)
  {
    AppendAligned(Flush(r.levels), Leaf(op), t.stack, StepEnv(op, t.env, mats));
    FlushAligned(r.levels, t.stack, t.env, StepEnv(op, t.env, mats));
    TraceEnv(r.levels, op, u, mats);
  }

  /** A call that is recorded in a reduced form, or not at all. */
  lemma SimReduced(r: Recorder, op: Op, reduced: Option<Op>, t: Tracer, u: Tracer, clean: bool, layout: Layout, mats: Matrices)
    requires Shaped(r.levels) && InStep(r, t, u, clean) && !IsVisible(op)
    requires reduced.Some? ==> IsEnvOp(reduced.value)
    requires Step(r, op, layout) == if reduced.Some? then StepEnvOp(r, reduced.value) else r
    requires Emitted(r, op) == if reduced.Some? then PendingSave(r.levels) + [reduced.value] else []
    requires StepTrace(op, t, mats) == if reduced.Some? then t.(env := StepEnv(reduced.value, t.env, mats)) else t
    ensures StepsTogether(r, op, t, u, clean, layout, mats)
  {
    if reduced.Some? { SimEnv(r, reduced.value, t, u, clean, mats); }
  }

  lemma SimTransform(r: Recorder, x: Xform, finite: bool, t: Tracer, u: Tracer, clean: bool, layout: Layout, mats: Matrices)
    requires Lawful(mats) && Shaped(r.levels) && InStep(r, t, u, clean)
    ensures StepsTogether(r, Transform(x, finite), t, u, clean, layout, mats)
  {
    var x' := ReduceTransform(x, finite);
    ReducedTransform(x, finite, t.env, mats);
    SimReduced(r, Transform(x, finite), if x'.Some? then Some(Transform(x'.value, finite)) else None, t, u, clean, layout, mats);
  }

  lemma SimClip(r: Recorder, shape: Shape, clipOp: ClipOp, aa: bool, t: Tracer, u: Tracer, clean: bool, layout: Layout, mats: Matrices)
    requires Shaped(r.levels) && InStep(r, t, u, clean)
    ensures StepsTogether(r, Clip(shape, clipOp, aa), t, u, clean, layout, mats)
  {
    var reduced := if ClipIsIgnored(shape) then None else Some(Clip(ReduceShape(shape), clipOp, aa));
    ReducedClip(shape, clipOp, aa, t.env, mats);
    SimReduced(r, Clip(shape, clipOp, aa), reduced, t, u, clean, layout, mats);
  }

  lemma SimStep(r: Recorder, op: Op, t: Tracer, u: Tracer, clean: bool, layout: Layout, mats: Matrices)
    requires Lawful(mats) && Shaped(r.levels) && InStep(r, t, u, clean)
    ensures StepsTogether(r, op, t, u, clean, layout, mats)
  {
    match op
    case Set(s) => SimSet(r, s, t, u, clean, layout, mats);
    case Save =>
    case SaveLayer(_, _, _) => SimSaveLayer(r, op, t, u, clean, layout, mats);
    case Restore => SimRestore(r, t, u, clean, layout, mats);
    case Paint(d) => SimDraw(r, d, t, u, clean, layout, mats);
    case Transform(x, finite) => SimTransform(r, x, finite, t, u, clean, layout, mats);
    case TransformReset => SimEnv(r, op, t, u, clean, mats);
    case Clip(shape, clipOp, aa) => SimClip(r, shape, clipOp, aa, t, u, clean, layout, mats);
  }

  // ----- Whole recordings -----

  lemma {:induction false} TraceAttrs(ops: seq<Op>, t: Tracer, mats: Matrices)
    ensures RunTrace(ops, t, mats).attrs == After(ops, t.attrs)
  {
    if ops == [] {
    } else {
      TraceAttrs(Init(ops), t, mats);
    }
  }

  lemma {:induction false} RecordingSimulates(calls: seq<Op>, e: Env, layout: Layout, mats: Matrices)
    requires Lawful(mats)
    ensures var r := Record(calls, START, layout);
            InStep(r, RunTrace(calls, NewTracer(e), mats), RunTrace(Stream(r.levels), NewTracer(e), mats), NoStaleDraw(calls))
  {
    if calls == [] {
      assert Stream(START.levels) == [];
    } else {
      var init, op, start := Init(calls), Last(calls), NewTracer(e);
      var r := Record(init, START, layout);
      RecordingSimulates(init, e, layout, mats);
      RecordOk(init, layout);
      LiveSourceIsReplayed(init, layout);
      TraceAttrs(init, start, mats);
      TraceAttrs(Stream(r.levels), start, mats);
      SimStep(r, op, RunTrace(init, start, mats), RunTrace(Stream(r.levels), start, mats), NoStaleDraw(init), layout, mats);
      ReplayStep(r, op, layout, start, mats);
    }
  }

  /** Elision preserves meaning. Replaying a built list shows the same operations, in the
      same order, under the same matrix, clip and layer nesting, and under the same
      attributes but possibly the colour source, as the calls it was built from, whatever
      matrix and clip both find; and the source is right everywhere exactly when nothing was
      drawn while a colour-type source had left an older source live. */
  lemma ElisionPreservesMeaning(calls: seq<Op>, e: Env, layout: Layout, mats: Matrices)
    requires Lawful(mats)
    ensures EventsInStep(EventsOf(Closed(calls, layout), e, mats), EventsOf(Build(calls, layout).ops, e, mats),
                         NoStaleDraw(calls))
  {
    var closed := Closed(calls, layout);
    RecordingSimulates(closed, e, layout, mats);
    assert closed == calls + Restores(|closed| - |calls|);
    RestoresDrawNothing(calls, |closed| - |calls|);
  }

  lemma {:induction false} RestoresDrawNothing(calls: seq<Op>, n: nat)
    ensures NoStaleDraw(calls + Restores(n)) == NoStaleDraw(calls)
  {
    if n == 0 {
      assert calls + Restores(0) == calls;
    } else {
      RestoresDrawNothing(calls, n - 1);
      assert Init(calls + Restores(n)) == calls + Restores(n - 1);
    }
  }

  /** The matrix and clip that the caller sees at any moment are those of the replay. */
  lemma DeferralKeepsEnvironment(calls: seq<Op>, e: Env, layout: Layout, mats: Matrices)
    requires Lawful(mats)
    ensures RunTrace(Stream(Record(calls, START, layout).levels), NewTracer(e), mats).env
         == RunTrace(calls, NewTracer(e), mats).env
  {
    RecordingSimulates(calls, e, layout, mats);
  }

  /** A shader replaced by a colour is still live on replay: the paint that follows is drawn
      with the shader. */
  lemma ColourOverShaderIsLost(e: Env, layout: Layout, mats: Matrices)
    requires Lawful(mats)
    ensures var calls := [Set(ColorSource(Some(Shader(7)))), Set(ColorSource(Some(PlainColor(BLACK)))), Paint(DrawPaint)];
            EventsOf(Build(calls, layout).ops, e, mats) != EventsOf(Closed(calls, layout), e, mats)
  {
    var shader, colour := Set(ColorSource(Some(Shader(7)))), Set(ColorSource(Some(PlainColor(BLACK))));
    var calls := [shader, colour, Paint(DrawPaint)];
    assert Init(calls) == [shader, colour];
    assert Init([shader, colour]) == [shader];
    assert Init([shader]) == [];
    assert CurrentSource([shader]) == Some(7) && LiveSource([shader]) == Some(7);
    assert CurrentSource([shader, colour]) == None && LiveSource([shader, colour]) == Some(7);
    assert !NoStaleDraw(calls);
    ElisionPreservesMeaning(calls, e, layout, mats);
  }
}
