// DisplayListCanvasDispatcher: the paint whose alpha is kept multiplied with the inherited
// opacity, the opacity stack, and the shared canvas that nested lists are rendered to. Every
// method is proved to do what module Dispatch says.
module CanvasDispatcher {
  import opened Basics
  import opened DisplayListOps
  import opened Outlines
  import opened RecordTree
  import opened Trace
  import opened Canvas
  import opened Dispatch
  import D = Dispatch
  import opened RenderResults

  /** The canvas, which dispatchers for nested lists share. */
  class SkCanvas {
    const sk: Skia
    var state: Canvas

    constructor (state: Canvas, sk: Skia)
      ensures this.state == state && this.sk == sk
    {
      this.state, this.sk := state, sk;
    }

    /** The number of saves before this one. */
    method Save() returns (count: nat)
      modifies this
      ensures state == CanvasSave(old(state)) && count == Depth(old(state).stack)
    {
      count := Depth(state.stack);
      state := CanvasSave(state);
    }

    method SaveLayer(bounds: Option<Rect>, brush: Brush, backdrop: Option<nat>)
      modifies this
      ensures state == CanvasSaveLayer(old(state), bounds, brush, backdrop, sk)
    {
      state := CanvasSaveLayer(state, bounds, brush, backdrop, sk);
    }

    method Restore()
      modifies this
      ensures state == CanvasRestore(old(state), sk)
    {
      state := CanvasRestore(state, sk);
    }

    method RestoreToCount(count: nat)
      modifies this
      ensures state == CanvasRestoreTo(old(state), count, sk)
    {
      while Depth(state.stack) > count
        invariant CanvasRestoreTo(state, count, sk) == CanvasRestoreTo(old(state), count, sk)
        decreases Depth(state.stack)
      {
        Restore();
      }
    }

    /** A transform or clip. */
    method ChangeEnv(op: Op)
      modifies this
      ensures state == old(state).(env := StepEnv(op, old(state).env, sk.mats))
    {
      state := state.(env := StepEnv(op, state.env, sk.mats));
    }

    method Draw(l: Look, brush: Brush)
      modifies this
      ensures state == old(state).(image := DrawOn(l, brush, old(state).env, old(state).image, sk))
    {
      state := state.(image := DrawOn(l, brush, state.env, state.image, sk));
    }
  }

  /** What passes its check as a whole passes it record by record. */
  lemma {:induction false} ChecksAt(ops: seq<Op>, i: nat, m: Machine, sk: Skia)
    requires ChecksPass(ops, m, sk) && i < |ops|
    ensures OpChecks(ops[i], Run(ops[..i], m, sk, true), sk)
  {
    if i == |ops| - 1 {
    } else {
      ChecksAt(ops[..|ops| - 1], i, m, sk);
      assert ops[..|ops| - 1][..i] == ops[..i];
    }
  }

  lemma KeepsColor(s: Setting, a: Attrs)
    requires !s.PaintColor? && !(s.ColorSource? && s.source.Some? && s.source.value.PlainColor?)
    ensures Apply(s, a).color == a.color
  {
  }

  class Dispatcher {
    const canvas: SkCanvas

    // The current paint: attributes, with the colour that was set last, and its alpha.
    var paint: Attrs
    var paintAlpha: real
    var currentColor: Color
    var opacity: real
    var saveStack: Stack<real>

    ghost function State(): Machine
      reads this, canvas
    {
      Machine(paint, opacity, saveStack, canvas.state)
    }

    /** The alpha of the paint is that of the colour combined with the inherited opacity. */
    ghost predicate Valid()
      reads this
    {
      && 0.0 <= opacity <= 1.0 && Unit(saveStack)
      && paint.color == currentColor
      && paintAlpha == AlphaOf(currentColor) * opacity
    }

    static ghost predicate Unit(s: Stack<real>) {
      s.Push? ==> 0.0 <= s.top <= 1.0 && Unit(s.below)
    }

    constructor (canvas: SkCanvas, opacity: real)
      requires 0.0 <= opacity <= 1.0
      ensures Valid() && this.canvas == canvas && State() == Fresh(canvas.state, opacity)
    {
      this.canvas, this.opacity := canvas, opacity;
      paint, currentColor, saveStack := DEFAULTS, BLACK, Empty;
      paintAlpha := if opacity < 1.0 then opacity else 1.0;
    }

    // ----- Attributes and opacity -----

    method SetColor(color: Color)
      requires 0.0 <= opacity <= 1.0 && Unit(saveStack)
      modifies this`paint, this`paintAlpha, this`currentColor
      ensures Valid() && paint == old(paint).(color := color)
    {
      currentColor := color;
      paint := paint.(color := color);
      paintAlpha := AlphaOf(color);
      if opacity < 1.0 {
        paintAlpha := paintAlpha * opacity;
      }
    }

    method SetOpacity(newOpacity: real)
      requires Valid() && 0.0 <= newOpacity <= 1.0
      modifies this`opacity, this`paint, this`paintAlpha, this`currentColor
      ensures Valid() && opacity == newOpacity && paint == old(paint)
    {
      if opacity != newOpacity {
        opacity := newOpacity;
        SetColor(currentColor);
      }
    }

    method SaveOpacity(childOpacity: real)
      requires Valid() && 0.0 <= childOpacity <= 1.0
      modifies this
      ensures Valid() && paint == old(paint) && opacity == childOpacity && saveStack == Push(old(saveStack), old(opacity))
    {
      saveStack := Push(saveStack, opacity);
      SetOpacity(childOpacity);
    }

    method RestoreOpacity()
      requires Valid()
      modifies this
      ensures Valid() && paint == old(paint)
      ensures if old(saveStack).Empty? then opacity == old(opacity) && saveStack == Empty
              else opacity == old(saveStack).top && saveStack == old(saveStack).below
    {
      if saveStack.Empty? {
        return;
      }
      SetOpacity(saveStack.top);
      saveStack := saveStack.below;
    }

    method SetAttribute(s: Setting)
      requires Valid()
      modifies this
      ensures Valid() && State() == DoOp(Set(s), old(State()), canvas.sk, true)
    {
      if s.PaintColor? {
        SetColor(s.color);
      } else if s.ColorSource? && s.source.Some? && s.source.value.PlainColor? {
        paint := paint.(source := None);
        SetColor(s.source.value.color);
      } else {
        KeepsColor(s, paint);
        paint := Apply(s, paint);
      }
    }

    /** The paint to draw with. */
    method SafePaint(useAttributes: bool) returns (brush: Brush)
      requires Valid()
      ensures brush == D.SafePaint(useAttributes, paint, opacity)
    {
      if useAttributes {
        brush := Brush(Opaque(paint), paintAlpha);
      } else if opacity < 1.0 {
        brush := Brush(DEFAULTS, opacity);
      } else {
        brush := Brush(DEFAULTS, 1.0);
      }
    }

    // ----- Saves and layers -----

    method Save()
      requires Valid()
      modifies this, canvas
      ensures Valid() && State() == DoOp(Op.Save, old(State()), canvas.sk, true)
    {
      var _ := canvas.Save();
      SaveOpacity(opacity);
    }

    method Restore()
      requires Valid()
      modifies this, canvas
      ensures Valid() && State() == DoRestore(old(State()), canvas.sk)
    {
      canvas.Restore();
      RestoreOpacity();
    }

    /** A layer that may pass its opacity on, without bounds and backdrop, is a plain save
        whose children inherit the combined opacity. */
    method SaveLayer(bounds: Option<Rect>, options: SaveLayerOptions, backdrop: Option<nat>)
      requires Valid()
      modifies this, canvas
      ensures Valid()
      ensures State() == DoLayer(Op.SaveLayer(bounds, options, backdrop), old(State()), canvas.sk, true)
    {
      if bounds == None && options.canDistributeOpacity && backdrop == None {
        var _ := canvas.Save();
        AlphaIsUnit(currentColor, opacity);
        SaveOpacity(if options.rendersWithAttributes then paintAlpha else opacity);
      } else {
        var brush := SafePaint(options.rendersWithAttributes);
        canvas.SaveLayer(bounds, brush, backdrop);
        SaveOpacity(1.0);
      }
    }

    // ----- Rendering -----

    /** The paint each rendering operation is given. */
    method BrushForDraw(d: Draw) returns (brush: Brush)
      requires Valid()
      ensures brush == BrushFor(d, paint, opacity)
    {
      match d
      case DrawColor(color, _) => brush := Brush(DEFAULTS, AlphaOf(color) * opacity);
      case DrawImage(_, withAttributes) => brush := SafePaint(withAttributes);
      case DrawAtlas(_, withAttributes) => brush := SafePaint(withAttributes);
      case DrawPicture(_, _, _, withAttributes) => brush := SafePaint(withAttributes);
      case DrawShadow(_, _) => brush := Brush(DEFAULTS, 1.0);
      case _ => brush := SafePaint(true);
    }

    /** A nested list is rendered to the same canvas at the inherited opacity, and whatever
        it leaves open on the canvas is closed. */
    method DrawDisplayList(list: DisplayList)
      requires Valid() && DrawChecks(Draw.DrawDisplayList(list), State(), canvas.sk)
      modifies canvas
      ensures State() == DoDraw(Draw.DrawDisplayList(list), old(State()), canvas.sk, true)
      decreases list, 1
    {
      var saveCount := canvas.Save();
      RenderList(list, canvas, opacity);
      canvas.RestoreToCount(saveCount);
    }

    method DrawAny(d: Draw)
      requires Valid() && DrawChecks(d, State(), canvas.sk)
      modifies canvas
      ensures State() == DoDraw(d, old(State()), canvas.sk, true)
      decreases d
    {
      match d
      case DrawDisplayList(list) => DrawDisplayList(list);
      case _ =>
        var brush := BrushForDraw(d);
        canvas.Draw(LookOf(d), brush);
    }

    method Receive(op: Op)
      requires Valid() && OpChecks(op, State(), canvas.sk)
      modifies this, canvas
      ensures Valid() && State() == DoOp(op, old(State()), canvas.sk, true)
      decreases op
    {
      match op
      case Set(s) => SetAttribute(s);
      case Save => Save();
      case SaveLayer(bounds, options, backdrop) => SaveLayer(bounds, options, backdrop);
      case Restore => Restore();
      case Paint(d) => DrawAny(d);
      case _ => canvas.ChangeEnv(op);
    }

    method Dispatch(ops: seq<Op>)
      requires Valid() && ChecksPass(ops, State(), canvas.sk)
      modifies this, canvas
      ensures Valid() && State() == Run(ops, old(State()), canvas.sk, true)
      decreases ops
    {
      ghost var start := State();
      var i := 0;
      while i < |ops|
        invariant 0 <= i <= |ops| && Valid()
        invariant State() == Run(ops[..i], start, canvas.sk, true)
      {
        ChecksAt(ops, i, start, canvas.sk);
        assert ops[..i + 1][..i] == ops[..i];
        Receive(ops[i]);
        i := i + 1;
      }
      assert ops[..i] == ops;
    }
  }

  lemma AlphaIsUnit(color: Color, opacity: real)
    requires 0.0 <= opacity <= 1.0
    ensures 0.0 <= AlphaOf(color) * opacity <= 1.0
  {
    var alpha := AlphaOf(color);
    assert 0.0 <= alpha <= 1.0;
    assert alpha * opacity <= 1.0 * opacity;
  }

  /** DisplayList::RenderTo. Its check on the opacity is a demand on the caller here, which
      every list meets for the lists nested in it. */
  method RenderList(list: DisplayList, canvas: SkCanvas, opacity: real)
    requires 0.0 <= opacity <= 1.0 && MayRender(list, opacity) && ListChecks(list, canvas.state, opacity, canvas.sk)
    modifies canvas
    ensures canvas.state == RenderTo(list, old(canvas.state), opacity, canvas.sk, true)
    decreases list, 0
  {
    assert list.canApplyGroupOpacity || opacity >= 1.0;
    var dispatcher := new Dispatcher(canvas, opacity);
    dispatcher.Dispatch(list.ops);
  }
}
