// The complexity score of a display list: an accumulator that stops once a ceiling is
// passed and hands nested lists what is left of it, against the plain sum of all costs.
module Complexity {
  import opened Basics
  import opened DisplayListOps
  import opened RecordTree

  // ----- Costs -----

  /** A sum of costs; a saveLayer with a backdrop costs more than anything. */
  datatype Cost = Finite(amount: nat) | Infinite

  const FREE: Cost := Finite(0)
  const MAX_U32: U32 := 0xFFFF_FFFF

  function Plus(a: Cost, b: Cost): Cost {
    if a.Finite? && b.Finite? then Finite(a.amount + b.amount) else Infinite
  }

  predicate Exceeds(cost: Cost, limit: nat) {
    cost.Infinite? || cost.amount > limit
  }

  function Capped(cost: Cost, limit: nat): nat {
    if Exceeds(cost, limit) then limit else cost.amount
  }

  /** The attributes that costs depend on. */
  datatype PaintState = PaintState(antiAlias: bool, style: Style, width: real)

  const DEFAULT_PAINT: PaintState := PaintState(false, Fill, 0.0)

  /** The cost formulas of the individual operations, and the sizes they work on. */
  datatype Costs = Costs(
    ofDraw: (Draw, PaintState) -> U32,
    atlasLength: Draw -> nat,
    ofAtlasImage: (Draw, PaintState, nat) -> U32)

  const FLAT_COST: U32 := 50

  /** The code's formula, in 32-bit arithmetic throughout. */
  function BatchedComplexity(layers: U32, blobs: U32): U32 {
    Wrap32(LayersComplexity(layers) + BlobsComplexity(blobs))
  }

  function LayersComplexity(n: U32): U32 {
    if n == 0 then 0 else Wrap32((n + 50) * 40000)
  }

  function BlobsComplexity(n: U32): U32 {
    if n == 0 then 0 else Wrap32((n + 60) * 2500) / 3
  }

  /** The formula itself. */
  function BatchedCost(layers: nat, blobs: nat): nat {
    LayersCost(layers) + BlobsCost(blobs)
  }

  function LayersCost(n: nat): nat {
    if n == 0 then 0 else (n + 50) * 40000
  }

  function BlobsCost(n: nat): nat {
    if n == 0 then 0 else (n + 60) * 2500 / 3
  }

  predicate BlobsFit(n: nat) {
    n == 0 || (n + 60) * 2500 <= MAX_U32
  }

  /** No intermediate result of the formula leaves 32 bits. */
  predicate BatchFits(layers: nat, blobs: nat) {
    BatchedCost(layers, blobs) <= MAX_U32 && BlobsFit(blobs)
  }

  // ----- The plain sum -----

  datatype Totals = Totals(cost: Cost, layers: nat, blobs: nat, paint: PaintState)

  const NOTHING_YET: Totals := Totals(FREE, 0, 0, DEFAULT_PAINT)

  function AtlasCost(d: Draw, paint: PaintState, count: nat, costs: Costs): nat {
    if count == 0 then 0 else AtlasCost(d, paint, count - 1, costs) + costs.ofAtlasImage(d, paint, count - 1)
  }

  /** The cost of a rendering operation other than a text blob, which is batched. Whether
      the batched costs wrap around is a parameter. */
  function DrawCost(d: Draw, paint: PaintState, costs: Costs, wraps: bool): Cost
    decreases d
  {
    match d
    case DrawPaint => Finite(FLAT_COST)
    case DrawColor(_, _) => Finite(FLAT_COST)
    case DrawAtlas(_, _) => Finite(AtlasCost(d, paint, costs.atlasLength(d), costs))
    case DrawDisplayList(list) => ListCost(list, costs, wraps)
    case _ => Finite(costs.ofDraw(d, paint))
  }

  predicate IsTextBlob(d: Draw) {
    d.DrawFigure? && d.figure.TextBlob?
  }

  function StepPaint(s: Setting, paint: PaintState): PaintState {
    match s
    case AntiAlias(on) => paint.(antiAlias := on)
    case DrawStyle(style) => paint.(style := style)
    case StrokeWidth(width) => paint.(width := width)
    case _ => paint
  }

  function StepTotals(t: Totals, op: Op, costs: Costs, wraps: bool): Totals
    decreases op
  {
    match op
    case Set(s) => t.(paint := StepPaint(s, t.paint))
    case SaveLayer(_, _, backdrop) => t.(layers := t.layers + 1, cost := if backdrop.Some? then Infinite else t.cost)
    case Paint(d) =>
      if IsTextBlob(d) then t.(blobs := t.blobs + 1)
      else t.(cost := Plus(t.cost, DrawCost(d, t.paint, costs, wraps)))
    case _ => t
  }

  function TotalsOf(ops: seq<Op>, costs: Costs, wraps: bool): Totals {
    if ops == [] then NOTHING_YET
    else StepTotals(TotalsOf(ops[..|ops| - 1], costs, wraps), ops[|ops| - 1], costs, wraps)
  }

  function Batched(layers: nat, blobs: nat, wraps: bool): nat {
    if wraps then BatchedComplexity(Wrap32(layers), Wrap32(blobs)) else BatchedCost(layers, blobs)
  }

  /** The cost of a list on its own: everything in it, with default attributes to start. */
  function ListCost(list: DisplayList, costs: Costs, wraps: bool): Cost {
    var t := TotalsOf(list.ops, costs, wraps);
    Plus(t.cost, Finite(Batched(t.layers, t.blobs, wraps)))
  }

  /** The totals after the first images of an atlas. */
  function WithImages(t: Totals, d: Draw, count: nat, costs: Costs): Totals {
    t.(cost := Plus(t.cost, Finite(AtlasCost(d, t.paint, count, costs))))
  }

  lemma OneMoreImage(t: Totals, d: Draw, i: nat, costs: Costs)
    ensures WithImages(t, d, i + 1, costs)
         == t.(cost := Plus(WithImages(t, d, i, costs).cost, Finite(costs.ofAtlasImage(d, t.paint, i))))
  {
  }

  // ----- The accumulator -----

  class GLHelper {
    const costs: Costs
    const ceiling: U32

    var score: U32
    var isComplex: bool
    var saveLayerCount: U32
    var textBlobCount: U32
    var paint: PaintState

    /** What has been accumulated stands for this sum: it is the sum, cut off at the
        ceiling, until the sum is known to exceed the ceiling. */
    ghost predicate Tracks(cost: Cost)
      reads this`score, this`isComplex
    {
      score <= ceiling && if isComplex then Exceeds(cost, ceiling) else score == Capped(cost, ceiling)
    }

    ghost predicate Valid(t: Totals)
      reads this
    {
      && Tracks(t.cost) && paint == t.paint
      && (!isComplex ==> saveLayerCount == Wrap32(t.layers) && textBlobCount == Wrap32(t.blobs))
    }

    constructor (ceiling: U32, costs: Costs)
      ensures Valid(NOTHING_YET) && this.ceiling == ceiling && this.costs == costs
    {
      this.ceiling, this.costs := ceiling, costs;
      score, isComplex, saveLayerCount, textBlobCount, paint := 0, false, 0, 0, DEFAULT_PAINT;
    }

    /** Adds an amount that may itself have been cut off, at no less than the rest. */
    method AccumulateComplexity(complexity: U32, ghost cost: Cost, ghost more: Cost, ghost limit: nat)
      requires Tracks(cost) && complexity == Capped(more, limit) && limit >= ceiling - score
      modifies this`score, this`isComplex
      ensures Tracks(Plus(cost, more))
      ensures old(isComplex) ==> isComplex
    {
      if ceiling - score < complexity {
        isComplex := true;
        return;
      }
      score := score + complexity;
    }

    method SetPaint(s: Setting, ghost t: Totals)
      requires Valid(t)
      modifies this`paint
      ensures Valid(t.(paint := StepPaint(s, t.paint)))
    {
      match s
      case AntiAlias(on) => paint := paint.(antiAlias := on);
      case DrawStyle(style) => paint := paint.(style := style);
      case StrokeWidth(width) => paint := paint.(width := width);
      case _ =>
    }

    method SaveLayer(backdrop: Option<nat>, ghost t: Totals)
      requires Valid(t)
      modifies this
      ensures Valid(t.(layers := t.layers + 1, cost := if backdrop.Some? then Infinite else t.cost))
    {
      if isComplex {
        return;
      }
      if backdrop.Some? {
        AccumulateComplexity(ceiling, t.cost, Infinite, ceiling);
      }
      saveLayerCount := Wrap32(saveLayerCount + 1);
    }

    method DrawTextBlob(ghost t: Totals)
      requires Valid(t)
      modifies this
      ensures Valid(t.(blobs := t.blobs + 1))
    {
      if isComplex {
        return;
      }
      textBlobCount := Wrap32(textBlobCount + 1);
    }

    /** Adds a cost that is known as such; nothing can be added once the ceiling is passed. */
    method DrawWithCost(complexity: U32, ghost t: Totals)
      requires Valid(t)
      modifies this
      ensures Valid(t.(cost := Plus(t.cost, Finite(complexity))))
    {
      if isComplex {
        return;
      }
      AccumulateComplexity(complexity, t.cost, Finite(complexity), MAX_U32);
    }

    /** drawPicture and the vertices calls do not look whether the ceiling has been passed. */
    method DrawUnconditionally(complexity: U32, ghost t: Totals)
      requires Valid(t)
      modifies this
      ensures Valid(t.(cost := Plus(t.cost, Finite(complexity))))
    {
      AccumulateComplexity(complexity, t.cost, Finite(complexity), MAX_U32);
    }

    /** An atlas is a series of images. */
    method DrawAtlas(d: Draw, ghost t: Totals)
      requires Valid(t)
      modifies this
      ensures Valid(WithImages(t, d, costs.atlasLength(d), costs))
    {
      if isComplex {
        return;
      }
      var i := 0;
      while i < costs.atlasLength(d)
        invariant i <= costs.atlasLength(d) && Valid(WithImages(t, d, i, costs))
      {
        DrawWithCost(costs.ofAtlasImage(d, paint, i), WithImages(t, d, i, costs));
        OneMoreImage(t, d, i, costs);
        i := i + 1;
      }
    }

    /** A nested list is scored on its own, against what is left of the ceiling. */
    method DrawDisplayList(list: DisplayList, ghost t: Totals)
      requires Valid(t)
      modifies this
      ensures Valid(t.(cost := Plus(t.cost, ListCost(list, costs, true))))
      decreases list
    {
      if isComplex {
        return;
      }
      var helper := new GLHelper(ceiling - score, costs);
      helper.Dispatch(list.ops);
      var nested := helper.ComplexityScore(TotalsOf(list.ops, costs, true));
      AccumulateComplexity(nested, t.cost, ListCost(list, costs, true), ceiling - score);
    }

    method DrawOne(d: Draw, ghost t: Totals)
      requires Valid(t)
      modifies this
      ensures Valid(StepTotals(t, Paint(d), costs, true))
      decreases d
    {
      if IsTextBlob(d) {
        DrawTextBlob(t);
        return;
      }
      match d
      case DrawPaint => DrawWithCost(FLAT_COST, t);
      case DrawColor(_, _) => DrawWithCost(FLAT_COST, t);
      case DrawAtlas(_, _) => DrawAtlas(d, t);
      case DrawDisplayList(list) => DrawDisplayList(list, t);
      case DrawPicture(_, _, _, _) => DrawUnconditionally(costs.ofDraw(d, paint), t);
      case DrawVertices(_) => DrawUnconditionally(costs.ofDraw(d, paint), t);
      case _ => DrawWithCost(costs.ofDraw(d, paint), t);
    }

    method Receive(op: Op, ghost t: Totals)
      requires Valid(t)
      modifies this
      ensures Valid(StepTotals(t, op, costs, true))
      decreases op
    {
      match op
      case Set(s) => SetPaint(s, t);
      case SaveLayer(_, _, backdrop) => SaveLayer(backdrop, t);
      case Paint(d) => DrawOne(d, t);
      case _ =>
    }

    method Dispatch(ops: seq<Op>)
      requires Valid(NOTHING_YET)
      modifies this
      ensures Valid(TotalsOf(ops, costs, true))
      decreases ops
    {
      var i := 0;
      while i < |ops|
        invariant 0 <= i <= |ops|
        invariant Valid(TotalsOf(ops[..i], costs, true))
      {
        assert ops[..i + 1][..i] == ops[..i];
        Receive(ops[i], TotalsOf(ops[..i], costs, true));
        i := i + 1;
      }
      assert ops[..i] == ops;
    }

    method BatchedScore() returns (batched: U32)
      ensures batched == BatchedComplexity(saveLayerCount, textBlobCount)
      ensures batched <= BatchedCost(saveLayerCount, textBlobCount)
      ensures batched == BatchedCost(saveLayerCount, textBlobCount) <==> BatchFits(saveLayerCount, textBlobCount)
    {
      CountedIsExact(saveLayerCount, textBlobCount);
      var saveLayer, textBlob := 0, 0;
      if saveLayerCount != 0 {
        saveLayer := Wrap32((saveLayerCount + 50) * 40000);
      }
      if textBlobCount != 0 {
        textBlob := Wrap32((textBlobCount + 60) * 2500) / 3;
      }
      batched := Wrap32(saveLayer + textBlob);
    }

    method ComplexityScore(ghost t: Totals) returns (result: U32)
      requires Valid(t)
      ensures result == Capped(Plus(t.cost, Finite(Batched(t.layers, t.blobs, true))), ceiling)
    {
      if isComplex {
        return ceiling;
      }
      var batched := BatchedScore();
      if ceiling - score < batched {
        return ceiling;
      }
      return score + batched;
    }
  }

  /** The score of a list under a ceiling. */
  method Compute(list: DisplayList, ceiling: U32, costs: Costs) returns (score: U32)
    ensures score == Capped(ListCost(list, costs, true), ceiling)
  {
    var helper := new GLHelper(ceiling, costs);
    helper.Dispatch(list.ops);
    score := helper.ComplexityScore(TotalsOf(list.ops, costs, true));
  }

  // ----- What lists cost -----

  function PaintOf(a: Attrs): PaintState {
    PaintState(a.antiAlias, a.style, a.width)
  }

  lemma PaintStep(s: Setting, a: Attrs)
    ensures StepPaint(s, PaintOf(a)) == PaintOf(Apply(s, a))
  {
  }

  /** The cost of an operation depends on the attributes it is drawn with. */
  lemma {:induction false} PaintIsTheAttributes(ops: seq<Op>, costs: Costs, wraps: bool)
    ensures TotalsOf(ops, costs, wraps).paint == PaintOf(After(ops, DEFAULTS))
  {
    if ops != [] {
      PaintIsTheAttributes(ops[..|ops| - 1], costs, wraps);
      if ops[|ops| - 1].Set? {
        PaintStep(ops[|ops| - 1].setting, After(ops[..|ops| - 1], DEFAULTS));
      }
    }
  }

  function FlatsOf(ops: seq<Op>): nat {
    if ops == [] then 0 else FlatsOf(Init(ops)) + if IsFlat(Last(ops)) then 1 else 0
  }

  predicate IsFlat(op: Op) {
    op.Paint? && (op.draw.DrawPaint? || op.draw.DrawColor?)
  }

  predicate IsPlain(op: Op) {
    match op
    case Paint(d) => IsFlat(op) || IsTextBlob(d)
    case SaveLayer(_, _, backdrop) => backdrop == None
    case _ => true
  }

  lemma PlainStep(t: Totals, op: Op, costs: Costs, wraps: bool, flats: nat)
    requires t.cost == Finite(50 * flats) && IsPlain(op)
    ensures StepTotals(t, op, costs, wraps).cost == Finite(50 * if IsFlat(op) then flats + 1 else flats)
  {
  }

  lemma {:induction false} PlainTotals(ops: seq<Op>, costs: Costs, wraps: bool)
    requires forall op :: op in ops ==> IsPlain(op)
    ensures TotalsOf(ops, costs, wraps).cost == Finite(50 * FlatsOf(ops))
  {
    if ops != [] {
      assert IsPlain(ops[|ops| - 1]);
      PlainTotals(ops[..|ops| - 1], costs, wraps);
      PlainStep(TotalsOf(ops[..|ops| - 1], costs, wraps), ops[|ops| - 1], costs, wraps, FlatsOf(ops[..|ops| - 1]));
    }
  }

  lemma LayersTogether(n: nat)
    ensures LayersCost(n) == if n == 0 then 0 else 2000000 + 40000 * n
  {
    assert (n + 50) * 40000 == 2000000 + 40000 * n;
  }

  lemma Thirds(x: nat, y: nat)
    requires x % 3 == 0
    ensures (x + y) / 3 == x / 3 + y / 3
  {
  }

  lemma BlobsTogether(n: nat)
    ensures BlobsCost(n) == if n == 0 then 0 else 50000 + 2500 * n / 3
  {
    assert (n + 60) * 2500 == 150000 + 2500 * n;
    Thirds(150000, 2500 * n);
  }

  /** Filling the clip costs 50, and layers and text blobs cost a fixed amount for all of
      them and less for each. */
  lemma PlainListCosts(list: DisplayList, costs: Costs, layers: nat, blobs: nat)
    requires forall op :: op in list.ops ==> IsPlain(op)
    requires layers == LayersOf(list.ops) && blobs == BlobsOf(list.ops)
    ensures ListCost(list, costs, false) == Finite(50 * FlatsOf(list.ops)
              + (if layers == 0 then 0 else 2000000 + 40000 * layers)
              + (if blobs == 0 then 0 else 50000 + 2500 * blobs / 3))
  {
    PlainTotals(list.ops, costs, false);
    TotalsCompare(list.ops, costs);
    LayersTogether(layers);
    BlobsTogether(blobs);
  }

  // ----- When the 32-bit formula is the formula -----

  lemma WrapIsSmaller(x: nat)
    ensures Wrap32(x) <= x && (Wrap32(x) == x <==> x <= MAX_U32)
  {
  }

  lemma LayersAreExact(n: U32)
    ensures LayersComplexity(n) <= LayersCost(n)
    ensures LayersComplexity(n) == LayersCost(n) <==> LayersCost(n) <= MAX_U32
  {
    WrapIsSmaller((n + 50) * 40000);
  }

  lemma BlobsAreExact(n: U32)
    ensures BlobsComplexity(n) <= BlobsCost(n)
    ensures BlobsComplexity(n) == BlobsCost(n) <==> BlobsFit(n)
  {
    WrapIsSmaller((n + 60) * 2500);
  }

  lemma SumIsExact(a: U32, b: U32, a': nat, b': nat)
    requires a <= a' && b <= b'
    ensures Wrap32(a + b) <= a' + b'
    ensures Wrap32(a + b) == a' + b' <==> a == a' && b == b' && a' + b' <= MAX_U32
  {
    WrapIsSmaller(a + b);
  }

  /** For numbers that have not wrapped around themselves. */
  lemma CountedIsExact(layers: U32, blobs: U32)
    ensures BatchedComplexity(layers, blobs) <= BatchedCost(layers, blobs)
    ensures BatchedComplexity(layers, blobs) == BatchedCost(layers, blobs) <==> BatchFits(layers, blobs)
  {
    LayersAreExact(layers);
    BlobsAreExact(blobs);
    SumIsExact(LayersComplexity(layers), BlobsComplexity(blobs), LayersCost(layers), BlobsCost(blobs));
  }

  lemma BatchedIsExact(layers: nat, blobs: nat)
    ensures Batched(layers, blobs, true) <= Batched(layers, blobs, false)
    ensures Batched(layers, blobs, true) == Batched(layers, blobs, false) <==> BatchFits(layers, blobs)
  {
    if layers <= MAX_U32 && blobs <= MAX_U32 {
      WrapIsSmaller(layers);
      WrapIsSmaller(blobs);
      CountedIsExact(layers, blobs);
    } else {
      TooManyToFit(layers, blobs);
    }
  }

  lemma TooManyToFit(layers: nat, blobs: nat)
    requires layers > MAX_U32 || blobs > MAX_U32
    ensures BatchedCost(layers, blobs) > MAX_U32 && !BatchFits(layers, blobs)
  {
  }

  predicate DrawBatchesFit(d: Draw)
    decreases d
  {
    d.DrawDisplayList? ==> BatchesFit(d.list)
  }

  predicate OpBatchesFit(op: Op)
    decreases op
  {
    op.Paint? ==> DrawBatchesFit(op.draw)
  }

  predicate AllBatchesFit(ops: seq<Op>)
    decreases ops
  {
    ops == [] || (AllBatchesFit(ops[..|ops| - 1]) && OpBatchesFit(ops[|ops| - 1]))
  }

  function LayersOf(ops: seq<Op>): nat {
    if ops == [] then 0 else LayersOf(Init(ops)) + if Last(ops).SaveLayer? then 1 else 0
  }

  function BlobsOf(ops: seq<Op>): nat {
    if ops == [] then 0 else BlobsOf(Init(ops)) + if Last(ops).Paint? && IsTextBlob(Last(ops).draw) then 1 else 0
  }

  /** In this list and in every list it draws, the numbers of layers and text blobs are
      small enough for the batched formula. */
  predicate BatchesFit(list: DisplayList)
    decreases list
  {
    BatchFits(LayersOf(list.ops), BlobsOf(list.ops)) && AllBatchesFit(list.ops)
  }

  /** One cost is the other, or both are finite and it is smaller. */
  predicate AtMost(a: Cost, b: Cost) {
    if b.Infinite? then a.Infinite? else a.Finite? && a.amount <= b.amount
  }

  /** A cost computed both ways: the wrapped one is no larger, and the same exactly if the
      cost is infinite anyway or nothing wraps. */
  predicate Compares(code: Cost, ideal: Cost, fits: bool) {
    AtMost(code, ideal) && (code == ideal <==> ideal.Infinite? || fits)
  }

  lemma PlusCompares(a: Cost, a': Cost, fits: bool, b: Cost, b': Cost, fits': bool)
    requires Compares(a, a', fits) && Compares(b, b', fits')
    ensures Compares(Plus(a, b), Plus(a', b'), fits && fits')
  {
  }

  lemma {:induction false} DrawCompares(d: Draw, paint: PaintState, costs: Costs)
    ensures Compares(DrawCost(d, paint, costs, true), DrawCost(d, paint, costs, false), DrawBatchesFit(d))
    decreases d
  {
    match d
    case DrawDisplayList(list) => ListCompares(list, costs);
    case _ =>
  }

  lemma {:induction false} TotalsCompare(ops: seq<Op>, costs: Costs)
    ensures var code, ideal := TotalsOf(ops, costs, true), TotalsOf(ops, costs, false);
            && Compares(code.cost, ideal.cost, AllBatchesFit(ops))
            && code.layers == ideal.layers == LayersOf(ops) && code.blobs == ideal.blobs == BlobsOf(ops)
            && code.paint == ideal.paint
    decreases ops
  {
    if ops == [] {
    } else {
      TotalsCompare(ops[..|ops| - 1], costs);
      StepCompares(TotalsOf(ops[..|ops| - 1], costs, true), TotalsOf(ops[..|ops| - 1], costs, false),
                   ops[|ops| - 1], costs, AllBatchesFit(ops[..|ops| - 1]));
    }
  }

  lemma {:induction false} StepCompares(t: Totals, t': Totals, op: Op, costs: Costs, fits: bool)
    requires Compares(t.cost, t'.cost, fits) && t.paint == t'.paint
    ensures Compares(StepTotals(t, op, costs, true).cost, StepTotals(t', op, costs, false).cost,
                     fits && OpBatchesFit(op))
    decreases op
  {
    if op.Paint? {
      DrawCompares(op.draw, t.paint, costs);
      PlusCompares(t.cost, t'.cost, fits, DrawCost(op.draw, t.paint, costs, true),
                   DrawCost(op.draw, t.paint, costs, false), OpBatchesFit(op));
    }
  }

  lemma {:induction false} ListCompares(list: DisplayList, costs: Costs)
    ensures Compares(ListCost(list, costs, true), ListCost(list, costs, false), BatchesFit(list))
    decreases list
  {
    TotalsCompare(list.ops, costs);
    BatchedIsExact(LayersOf(list.ops), BlobsOf(list.ops));
  }

  // ----- Lists that cost more than anything -----

  predicate DrawHasBackdrop(d: Draw)
    decreases d
  {
    d.DrawDisplayList? && HasBackdrop(d.list)
  }

  predicate OpHasBackdrop(op: Op)
    decreases op
  {
    (op.SaveLayer? && op.backdrop.Some?) || (op.Paint? && DrawHasBackdrop(op.draw))
  }

  predicate OpsHaveBackdrop(ops: seq<Op>)
    decreases ops
  {
    ops != [] && (OpsHaveBackdrop(ops[..|ops| - 1]) || OpHasBackdrop(ops[|ops| - 1]))
  }

  /** Some layer, in this list or in a list it draws at any depth, has a backdrop. */
  predicate HasBackdrop(list: DisplayList)
    decreases list
  {
    OpsHaveBackdrop(list.ops)
  }

  lemma {:induction false} InfiniteTotals(ops: seq<Op>, costs: Costs, wraps: bool)
    ensures TotalsOf(ops, costs, wraps).cost.Infinite? <==> OpsHaveBackdrop(ops)
    decreases ops
  {
    if ops == [] {
    } else {
      InfiniteTotals(ops[..|ops| - 1], costs, wraps);
      InfiniteStep(TotalsOf(ops[..|ops| - 1], costs, wraps), ops[|ops| - 1], costs, wraps);
    }
  }

  lemma {:induction false} InfiniteStep(t: Totals, op: Op, costs: Costs, wraps: bool)
    ensures StepTotals(t, op, costs, wraps).cost.Infinite? <==> t.cost.Infinite? || OpHasBackdrop(op)
    decreases op
  {
    if op.Paint? {
      InfiniteDraw(op.draw, t.paint, costs, wraps);
    }
  }

  lemma {:induction false} InfiniteDraw(d: Draw, paint: PaintState, costs: Costs, wraps: bool)
    ensures DrawCost(d, paint, costs, wraps).Infinite? <==> DrawHasBackdrop(d)
    decreases d
  {
    match d
    case DrawDisplayList(list) => InfiniteList(list, costs, wraps);
    case _ =>
  }

  /** A list costs more than anything exactly if some layer has a backdrop. */
  lemma {:induction false} InfiniteList(list: DisplayList, costs: Costs, wraps: bool)
    ensures ListCost(list, costs, wraps).Infinite? <==> HasBackdrop(list)
    decreases list
  {
    InfiniteTotals(list.ops, costs, wraps);
  }

  /** The sum of all costs is the code's sum exactly if some layer has a backdrop, or all
      numbers of layers and text blobs fit the batched formula. Otherwise the score is too
      low, and cut off at a ceiling it is right only if it is that ceiling. */
  lemma WhenTheScoreIsExact(list: DisplayList, ceiling: U32, costs: Costs)
    ensures ListCost(list, costs, true) == ListCost(list, costs, false) <==> HasBackdrop(list) || BatchesFit(list)
    ensures var score := Capped(ListCost(list, costs, true), ceiling);
            && score <= Capped(ListCost(list, costs, false), ceiling)
            && (score == Capped(ListCost(list, costs, false), ceiling)
                <==> HasBackdrop(list) || BatchesFit(list) || score == ceiling)
  {
    ListCompares(list, costs);
    InfiniteList(list, costs, false);
  }

  lemma CostOfFree(list: DisplayList, costs: Costs, wraps: bool, t: Totals, batched: nat)
    requires TotalsOf(list.ops, costs, wraps) == t && t.cost == FREE && batched == Batched(t.layers, t.blobs, wraps)
    ensures ListCost(list, costs, wraps) == Finite(batched)
  {
  }

  lemma CostOfLayers(n: nat, costs: Costs, layer: Op, list: DisplayList, wraps: bool, batched: nat)
    requires layer == SaveLayer(None, SaveLayerOptions(false, false), None) && list.ops == seq(n, _ => layer)
    requires batched == Batched(n, 0, wraps)
    ensures ListCost(list, costs, wraps) == Finite(batched)
  {
    TotalsOfLayers(n, costs, layer, wraps);
    CostOfFree(list, costs, wraps, Totals(FREE, n, 0, DEFAULT_PAINT), batched);
  }

  lemma LayersFit(n: nat)
    ensures BatchFits(n, 0) <==> n <= 107324
  {
  }

  /** A list of n layers and nothing else is scored at its cost as long as there are no more
      than 107324 of them, and below its cost from then on. */
  lemma ManyLayersWrapAround(n: nat, costs: Costs, layer: Op, list: DisplayList)
    requires layer == SaveLayer(None, SaveLayerOptions(false, false), None) && list.ops == seq(n, _ => layer)
    ensures AtMost(ListCost(list, costs, true), ListCost(list, costs, false))
    ensures ListCost(list, costs, true) == ListCost(list, costs, false) <==> n <= 107324
  {
    CostOfLayers(n, costs, layer, list, true, Batched(n, 0, true));
    CostOfLayers(n, costs, layer, list, false, Batched(n, 0, false));
    BatchedIsExact(n, 0);
    LayersFit(n);
  }

  lemma {:induction false} TotalsOfLayers(n: nat, costs: Costs, layer: Op, wraps: bool)
    requires layer == SaveLayer(None, SaveLayerOptions(false, false), None)
    ensures TotalsOf(seq(n, _ => layer), costs, wraps) == Totals(FREE, n, 0, DEFAULT_PAINT)
  {
    if n == 0 {
    } else {
      TotalsOfLayers(n - 1, costs, layer, wraps);
      var ops := seq(n, _ => layer);
      assert ops[..n - 1] == seq(n - 1, _ => layer);
    }
  }

  // ----- Paths -----

  datatype Verb = Move | LineTo | QuadTo | ConicTo | CubicTo | CloseContour

  datatype VerbCosts = VerbCosts(line: U32, quad: U32, conic: U32, cubic: U32)

  function Count(verbs: seq<Verb>, v: Verb): nat {
    if verbs == [] then 0 else Count(Init(verbs), v) + if Last(verbs) == v then 1 else 0
  }

  function PathCost(verbs: seq<Verb>, costs: VerbCosts): nat {
    costs.line * Count(verbs, LineTo) + costs.quad * Count(verbs, QuadTo)
    + costs.conic * Count(verbs, ConicTo) + costs.cubic * Count(verbs, CubicTo)
  }

  /** Each verb adds its cost, up to wrap-around; moves and closes are free. */
  method CalculatePathComplexity(verbs: seq<Verb>, costs: VerbCosts) returns (complexity: U32)
    ensures complexity == Wrap32(PathCost(verbs, costs))
  {
    complexity := 0;
    var i := 0;
    while i < |verbs|
      invariant 0 <= i <= |verbs|
      invariant complexity == Wrap32(PathCost(verbs[..i], costs))
    {
      VerbAdds(verbs[..i], verbs[i], costs);
      assert verbs[..i + 1] == verbs[..i] + [verbs[i]];
      match verbs[i] {
        case LineTo => complexity := Wrap32(complexity + costs.line);
        case QuadTo => complexity := Wrap32(complexity + costs.quad);
        case ConicTo => complexity := Wrap32(complexity + costs.conic);
        case CubicTo => complexity := Wrap32(complexity + costs.cubic);
        case _ =>
      }
      i := i + 1;
    }
    assert verbs[..i] == verbs;
  }

  function VerbCost(v: Verb, costs: VerbCosts): U32 {
    match v
    case LineTo => costs.line
    case QuadTo => costs.quad
    case ConicTo => costs.conic
    case CubicTo => costs.cubic
    case _ => 0
  }

  lemma OneMore(cost: nat, count: nat, more: nat)
    requires more <= 1
    ensures cost * (count + more) == cost * count + if more == 1 then cost else 0
  {
  }

  lemma WrapAdds(x: nat, y: nat)
    ensures Wrap32(x + y) == Wrap32(Wrap32(x) + y)
  {
  }

  lemma VerbAdds(verbs: seq<Verb>, v: Verb, costs: VerbCosts)
    ensures PathCost(verbs + [v], costs) == PathCost(verbs, costs) + VerbCost(v, costs)
    ensures Wrap32(PathCost(verbs + [v], costs)) == Wrap32(Wrap32(PathCost(verbs, costs)) + VerbCost(v, costs))
  {
    assert Init(verbs + [v]) == verbs;
    OneMore(costs.line, Count(verbs, LineTo), if v == LineTo then 1 else 0);
    OneMore(costs.quad, Count(verbs, QuadTo), if v == QuadTo then 1 else 0);
    OneMore(costs.conic, Count(verbs, ConicTo), if v == ConicTo then 1 else 0);
    OneMore(costs.cubic, Count(verbs, CubicTo), if v == CubicTo then 1 else 0);
    WrapAdds(PathCost(verbs, costs), VerbCost(v, costs));
  }
}
