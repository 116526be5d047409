// Conservation of the size metrics: the op count and byte count that a list reports, with
// nesting included, are those of the whole tree of lists it draws.
module NestedCounts {
  import opened Basics
  import opened DisplayListOps
  import opened Outlines
  import opened RecordTree
  import opened Recorder
  import opened OpacityBits
  import opened Emission

  // ----- The draw calls of a stream -----

  function Draws(ops: seq<Op>): seq<Look> {
    if ops == [] then []
    else if Last(ops).Paint? then Draws(Init(ops)) + [LookOf(Last(ops).draw)]
    else Draws(Init(ops))
  }

  lemma LastDraw(ops: seq<Op>)
    requires ops != []
    ensures Last(ops).Paint? ==>
              && Draws(ops) != [] && Init(Draws(ops)) == Draws(Init(ops))
              && Last(Draws(ops)) == LookOf(Last(ops).draw)
    ensures !Last(ops).Paint? ==> Draws(ops) == Draws(Init(ops))
  {
  }

  lemma {:induction false} DrawsConcat(s: seq<Op>, t: seq<Op>)
    ensures Draws(s + t) == Draws(s) + Draws(t)
  {
    if t == [] {
      assert s + t == s;
    } else {
      DrawsConcat(s, Init(t));
      assert Init(s + t) == s + Init(t);
    }
  }

  lemma {:induction false} DrawsIgnoreOthers(s: seq<Op>, i: nat, op: Op)
    requires i < |s| && !s[i].Paint? && !op.Paint?
    ensures Draws(s[i := op]) == Draws(s)
  {
    if i == |s| - 1 {
      assert Init(s[i := op]) == Init(s);
    } else {
      DrawsIgnoreOthers(Init(s), i, op);
      assert Init(s[i := op]) == Init(s)[i := op];
    }
  }

  lemma DrawsEmitted(r: Recorder, op: Op)
    ensures Draws(Emitted(r, op)) == if op.Paint? then [LookOf(op.draw)] else []
  {
    var e := Emitted(r, op);
    if op.Paint? {
      ReducedLooks(op.draw);
      assert Init(e) == [];
    } else if |e| == 1 {
      assert Init(e) == [];
    } else if |e| == 2 {
      assert Init(e) == [Save] && Init([Save]) == [];
    }
  }

  /** No draw call is lost, added or reordered by recording. */
  lemma {:induction false} DrawsAreKept(calls: seq<Op>, layout: Layout)
    ensures Draws(Stream(Record(calls, START, layout).levels)) == Draws(calls)
  {
    if calls == [] {
    } else {
      var r, op := Record(Init(calls), START, layout), Last(calls);
      DrawsAreKept(Init(calls), layout);
      RecordOk(Init(calls), layout);
      StreamStep(r, op, layout);
      DrawsConcat(Stream(r.levels), Emitted(r, op));
      DrawsEmitted(r, op);
      if Patches(r, op) {
        DrawsIgnoreOthers(Stream(r.levels) + Emitted(r, op), |Stream(r.levels.below)|,
                          LayerOp(r.levels.top.kind.layer, true));
      }
    }
  }

  // ----- The builder's nested totals -----

  function LookOps(l: Look): int {
    if l.Plainly? then NestedOps(l.draw) else 0
  }

  function LookBytes(l: Look, layout: Layout): nat {
    if l.Plainly? then NestedBytes(l.draw, layout) else 0
  }

  function NestedOpsOf(ds: seq<Look>): U32 {
    if ds == [] then 0 else Wrap32(NestedOpsOf(Init(ds)) + LookOps(Last(ds)))
  }

  function NestedBytesOf(ds: seq<Look>, layout: Layout): nat {
    if ds == [] then 0 else NestedBytesOf(Init(ds), layout) + LookBytes(Last(ds), layout)
  }

  lemma StepNested(r: Recorder, op: Op, layout: Layout)
    ensures var r' := Step(r, op, layout);
            && r'.nestedOps == (if op.Paint? then Wrap32(r.nestedOps + LookOps(LookOf(op.draw))) else r.nestedOps)
            && r'.nestedBytes == r.nestedBytes + (if op.Paint? then LookBytes(LookOf(op.draw), layout) else 0)
  {
  }

  lemma {:induction false} NestedTotals(calls: seq<Op>, layout: Layout)
    ensures var r := Record(calls, START, layout);
            && r.nestedOps == NestedOpsOf(Draws(calls))
            && r.nestedBytes == NestedBytesOf(Draws(calls), layout)
  {
    if calls == [] {
    } else {
      NestedTotals(Init(calls), layout);
      StepNested(Record(Init(calls), START, layout), Last(calls), layout);
      LastDraw(calls);
    }
  }

  // ----- The tree of lists -----

  /** The counted operations of a stream with every nested list replaced by its own. */
  function FlatOps(ops: seq<Op>): nat {
    if ops == [] then 0 else FlatOps(ops[..|ops| - 1]) + FlatOp(ops[|ops| - 1])
  }

  function FlatOp(op: Op): nat {
    if op.Paint? then FlatDraw(op.draw) else if op.Set? || op.TransformReset? then 0 else 1
  }

  function FlatDraw(d: Draw): nat {
    match d
    case DrawDisplayList(list) => FlatList(list)
    case DrawPicture(_, ops, _, _) => ops
    case _ => 1
  }

  function FlatList(list: DisplayList): nat {
    FlatOps(list.ops)
  }

  /** The bytes of the nested lists and pictures of a stream, each with its own content. */
  function NestedTree(ops: seq<Op>, layout: Layout): nat {
    if ops == [] then 0 else NestedTree(ops[..|ops| - 1], layout) + OpTree(ops[|ops| - 1], layout)
  }

  function OpTree(op: Op, layout: Layout): nat {
    if op.Paint? then DrawTree(op.draw, layout) else 0
  }

  function DrawTree(d: Draw, layout: Layout): nat {
    match d
    case DrawDisplayList(list) => TreeBytes(list, layout)
    case DrawPicture(_, _, bytes, _) => bytes
    case _ => 0
  }

  /** The sum of the sizes of all the lists in the tree, each counted on its own. */
  function TreeBytes(list: DisplayList, layout: Layout): nat {
    layout.listHeader + Bytes(list.ops, layout) + NestedTree(list.ops, layout)
  }

  /** The totals of a list, and of every list it draws, are the ones a builder computes. */
  predicate Counted(list: DisplayList, layout: Layout) {
    && list.opCount == Wrap32(Increments(list.ops))
    && list.byteCount == Bytes(list.ops, layout)
    && list.nestedOpCount == NestedOpsOf(Draws(list.ops))
    && list.nestedByteCount == NestedBytesOf(Draws(list.ops), layout)
    && OpsCounted(list.ops, layout)
  }

  predicate OpsCounted(ops: seq<Op>, layout: Layout) {
    ops == [] || (OpsCounted(ops[..|ops| - 1], layout) && OpCounted(ops[|ops| - 1], layout))
  }

  predicate OpCounted(op: Op, layout: Layout) {
    op.Paint? ==> DrawCounted(op.draw, layout)
  }

  predicate DrawCounted(d: Draw, layout: Layout) {
    d.DrawDisplayList? ==> Counted(d.list, layout)
  }

  predicate LookCounted(l: Look, layout: Layout) {
    l.Plainly? ==> DrawCounted(l.draw, layout)
  }

  predicate DrawsCounted(ds: seq<Look>, layout: Layout) {
    ds == [] || (DrawsCounted(Init(ds), layout) && LookCounted(Last(ds), layout))
  }

  lemma WrapUnique(x: int, q: int, r: U32)
    requires x == 0x1_0000_0000 * q + r
    ensures Wrap32(x) == r
  {
  }

  lemma WrapShift(x: int, k: int)
    ensures Wrap32(x + 0x1_0000_0000 * k) == Wrap32(x)
  {
    WrapUnique(x + 0x1_0000_0000 * k, x / 0x1_0000_0000 + k, Wrap32(x));
  }

  lemma WrapOnce(x: int, y: int)
    ensures Wrap32(Wrap32(x) + y) == Wrap32(x + y)
    ensures Wrap32(x + Wrap32(y)) == Wrap32(x + y)
  {
    WrapShift(x + y, -(x / 0x1_0000_0000));
    WrapShift(x + y, -(y / 0x1_0000_0000));
  }

  /** One more operation adds the same amount to both sides of the op-count equation. */
  lemma OneMoreOp(sum: int, nested: int, flat: int, inc: int, more: int, f: int)
    requires Wrap32(sum + nested) == Wrap32(flat)
    requires Wrap32(more + inc) == Wrap32(f)
    ensures Wrap32(sum + inc + Wrap32(nested + more)) == Wrap32(flat + f)
  {
    WrapOnce(sum + inc, nested + more);
    WrapOnce(sum + nested, more + inc);
    WrapOnce(flat, more + inc);
    WrapOnce(flat, f);
  }

  lemma NothingMore(x: U32, more: int)
    requires more == 0
    ensures x == Wrap32(x + more)
  {
  }

  lemma DrawSnoc(ops: seq<Op>)
    requires ops != [] && Last(ops).Paint?
    ensures NestedOpsOf(Draws(ops)) == Wrap32(NestedOpsOf(Draws(Init(ops))) + MoreNested(Last(ops)))
  {
    LastDraw(ops);
  }

  lemma OtherSnoc(ops: seq<Op>)
    requires ops != [] && !Last(ops).Paint?
    ensures NestedOpsOf(Draws(ops)) == NestedOpsOf(Draws(Init(ops)))
  {
  }

  /** The totals of a stream with one more operation. */
  lemma OpsSnoc(ops: seq<Op>)
    requires ops != []
    ensures NestedOpsOf(Draws(ops)) == Wrap32(NestedOpsOf(Draws(Init(ops))) + MoreNested(Last(ops)))
  {
    if Last(ops).Paint? {
      DrawSnoc(ops);
    } else {
      OtherSnoc(ops);
      NothingMore(NestedOpsOf(Draws(Init(ops))), MoreNested(Last(ops)));
    }
  }

  lemma BytesSnoc(ops: seq<Op>, layout: Layout)
    requires ops != []
    ensures NestedBytesOf(Draws(ops), layout) == NestedBytesOf(Draws(Init(ops)), layout) +
              if Last(ops).Paint? then LookBytes(LookOf(Last(ops).draw), layout) else 0
  {
    LastDraw(ops);
  }

  lemma {:induction false} StreamTotals(ops: seq<Op>, layout: Layout)
    requires OpsCounted(ops, layout)
    ensures Wrap32(Increments(ops) + NestedOpsOf(Draws(ops))) == Wrap32(FlatOps(ops))
    ensures NestedBytesOf(Draws(ops), layout) == NestedTree(ops, layout)
  {
    if ops == [] {
    } else {
      var init, op := Init(ops), ops[|ops| - 1];
      StreamTotals(init, layout);
      OpTotals(op, layout);
      OpsSnoc(ops);
      BytesSnoc(ops, layout);
      OneMoreOp(Increments(init), NestedOpsOf(Draws(init)), FlatOps(init), OpIncrement(op), MoreNested(op), FlatOp(op));
    }
  }

  function MoreNested(op: Op): int {
    if op.Paint? then LookOps(LookOf(op.draw)) else 0
  }

  lemma {:induction false} OpTotals(op: Op, layout: Layout)
    requires OpCounted(op, layout)
    ensures Wrap32(MoreNested(op) + OpIncrement(op)) == Wrap32(FlatOp(op))
    ensures op.Paint? ==> LookBytes(LookOf(op.draw), layout) == OpTree(op, layout)
    decreases op
  {
    if op.Paint? { DrawTotals(op.draw, layout); }
  }

  lemma {:induction false} DrawTotals(d: Draw, layout: Layout)
    requires DrawCounted(d, layout)
    ensures Wrap32(LookOps(LookOf(d)) + 1) == Wrap32(FlatDraw(d))
    ensures LookOps(LookOf(d)) == NestedOps(d)
    ensures LookBytes(LookOf(d), layout) == DrawTree(d, layout)
    decreases d
  {
    if d.DrawDisplayList? { CountsAreConserved(d.list, layout); }
  }

  /** The main result: op_count(true) is the number of counted operations in the flattened
      tree, modulo 2^32, with each drawDisplayList transparent (an empty list contributes
      -1 on the way); bytes(true) is the sum over all lists in the tree. */
  lemma {:induction false} CountsAreConserved(list: DisplayList, layout: Layout)
    requires Counted(list, layout)
    ensures ListOps(list) == Wrap32(FlatList(list))
    ensures ListBytes(list, layout) == TreeBytes(list, layout)
    decreases list
  {
    StreamTotals(list.ops, layout);
    WrapOnce(Increments(list.ops), NestedOpsOf(Draws(list.ops)));
    WrapOnce(NestedOpsOf(Draws(list.ops)), Increments(list.ops));
  }

  lemma ReducedCounted(op: Op, layout: Layout)
    ensures op.Paint? ==> LookCounted(LookOf(op.draw), layout) == OpCounted(op, layout)
    ensures !op.Paint? ==> OpCounted(op, layout)
  {
  }

  lemma {:induction false} DrawsCountedOps(ops: seq<Op>, layout: Layout)
    ensures DrawsCounted(Draws(ops), layout) <==> OpsCounted(ops, layout)
  {
    if ops == [] {
    } else {
      DrawsCountedOps(Init(ops), layout);
      LastDraw(ops);
      ReducedCounted(Last(ops), layout);
    }
  }

  lemma {:induction false} NoDrawsInRestores(n: nat)
    ensures Draws(Restores(n)) == []
  {
    if n == 0 {
    } else {
      NoDrawsInRestores(n - 1);
      assert Init(Restores(n)) == Restores(n - 1);
    }
  }

  lemma DrawsOfBuild(calls: seq<Op>, layout: Layout)
    ensures Draws(Closed(calls, layout)) == Draws(calls)
    ensures Draws(Build(calls, layout).ops) == Draws(calls)
  {
    var closed := Closed(calls, layout);
    var n := |closed| - |calls|;
    assert closed == calls + Restores(n);
    DrawsConcat(calls, Restores(n));
    NoDrawsInRestores(n);
    DrawsAreKept(closed, layout);
  }

  /** A list built from calls whose nested lists have right totals has right totals. */
  lemma BuildIsCounted(calls: seq<Op>, layout: Layout)
    requires OpsCounted(calls, layout)
    ensures Counted(Build(calls, layout), layout)
  {
    DrawsOfBuild(calls, layout);
    NestedTotals(Closed(calls, layout), layout);
    DrawsCountedOps(calls, layout);
    DrawsCountedOps(Build(calls, layout).ops, layout);
  }
}
