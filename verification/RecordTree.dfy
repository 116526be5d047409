// The nesting structure of a recorded stream: a balanced sequence of records is the
// flattening of a forest of save and saveLayer groups. The group-opacity analysis is
// stated on the forest, independently of how the builder computes it.
module RecordTree {
  import opened Basics
  import opened DisplayListOps

  datatype LayerInfo = LayerInfo(bounds: Option<Rect>, withAttributes: bool, backdrop: Option<nat>)

  datatype Node =
    | Leaf(op: Op)
    | SaveGroup(body: seq<Node>)
    | LayerGroup(layer: LayerInfo, canDistribute: bool, body: seq<Node>)

  function LayerOp(layer: LayerInfo, canDistribute: bool): Op {
    SaveLayer(layer.bounds, SaveLayerOptions(layer.withAttributes, canDistribute), layer.backdrop)
  }

  function FlatNode(n: Node): seq<Op> {
    match n
    case Leaf(op) => [op]
    case SaveGroup(body) => [Save] + Flat(body) + [Restore]
    case LayerGroup(layer, bit, body) => [LayerOp(layer, bit)] + Flat(body) + [Restore]
  }

  function Flat(ns: seq<Node>): seq<Op> {
    if ns == [] then [] else Flat(ns[..|ns| - 1]) + FlatNode(ns[|ns| - 1])
  }

  predicate IsStructural(op: Op) {
    op.Save? || op.SaveLayer? || op.Restore?
  }

  predicate WellFormedNode(n: Node) {
    match n
    case Leaf(op) => !IsStructural(op)
    case SaveGroup(body) => WellFormed(body)
    case LayerGroup(_, _, body) => WellFormed(body)
  }

  predicate WellFormed(ns: seq<Node>) {
    ns == [] || (WellFormed(ns[..|ns| - 1]) && WellFormedNode(ns[|ns| - 1]))
  }

  // ----- Attributes along a stream -----

  function StepAttrs(op: Op, a: Attrs): Attrs {
    if op.Set? then Apply(op.setting, a) else a
  }

  /** The attributes in force after a stream; save and restore do not affect them. */
  function After(ops: seq<Op>, a: Attrs): Attrs {
    if ops == [] then a else StepAttrs(ops[|ops| - 1], After(ops[..|ops| - 1], a))
  }

  lemma {:induction false} AfterConcat(s: seq<Op>, t: seq<Op>, a: Attrs)
    ensures After(s + t, a) == After(t, After(s, a))
  {
    if t == [] {
      assert s + t == s;
    } else {
      var init := t[..|t| - 1];
      assert (s + t)[..|s + t| - 1] == s + init;
      AfterConcat(s, init, a);
    }
  }

  lemma FlatSnoc(ns: seq<Node>, n: Node)
    ensures Flat(ns + [n]) == Flat(ns) + FlatNode(n)
  {
    assert (ns + [n])[..|ns|] == ns;
  }

  lemma {:induction false} FlatConcat(s: seq<Node>, t: seq<Node>)
    ensures Flat(s + t) == Flat(s) + Flat(t)
  {
    if t == [] {
      assert s + t == s;
    } else {
      var init, last := t[..|t| - 1], t[|t| - 1];
      assert s + t == (s + init) + [last];
      FlatConcat(s, init);
      FlatSnoc(s + init, last);
    }
  }

  // ----- The opacity analysis, on the forest -----

  /** What one group or operation counts for in the layer that encloses it. A layer is one
      operation of its parent whatever it holds; a plain save is transparent. */
  function NodeWeight(n: Node, a: Attrs): Weight {
    match n
    case Leaf(op) => if op.Paint? then DrawWeight(op.draw, a) else NOTHING
    case SaveGroup(body) => Count(body, a)
    case LayerGroup(layer, _, _) => LayerWeight(layer, a)
  }

  function LayerWeight(layer: LayerInfo, a: Attrs): Weight {
    WeightOf(!layer.withAttributes || Compatible(a))
  }

  /** A layer that applies attributes which cannot be passed to its children is
      incompatible from the start. */
  function OwnWeight(layer: LayerInfo, a: Attrs): Weight {
    if layer.withAttributes && (!Compatible(a) || a.imageFilter.Some?) then TOO_MANY else NOTHING
  }

  /** The content of a layer, flattened through plain saves but not through layers. */
  function Count(ns: seq<Node>, a: Attrs): Weight {
    if ns == [] then NOTHING else
    var init := ns[..|ns| - 1];
    Join(Count(init, a), NodeWeight(ns[|ns| - 1], After(Flat(init), a)))
  }

  /** A layer may pass an opacity on to its children. */
  predicate CanDistribute(layer: LayerInfo, body: seq<Node>, a: Attrs) {
    OwnWeight(layer, a) == NOTHING && Count(body, a) != TOO_MANY
  }

  predicate NodeBitExact(n: Node, a: Attrs) {
    match n
    case Leaf(_) => true
    case SaveGroup(body) => BitsExact(body, a)
    case LayerGroup(layer, bit, body) => bit == CanDistribute(layer, body, a) && BitsExact(body, a)
  }

  /** Every saveLayer record carries the can-distribute bit exactly when it may. */
  predicate BitsExact(ns: seq<Node>, a: Attrs) {
    ns == [] ||
    (var init := ns[..|ns| - 1];
     BitsExact(init, a) && NodeBitExact(ns[|ns| - 1], After(Flat(init), a)))
  }

  /** The analysis looks at neither the colour source nor anything else it does not name. */
  predicate AgreeExceptSource(a: Attrs, b: Attrs) {
    a == b.(source := a.source)
  }
}
