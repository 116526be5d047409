// Small shared definitions: optional values, 32-bit wrap-around, and the
// saturating count behind the builder's group-opacity analysis.
module Basics {

  datatype Option<+T> = None | Some(value: T)

  type U32 = x: int | 0 <= x < 0x1_0000_0000

  /** Unsigned 32-bit arithmetic wraps around. */
  function Wrap32(x: int): U32 {
    x % 0x1_0000_0000
  }

  /** How many opacity-compatible rendering operations have been seen: none, one, or
      too many (which also stands for "an incompatible one"). */
  type Weight = w: int | 0 <= w <= 2

  const NOTHING: Weight := 0
  const SINGLE: Weight := 1
  const TOO_MANY: Weight := 2

  function Join(a: Weight, b: Weight): Weight {
    if a + b >= 2 then 2 else a + b
  }

  /** A stack that grows at the top. */
  datatype Stack<T> = Empty | Push(below: Stack<T>, top: T)

  function Depth<T>(s: Stack<T>): nat {
    if s.Empty? then 0 else Depth(s.below) + 1
  }

  function Init<T>(s: seq<T>): seq<T>
    requires s != []
  {
    s[..|s| - 1]
  }

  function Last<T>(s: seq<T>): T
    requires s != []
  {
    s[|s| - 1]
  }

  lemma Associates<T>(a: seq<T>, b: seq<T>, c: seq<T>)
    ensures (a + b) + c == a + (b + c)
  {
  }
}
