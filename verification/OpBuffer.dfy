// The byte buffer of a display list: records framed by a type and a size, aligned to
// pointers, in storage that grows by pages and is zero wherever nothing was written.
module OpBuffer {
  import opened Basics

  type U8 = b: int | 0 <= b < 256
  type Bytes = seq<U8>

  // A 64-bit little-endian platform, where the type is the low byte of the header word and
  // the size its upper 24 bits.
  const POINTER_SIZE: nat := 8
  const PAGE: nat := 4096
  const HEADER_SIZE: nat := 4
  const OP_TYPES: nat := 78

  // ----- Framing -----

  function AlignPtr(n: nat): (r: nat)
    ensures r % POINTER_SIZE == 0 && n <= r < n + POINTER_SIZE
  {
    (n + (POINTER_SIZE - 1)) / POINTER_SIZE * POINTER_SIZE
  }

  function Header(kind: U8, size: nat): (h: Bytes)
    ensures |h| == HEADER_SIZE
  {
    [kind, size % 256, size / 256 % 256, size / 65536 % 256]
  }

  function SizeField(h: Bytes): nat
    requires |h| >= HEADER_SIZE
  {
    var low: nat, mid: nat, high: nat := h[1], h[2], h[3];
    low + 256 * mid + 65536 * high
  }

  lemma HeaderRoundTrip(kind: U8, size: nat)
    requires size < 0x100_0000
    ensures Header(kind, size)[0] == kind && SizeField(Header(kind, size)) == size
  {
    assert size / 256 / 256 == size / 65536;
  }

  /** The bytes of a record say how many they are, and of which type. */
  predicate Framed(op: Bytes) {
    && |op| >= POINTER_SIZE && |op| % POINTER_SIZE == 0
    && SizeField(op) == |op| && op[0] < OP_TYPES
  }

  predicate AllFramed(ops: seq<Bytes>) {
    forall k :: 0 <= k < |ops| ==> Framed(ops[k])
  }

  function Concat(ops: seq<Bytes>): Bytes {
    if ops == [] then [] else Concat(Init(ops)) + Last(ops)
  }

  // ----- Records under construction -----

  /** A record as the builder constructs it: its type, and the bytes of the struct and of
      the data behind it. The gaps between fields are bytes that nobody writes. */
  datatype Record = Record(kind: U8, body: seq<Option<U8>>)

  function SizeOf(rec: Record): (size: nat)
    ensures size % POINTER_SIZE == 0 && HEADER_SIZE + |rec.body| <= size < HEADER_SIZE + |rec.body| + POINTER_SIZE
  {
    AlignPtr(HEADER_SIZE + |rec.body|)
  }

  /** The size fits its 24-bit field and the type is one of the enumeration. */
  predicate Fits(rec: Record) {
    SizeOf(rec) < 0x100_0000 && rec.kind < OP_TYPES
  }

  /** What byte k of a record reads as: a gap reads as zero. */
  function ByteAt(rec: Record, k: nat): U8
    requires k < SizeOf(rec)
  {
    if k < HEADER_SIZE then Header(rec.kind, SizeOf(rec))[k]
    else if k - HEADER_SIZE < |rec.body| && rec.body[k - HEADER_SIZE].Some? then rec.body[k - HEADER_SIZE].value
    else 0
  }

  function BytesOf(rec: Record): (s: Bytes)
    ensures |s| == SizeOf(rec)
  {
    seq(SizeOf(rec), k requires 0 <= k < SizeOf(rec) => ByteAt(rec, k))
  }

  lemma BytesOfIsFramed(rec: Record)
    requires Fits(rec)
    ensures Framed(BytesOf(rec)) && BytesOf(rec)[0] == rec.kind
    ensures var low: int, mid: int, high: int := BytesOf(rec)[1], BytesOf(rec)[2], BytesOf(rec)[3];
            |BytesOf(rec)| == low + 256 * mid + 65536 * high
    ensures |BytesOf(rec)| % 8 == 0 && |rec.body| + 4 <= |BytesOf(rec)| < |rec.body| + 12
    ensures forall k :: 0 <= k < |rec.body| && rec.body[k].Some? ==> BytesOf(rec)[HEADER_SIZE + k] == rec.body[k].value
  {
    HeaderRoundTrip(rec.kind, SizeOf(rec));
    assert BytesOf(rec)[..HEADER_SIZE] == Header(rec.kind, SizeOf(rec));
  }

  // ----- Concatenations -----

  lemma ConcatSnoc(ops: seq<Bytes>, op: Bytes)
    ensures Concat(ops + [op]) == Concat(ops) + op
  {
    assert Init(ops + [op]) == ops;
  }

  lemma {:induction false} ConcatAppend(s: seq<Bytes>, t: seq<Bytes>)
    ensures Concat(s + t) == Concat(s) + Concat(t)
  {
    if t == [] {
      assert s + t == s;
    } else {
      ConcatAppend(s, Init(t));
      assert t == Init(t) + [Last(t)];
      Associates(s, Init(t), [Last(t)]);
      ConcatSnoc(s + Init(t), Last(t));
      Associates(Concat(s), Concat(Init(t)), Last(t));
    }
  }

  lemma AlignedSum(a: int, b: int)
    requires a % POINTER_SIZE == 0 && b % POINTER_SIZE == 0
    ensures (a + b) % POINTER_SIZE == 0
  {
  }

  /** Every record starts at a pointer boundary. */
  lemma {:induction false} RecordsAreAligned(ops: seq<Bytes>)
    requires AllFramed(ops)
    ensures |Concat(ops)| % POINTER_SIZE == 0
  {
    if ops == [] {
    } else {
      RecordsAreAligned(Init(ops));
      assert Framed(Last(ops));
      AlignedSum(|Concat(Init(ops))|, |Last(ops)|);
    }
  }

  /** The records from i to j are the bytes from where i starts to where j starts. */
  lemma Slices(ops: seq<Bytes>, i: nat, j: nat)
    requires i <= j <= |ops|
    ensures |Concat(ops[..i])| + |Concat(ops[i..j])| == |Concat(ops[..j])| <= |Concat(ops)|
    ensures Concat(ops)[|Concat(ops[..i])|..|Concat(ops[..j])|] == Concat(ops[i..j])
  {
    assert ops[..j] == ops[..i] + ops[i..j] && ops == ops[..j] + ops[j..];
    ConcatAppend(ops[..i], ops[i..j]);
    ConcatAppend(ops[..j], ops[j..]);
  }

  /** What a walk reads where record k stands. */
  lemma ReadsRecord(ops: seq<Bytes>, k: nat)
    requires k < |ops| && Framed(ops[k])
    ensures var here, all := |Concat(ops[..k])|, Concat(ops);
            && here + |ops[k]| == |Concat(ops[..k + 1])| <= |all|
            && SizeField(all[here..here + HEADER_SIZE]) == |ops[k]|
            && all[here..here + |ops[k]|] == ops[k]
  {
    Slices(ops, k, k + 1);
    assert ops[k..k + 1] == [ops[k]] && Init([ops[k]]) == [];
    var here, all := |Concat(ops[..k])|, Concat(ops);
    assert all[here..here + |ops[k]|] == ops[k];
    assert all[here..here + HEADER_SIZE] == ops[k][..HEADER_SIZE];
  }

  /** A walk that stands at the end has passed every record. */
  lemma AtTheEnd(ops: seq<Bytes>, k: nat)
    requires k <= |ops| && AllFramed(ops)
    ensures |Concat(ops[..k])| <= |Concat(ops)|
    ensures k == |ops| <==> |Concat(ops[..k])| == |Concat(ops)|
  {
    if k == |ops| {
      assert ops[..k] == ops;
    } else {
      ReadsRecord(ops, k);
    }
  }

  /** The framing is uniquely decodable: bytes are the concatenation of records in at most
      one way. */
  lemma {:induction false} FramingIsUnique(xs: seq<Bytes>, ys: seq<Bytes>)
    requires AllFramed(xs) && AllFramed(ys) && Concat(xs) == Concat(ys)
    ensures xs == ys
  {
    SamePrefix(xs, ys, |xs|);
    AtTheEnd(xs, |xs|);
    AtTheEnd(ys, |xs|);
    assert xs[..|xs|] == xs;
  }

  lemma {:induction false} SamePrefix(xs: seq<Bytes>, ys: seq<Bytes>, k: nat)
    requires AllFramed(xs) && AllFramed(ys) && Concat(xs) == Concat(ys) && k <= |xs|
    ensures k <= |ys| && xs[..k] == ys[..k]
  {
    if k == 0 {
    } else {
      SamePrefix(xs, ys, k - 1);
      SameNext(xs, ys, k - 1, Concat(xs));
      assert xs[..k] == xs[..k - 1] + [xs[k - 1]] && ys[..k] == ys[..k - 1] + [ys[k - 1]];
    }
  }

  lemma SameNext(xs: seq<Bytes>, ys: seq<Bytes>, k: nat, all: Bytes)
    requires AllFramed(xs) && AllFramed(ys) && Concat(xs) == all == Concat(ys)
    requires k < |xs| && k <= |ys| && xs[..k] == ys[..k]
    ensures k < |ys| && xs[k] == ys[k]
  {
    var here := |Concat(xs[..k])|;
    ReadsRecord(xs, k);
    AtTheEnd(ys, k);
    ReadsRecord(ys, k);
    assert |xs[k]| == SizeField(all[here..here + HEADER_SIZE]) == |ys[k]|;
  }

  function WithByte(op: Bytes, pos: nat, value: U8): Bytes
    requires pos < |op|
  {
    op[pos := value]
  }

  /** A byte of one record changed in place. */
  lemma {:induction false} ConcatPatch(ops: seq<Bytes>, k: nat, pos: nat, value: U8)
    requires k < |ops| && pos < |ops[k]|
    ensures |Concat(ops[..k])| + pos < |Concat(ops)|
    ensures Concat(ops)[|Concat(ops[..k])| + pos := value] == Concat(ops[k := WithByte(ops[k], pos, value)])
  {
    var here, patched := |Concat(ops[..k])|, WithByte(ops[k], pos, value);
    if k == |ops| - 1 {
      assert ops[..k] == Init(ops) == Init(ops[k := patched]);
    } else {
      ConcatPatch(Init(ops), k, pos, value);
      assert Init(ops)[..k] == ops[..k] && Init(ops[k := patched]) == Init(ops)[k := patched];
      assert (Concat(Init(ops)) + Last(ops))[here + pos := value] == Concat(Init(ops))[here + pos := value] + Last(ops);
    }
  }

  lemma PatchKeepsFraming(op: Bytes, pos: nat, value: U8)
    requires Framed(op) && HEADER_SIZE <= pos < |op|
    ensures Framed(WithByte(op, pos, value))
  {
  }

  // ----- Filling a buffer -----

  class OpBuffer {
    var storage: array<U8>
    var used: nat
    var capacity: nat
    ghost var ops: seq<Bytes>

    ghost predicate Valid()
      reads this, storage
    {
      && used <= capacity == storage.Length && capacity % PAGE == 0
      && AllFramed(ops) && storage[..used] == Concat(ops)
      && forall k :: used <= k < storage.Length ==> storage[k] == 0
    }

    constructor ()
      ensures Valid() && ops == [] && used == 0 && fresh(storage)
    {
      storage, used, capacity, ops := new U8[0], 0, 0, [];
    }

    /** Makes room for more bytes: the next page boundary strictly above the request. */
    method Grow(size: nat)
      requires Valid() && used + size > capacity
      modifies this`storage, this`capacity
      ensures Valid() && fresh(storage)
      ensures capacity % 4096 == 0 && used + size < capacity <= used + size + 4096
      ensures storage[..used] == old(storage[..used])
    {
      var request := used + size;
      capacity := (request + PAGE) / PAGE * PAGE;
      assert request < capacity <= request + PAGE;
      var bigger := new U8[capacity];
      forall k | 0 <= k < storage.Length {
        bigger[k] := storage[k];
      }
      forall k | used <= k < bigger.Length {
        bigger[k] := 0;
      }
      storage := bigger;
    }

    /** Writes the bytes of the fields and passes over the gaps. */
    method WriteBody(rec: Record, size: nat)
      requires Valid() && used + size <= capacity && size == SizeOf(rec)
      modifies storage
      ensures forall i :: 0 <= i < used ==> storage[i] == old(storage[i])
      ensures forall i :: HEADER_SIZE <= i < size ==> storage[used + i] == ByteAt(rec, i)
      ensures forall i :: used + size <= i < storage.Length ==> storage[i] == 0
    {
      var k := 0;
      while k < |rec.body|
        invariant 0 <= k <= |rec.body|
        invariant forall i :: 0 <= i < used ==> storage[i] == old(storage[i])
        invariant forall i :: HEADER_SIZE <= i < HEADER_SIZE + k ==> storage[used + i] == ByteAt(rec, i)
        invariant forall i :: used + HEADER_SIZE + k <= i < storage.Length ==> storage[i] == 0
      {
        if rec.body[k].Some? {
          storage[used + HEADER_SIZE + k] := rec.body[k].value;
        }
        k := k + 1;
      }
    }

    /** Constructs a record in place: the bytes of its fields, then its header. */
    method Construct(rec: Record, size: nat)
      requires Valid() && used + size <= capacity && size == SizeOf(rec)
      modifies storage
      ensures storage[..used] == old(storage[..used])
      ensures storage[used..used + size] == BytesOf(rec)
      ensures forall k :: used + size <= k < storage.Length ==> storage[k] == 0
    {
      WriteBody(rec, size);
      var header := Header(rec.kind, size);
      storage[used], storage[used + 1], storage[used + 2], storage[used + 3] :=
        header[0], header[1], header[2], header[3];
      assert forall i :: 0 <= i < size ==> storage[used + i] == ByteAt(rec, i);
    }

    /** Appends a record behind the others, wherever the storage then is. */
    method Push(rec: Record)
      requires Valid() && Fits(rec)
      modifies this, storage
      ensures Valid() && ops == old(ops) + [BytesOf(rec)]
      ensures used == old(used) + SizeOf(rec)
      ensures storage[..old(used)] == old(storage[..used])
      ensures if old(used + SizeOf(rec) <= capacity)
              then storage == old(storage) && capacity == old(capacity)
              else fresh(storage) && used < capacity <= used + PAGE
    {
      BytesOfIsFramed(rec);
      ConcatSnoc(ops, BytesOf(rec));
      var size := AlignPtr(HEADER_SIZE + |rec.body|);
      if used + size > capacity {
        Grow(size);
      }
      Construct(rec, size);
      assert storage[..used + size] == storage[..used] + storage[used..used + size];
      used := used + size;
      ops := ops + [BytesOf(rec)];
    }

    /** Overwrites a byte behind the header of a record, at the offset where the record was
        pushed. Only that record changes, and none moves. */
    method PatchByte(offset: nat, pos: nat, value: U8, ghost k: nat)
      requires Valid() && k < |ops| && offset == |Concat(ops[..k])| && HEADER_SIZE <= pos < |ops[k]|
      modifies this`ops, storage
      ensures Valid() && ops == old(ops)[k := WithByte(old(ops)[k], pos, value)]
    {
      ConcatPatch(ops, k, pos, value);
      PatchKeepsFraming(ops[k], pos, value);
      ghost var before := storage[..used];
      storage[offset + pos] := value;
      assert storage[..used] == before[offset + pos := value];
      ops := ops[k := WithByte(ops[k], pos, value)];
    }

    /** Hands over storage of exactly the used size and starts again from nothing. */
    method Release() returns (bytes: array<U8>, count: nat)
      requires Valid()
      modifies this
      ensures Stores(bytes, count, old(ops)) && bytes.Length == count == old(used)
      ensures Valid() && ops == []
    {
      count := used;
      bytes := new U8[count];
      forall k | 0 <= k < count {
        bytes[k] := storage[k];
      }
      assert bytes[..count] == storage[..used];
      storage, used, capacity, ops := new U8[0], 0, 0, [];
    }
  }

  // ----- Walking a buffer -----

  /** A buffer holds these records and nothing else. */
  ghost predicate Stores(storage: array<U8>, count: nat, ops: seq<Bytes>)
    reads storage
  {
    count <= storage.Length && AllFramed(ops) && storage[..count] == Concat(ops)
  }

  /** The record at a pointer, as far as its own header says. */
  method ReadOp(storage: array<U8>, count: nat, ptr: nat, ghost ops: seq<Bytes>, ghost k: nat) returns (op: Bytes)
    requires Stores(storage, count, ops) && k < |ops| && ptr == |Concat(ops[..k])|
    ensures op == ops[k] && Framed(op)
    ensures ptr + |op| == |Concat(ops[..k + 1])| <= count
    ensures k + 1 == |ops| <==> ptr + |op| == count
  {
    AtTheEnd(ops, k + 1);
    ReadsRecord(ops, k);
    var bytes := storage[..count];
    var size := SizeField(bytes[ptr..ptr + HEADER_SIZE]);
    op := bytes[ptr..ptr + size];
  }

  /** Dispatch and DisposeOps: from record to record, as each record's size says. */
  method VisitOps(storage: array<U8>, count: nat, ghost ops: seq<Bytes>) returns (visited: seq<Bytes>)
    requires Stores(storage, count, ops)
    ensures visited == ops
  {
    visited := [];
    var ptr := 0;
    AtTheEnd(ops, 0);
    while ptr < count
      invariant |visited| <= |ops| && visited == ops[..|visited|]
      invariant ptr == |Concat(ops[..|visited|])| <= count
      invariant |visited| == |ops| <==> ptr == count
      decreases count - ptr
    {
      var op := ReadOp(storage, count, ptr, ops, |visited|);
      ptr := ptr + |op|;
      if op[0] >= OP_TYPES {
        return;
      }
      visited := visited + [op];
    }
  }
}
