// The recorded stream in the byte buffer: each record is pushed where it is emitted, and the
// can-distribute bit is set by overwriting one byte of a record that is already there.
module RecordStorage {
  import opened Basics
  import opened DisplayListOps
  import opened RecordTree
  import opened Recorder
  import R = Recorder
  import opened OpacityBits
  import opened Emission
  import opened OpBuffer

  /** How records are laid out in bytes: the struct of each, where in a saveLayer record the
      byte of the option flags is, and that byte with the can-distribute bit set. */
  datatype Encoding = Encoding(record: Op -> Record, flagsAt: nat, flagsSet: LayerInfo -> U8)

  predicate OneByteApart(rec: Record, rec': Record, pos: nat, value: U8) {
    pos < |rec.body| && rec' == rec.(body := rec.body[pos := Some(value)])
  }

  /** Records fit the header's fields and have the sizes of the layout, and the
      can-distribute bit is in the byte of the option flags. */
  ghost predicate Encodes(enc: Encoding, layout: Layout) {
    && (forall op :: Fits(enc.record(op)) && layout.sizeOf(op) == SizeOf(enc.record(op)))
    && (forall layer :: OneByteApart(enc.record(LayerOp(layer, false)), enc.record(LayerOp(layer, true)),
                                     enc.flagsAt, enc.flagsSet(layer)))
  }

  function Encoded(ops: seq<Op>, enc: Encoding): seq<Bytes> {
    seq(|ops|, i requires 0 <= i < |ops| => BytesOf(enc.record(ops[i])))
  }

  lemma EncodedSnoc(ops: seq<Op>, op: Op, enc: Encoding)
    ensures Encoded(ops + [op], enc) == Encoded(ops, enc) + [BytesOf(enc.record(op))]
  {
  }

  lemma EncodedPrefix(ops: seq<Op>, k: nat, enc: Encoding)
    requires k <= |ops|
    ensures Encoded(ops, enc)[..k] == Encoded(ops[..k], enc)
  {
  }

  /** A record's offset is the number of bytes before it. */
  lemma {:induction false} EncodedBytes(ops: seq<Op>, enc: Encoding, layout: Layout)
    requires Encodes(enc, layout)
    ensures |Concat(Encoded(ops, enc))| == R.Bytes(ops, layout)
  {
    if ops == [] {
    } else {
      EncodedBytes(Init(ops), enc, layout);
      assert ops == Init(ops) + [Last(ops)];
      EncodedSnoc(Init(ops), Last(ops), enc);
      ConcatSnoc(Encoded(Init(ops), enc), BytesOf(enc.record(Last(ops))));
    }
  }

  /** Overwriting the byte gives the record that would have been built with it. */
  lemma ByteOfRecord(rec: Record, rec': Record, pos: nat, value: U8)
    requires OneByteApart(rec, rec', pos, value)
    ensures HEADER_SIZE + pos < SizeOf(rec)
    ensures WithByte(BytesOf(rec), HEADER_SIZE + pos, value) == BytesOf(rec')
  {
  }

  lemma EncodedPatch(ops: seq<Op>, k: nat, layer: LayerInfo, enc: Encoding, layout: Layout)
    requires Encodes(enc, layout) && k < |ops| && ops[k] == LayerOp(layer, false)
    ensures HEADER_SIZE + enc.flagsAt < |Encoded(ops, enc)[k]|
    ensures Encoded(ops[k := LayerOp(layer, true)], enc)
         == Encoded(ops, enc)[k := WithByte(Encoded(ops, enc)[k], HEADER_SIZE + enc.flagsAt, enc.flagsSet(layer))]
  {
    ByteOfRecord(enc.record(LayerOp(layer, false)), enc.record(LayerOp(layer, true)), enc.flagsAt, enc.flagsSet(layer));
  }

  /** The buffer holds the bytes of these records. */
  ghost predicate Holds(buffer: OpBuffer, ops: seq<Op>, enc: Encoding)
    reads buffer, buffer.storage
  {
    buffer.Valid() && buffer.ops == Encoded(ops, enc)
  }

  method PushAll(buffer: OpBuffer, emitted: seq<Op>, enc: Encoding, ghost layout: Layout, ghost ops: seq<Op>)
    requires Encodes(enc, layout) && Holds(buffer, ops, enc)
    modifies buffer, buffer.storage
    ensures Holds(buffer, ops + emitted, enc)
    ensures buffer.storage == old(buffer.storage) || fresh(buffer.storage)
  {
    assert ops + emitted[..0] == ops;
    for i := 0 to |emitted|
      invariant Holds(buffer, ops + emitted[..i], enc)
      invariant buffer.storage == old(buffer.storage) || fresh(buffer.storage)
    {
      EncodedSnoc(ops + emitted[..i], emitted[i], enc);
      assert ops + emitted[..i + 1] == ops + emitted[..i] + [emitted[i]];
      buffer.Push(enc.record(emitted[i]));
    }
    assert emitted[..|emitted|] == emitted;
  }

  /** Sets the bit in the bytes of a saveLayer record, at the offset it was pushed at. */
  method PatchFlags(buffer: OpBuffer, offset: nat, layer: LayerInfo, enc: Encoding,
                    ghost layout: Layout, ghost ops: seq<Op>, ghost k: nat)
    requires Encodes(enc, layout) && Holds(buffer, ops, enc)
    requires k < |ops| && ops[k] == LayerOp(layer, false) && offset == R.Bytes(ops[..k], layout)
    modifies buffer`ops, buffer.storage
    ensures Holds(buffer, ops[k := LayerOp(layer, true)], enc)
  {
    EncodedPatch(ops, k, layer, enc, layout);
    EncodedPrefix(ops, k, enc);
    EncodedBytes(ops[..k], enc, layout);
    buffer.PatchByte(offset, HEADER_SIZE + enc.flagsAt, enc.flagsSet(layer), k);
  }

  lemma PatchPlace(r: Recorder, op: Op, layout: Layout)
    requires Shaped(r.levels) && Patches(r, op)
    ensures var ops, k := Stream(r.levels) + Emitted(r, op), |Stream(r.levels.below)|;
            && k < |ops| && ops[k] == LayerOp(r.levels.top.kind.layer, false)
            && ops[..k] == Stream(r.levels.below)
            && Stream(Step(r, op, layout).levels) == ops[k := LayerOp(r.levels.top.kind.layer, true)]
  {
    StreamStep(r, op, layout);
  }

  /** One call: its records are pushed, and if it ends a distributable layer, that layer's
      record is patched. The bytes are those of the stream of the next state. */
  method StoreCall(buffer: OpBuffer, r: Recorder, op: Op, enc: Encoding, layout: Layout)
    requires Encodes(enc, layout) && Shaped(r.levels) && Holds(buffer, Stream(r.levels), enc)
    modifies buffer, buffer.storage
    ensures Holds(buffer, Stream(Step(r, op, layout).levels), enc)
    ensures buffer.storage == old(buffer.storage) || fresh(buffer.storage)
  {
    PushAll(buffer, Emitted(r, op), enc, layout, Stream(r.levels));
    StreamStep(r, op, layout);
    if Patches(r, op) {
      PatchPlace(r, op, layout);
      PatchFlags(buffer, R.Bytes(Stream(r.levels.below), layout), r.levels.top.kind.layer, enc, layout,
                 Stream(r.levels) + Emitted(r, op), |Stream(r.levels.below)|);
    }
  }

  lemma NextCall(calls: seq<Op>, i: nat, layout: Layout)
    requires i < |calls|
    ensures Shaped(R.Record(calls[..i], START, layout).levels)
    ensures R.Record(calls[..i + 1], START, layout) == Step(R.Record(calls[..i], START, layout), calls[i], layout)
  {
    RecordOk(calls[..i], layout);
    assert Init(calls[..i + 1]) == calls[..i];
  }

  method StoreCalls(buffer: OpBuffer, calls: seq<Op>, enc: Encoding, layout: Layout)
    requires Encodes(enc, layout) && Holds(buffer, [], enc)
    modifies buffer, buffer.storage
    ensures Holds(buffer, Stream(R.Record(calls, START, layout).levels), enc)
    ensures buffer.storage == old(buffer.storage) || fresh(buffer.storage)
  {
    assert Stream(START.levels) == [];
    for i := 0 to |calls|
      invariant Holds(buffer, Stream(R.Record(calls[..i], START, layout).levels), enc)
      invariant buffer.storage == old(buffer.storage) || fresh(buffer.storage)
    {
      NextCall(calls, i, layout);
      StoreCall(buffer, R.Record(calls[..i], START, layout), calls[i], enc, layout);
    }
    assert calls[..|calls|] == calls;
  }

  /** The storage of a built list holds the bytes of its records, bits and all, and nothing
      else. */
  method StoreList(calls: seq<Op>, enc: Encoding, layout: Layout) returns (storage: array<U8>, count: nat)
    requires Encodes(enc, layout)
    ensures Stores(storage, count, Encoded(Build(calls, layout).ops, enc))
    ensures count == storage.Length == Build(calls, layout).byteCount
  {
    var buffer := new OpBuffer();
    StoreCalls(buffer, Closed(calls, layout), enc, layout);
    EncodedBytes(Build(calls, layout).ops, enc, layout);
    storage, count := buffer.Release();
  }
}
