// Comparing two buffers: records that have an equals method of their own are compared by
// it, and the runs of bytes between them in bulk.
module CompareOps {
  import opened Basics
  import opened OpBuffer

  datatype Verdict = UseBulkCompare | NotEqual | Equal

  /** What equals() answers for two records of the same type. */
  type Equals = (Bytes, Bytes) -> Verdict

  predicate SameHeader(a: Bytes, b: Bytes) {
    a != [] && b != [] && a[0] == b[0] && |a| == |b|
  }

  /** Two records compared on their own. */
  predicate SameRecord(a: Bytes, b: Bytes, equals: Equals) {
    SameHeader(a, b) &&
    match equals(a, b)
    case NotEqual => false
    case Equal => true
    case UseBulkCompare => a == b
  }

  /** Two lists of records compared one by one. */
  predicate SameRecords(xs: seq<Bytes>, ys: seq<Bytes>, equals: Equals) {
    |xs| == |ys| && forall k :: 0 <= k < |xs| ==> SameRecord(xs[k], ys[k], equals)
  }

  // ----- Stretches that have been passed -----

  /** Records of equal sizes, so that both pointers advance alike. */
  predicate Abreast(xs: seq<Bytes>, ys: seq<Bytes>) {
    |xs| == |ys| && forall k :: 0 <= k < |xs| ==> SameHeader(xs[k], ys[k])
  }

  /** A stretch that has not been compared yet: every record in it asked for bulk compare. */
  predicate Backlog(xs: seq<Bytes>, ys: seq<Bytes>, equals: Equals) {
    Abreast(xs, ys) && forall k :: 0 <= k < |xs| ==> equals(xs[k], ys[k]) == UseBulkCompare
  }

  lemma {:induction false} AbreastSizes(xs: seq<Bytes>, ys: seq<Bytes>)
    requires Abreast(xs, ys)
    ensures |Concat(xs)| == |Concat(ys)|
  {
    if xs == [] {
    } else {
      AbreastSizes(Init(xs), Init(ys));
    }
  }

  lemma SplitEqual<T>(a: seq<T>, b: seq<T>, c: seq<T>, d: seq<T>)
    requires |a| == |b| && |c| == |d|
    ensures a + c == b + d <==> a == b && c == d
  {
    if a + c == b + d {
      assert a == (a + c)[..|a|] && b == (b + d)[..|b|];
      assert c == (a + c)[|a|..] && d == (b + d)[|b|..];
    }
  }

  lemma SnocSame(xs: seq<Bytes>, ys: seq<Bytes>, a: Bytes, b: Bytes, equals: Equals)
    requires |xs| == |ys|
    ensures SameRecords(xs + [a], ys + [b], equals) <==> SameRecords(xs, ys, equals) && SameRecord(a, b, equals)
  {
    var xs', ys' := xs + [a], ys + [b];
    assert xs'[|xs|] == a && ys'[|xs|] == b;
    assert forall k :: 0 <= k < |xs| ==> xs'[k] == xs[k] && ys'[k] == ys[k];
  }

  /** One memcmp over a backlog decides all its records. */
  lemma {:induction false} BulkIsRecordwise(xs: seq<Bytes>, ys: seq<Bytes>, equals: Equals)
    requires Backlog(xs, ys, equals)
    ensures Concat(xs) == Concat(ys) <==> SameRecords(xs, ys, equals)
  {
    if xs == [] {
    } else {
      BulkIsRecordwise(Init(xs), Init(ys), equals);
      AbreastSizes(Init(xs), Init(ys));
      SplitEqual(Concat(Init(xs)), Concat(Init(ys)), Last(xs), Last(ys));
      SnocSame(Init(xs), Init(ys), Last(xs), Last(ys), equals);
      assert xs == Init(xs) + [Last(xs)] && ys == Init(ys) + [Last(ys)];
    }
  }

  /** The first i records have been found equal, and those from i to k are a backlog. */
  predicate Passed(xs: seq<Bytes>, ys: seq<Bytes>, i: nat, k: nat, equals: Equals) {
    && i <= k <= |xs| && k <= |ys|
    && (forall n :: 0 <= n < k ==> SameHeader(xs[n], ys[n]))
    && (forall n :: 0 <= n < i ==> SameRecord(xs[n], ys[n], equals))
    && (forall n :: i <= n < k ==> equals(xs[n], ys[n]) == UseBulkCompare)
  }

  lemma PassedIsBacklog(xs: seq<Bytes>, ys: seq<Bytes>, i: nat, k: nat, equals: Equals)
    requires Passed(xs, ys, i, k, equals)
    ensures Abreast(xs[..i], ys[..i]) && Abreast(xs[..k], ys[..k]) && Backlog(xs[i..k], ys[i..k], equals)
  {
  }

  /** A record that asks for bulk compare joins the backlog. */
  lemma JoinsBacklog(xs: seq<Bytes>, ys: seq<Bytes>, i: nat, k: nat, equals: Equals)
    requires Passed(xs, ys, i, k, equals) && k < |xs| && k < |ys|
    requires SameHeader(xs[k], ys[k]) && equals(xs[k], ys[k]) == UseBulkCompare
    ensures Passed(xs, ys, i, k + 1, equals)
  {
  }

  /** A record found equal ends the backlog, once that has been compared. */
  lemma EndsBacklog(xs: seq<Bytes>, ys: seq<Bytes>, i: nat, k: nat, equals: Equals)
    requires Passed(xs, ys, i, k, equals) && k < |xs| && k < |ys|
    requires SameRecords(xs[i..k], ys[i..k], equals) && SameRecord(xs[k], ys[k], equals)
    ensures Passed(xs, ys, k + 1, k + 1, equals)
  {
    forall n | 0 <= n < k + 1
      ensures SameRecord(xs[n], ys[n], equals)
    {
      if i <= n < k {
        assert xs[n] == xs[i..k][n - i] && ys[n] == ys[i..k][n - i];
      }
    }
  }

  /** A difference in the backlog is a difference between the lists. */
  lemma BacklogDecides(xs: seq<Bytes>, ys: seq<Bytes>, i: nat, k: nat, equals: Equals)
    requires Passed(xs, ys, i, k, equals)
    ensures !SameRecords(xs[i..k], ys[i..k], equals) ==> !SameRecords(xs, ys, equals)
    ensures SameRecords(xs[i..k], ys[i..k], equals) && k == |xs| == |ys| ==> SameRecords(xs, ys, equals)
  {
    assert forall n :: 0 <= n < k - i ==> xs[i..k][n] == xs[i + n] && ys[i..k][n] == ys[i + n];
    forall n | i <= n < k
      ensures xs[n] == xs[i..k][n - i] && ys[n] == ys[i..k][n - i]
    {
    }
  }

  lemma RecordDiffers(xs: seq<Bytes>, ys: seq<Bytes>, k: nat, equals: Equals)
    requires k < |xs| && k < |ys| && !SameRecord(xs[k], ys[k], equals)
    ensures !SameRecords(xs, ys, equals)
  {
  }

  // ----- The comparison -----

  /** The bytes of the records from i to k. */
  method ReadWindow(storage: array<U8>, count: nat, start: nat, end: nat, ghost ops: seq<Bytes>, ghost i: nat, ghost k: nat)
    returns (bytes: Bytes)
    requires Stores(storage, count, ops) && i <= k <= |ops|
    requires start == |Concat(ops[..i])| && end == |Concat(ops[..k])|
    ensures bytes == Concat(ops[i..k]) && |bytes| == end - start
  {
    Slices(ops, i, k);
    bytes := storage[start..end];
    assert bytes == storage[..count][start..end];
  }

  /** memcmp over the records from i to k. */
  method CompareBacklog(a: array<U8>, countA: nat, b: array<U8>, countB: nat, start: nat, end: nat,
                        ghost xs: seq<Bytes>, ghost ys: seq<Bytes>, ghost i: nat, ghost k: nat, ghost equals: Equals)
    returns (same: bool)
    requires Stores(a, countA, xs) && Stores(b, countB, ys)
    requires Passed(xs, ys, i, k, equals) && start == |Concat(xs[..i])| && end == |Concat(xs[..k])|
    ensures same <==> SameRecords(xs[i..k], ys[i..k], equals)
    ensures !same ==> !SameRecords(xs, ys, equals)
    ensures same && k == |xs| == |ys| ==> SameRecords(xs, ys, equals)
  {
    PassedIsBacklog(xs, ys, i, k, equals);
    AbreastSizes(xs[..i], ys[..i]);
    AbreastSizes(xs[..k], ys[..k]);
    BulkIsRecordwise(xs[i..k], ys[i..k], equals);
    BacklogDecides(xs, ys, i, k, equals);
    var bytesA := ReadWindow(a, countA, start, end, xs, i, k);
    var bytesB := ReadWindow(b, countB, start, end, ys, i, k);
    same := |bytesA| == 0 || bytesA == bytesB;
  }

  /** The buffers are the same exactly when they hold the same number of records and each
      pair has the same type and size and either calls itself equal, or leaves the matter to
      a bulk comparison and has equal bytes. */
  method Compare(a: array<U8>, countA: nat, b: array<U8>, countB: nat,
                 ghost xs: seq<Bytes>, ghost ys: seq<Bytes>, equals: Equals) returns (same: bool)
    requires Stores(a, countA, xs) && Stores(b, countB, ys)
    ensures same <==> SameRecords(xs, ys, equals)
  {
    var ptrA, ptrB, bulkStart := 0, 0, 0;
    ghost var i, k := 0, 0;
    AtTheEnd(xs, 0);
    AtTheEnd(ys, 0);
    while ptrA < countA && ptrB < countB
      invariant Passed(xs, ys, i, k, equals)
      invariant ptrA == |Concat(xs[..k])| <= countA && ptrB == |Concat(ys[..k])| <= countB
      invariant ptrA == countA <==> k == |xs|
      invariant ptrB == countB <==> k == |ys|
      invariant bulkStart == |Concat(xs[..i])|
      decreases countA - ptrA
    {
      var opA := ReadOp(a, countA, ptrA, xs, k);
      var opB := ReadOp(b, countB, ptrB, ys, k);
      if opA[0] != opB[0] || |opA| != |opB| {
        RecordDiffers(xs, ys, k, equals);
        return false;
      }
      match equals(opA, opB) {
        case NotEqual =>
          RecordDiffers(xs, ys, k, equals);
          return false;
        case UseBulkCompare =>
          JoinsBacklog(xs, ys, i, k, equals);
        case Equal =>
          var upToHere := CompareBacklog(a, countA, b, countB, bulkStart, ptrA, xs, ys, i, k, equals);
          if !upToHere {
            return false;
          }
          EndsBacklog(xs, ys, i, k, equals);
          bulkStart := ptrA + |opA|;
          i := k + 1;
      }
      ptrA := ptrA + |opA|;
      ptrB := ptrB + |opB|;
      k := k + 1;
    }
    if ptrA != countA || ptrB != countB {
      return false;
    }
    same := CompareBacklog(a, countA, b, countB, bulkStart, ptrA, xs, ys, i, k, equals);
  }

  // ----- Equality of lists -----

  /** The parts of a DisplayList that Equals() looks at. */
  datatype StoredList = StoredList(storage: array<U8>, byteCount: nat, opCount: U32)

  /** A record is not different from itself. */
  ghost predicate Reflexive(equals: Equals) {
    forall op :: equals(op, op) != NotEqual
  }

  /** Lists of different lengths in bytes differ, and a list is the same as itself: the
      shortcuts agree with the comparison. */
  lemma ShortcutsAgree(xs: seq<Bytes>, ys: seq<Bytes>, equals: Equals)
    requires AllFramed(xs) && AllFramed(ys) && Reflexive(equals)
    ensures SameRecords(xs, ys, equals) ==> |Concat(xs)| == |Concat(ys)|
    ensures Concat(xs) == Concat(ys) ==> SameRecords(xs, ys, equals)
  {
    if SameRecords(xs, ys, equals) {
      assert Abreast(xs, ys);
      AbreastSizes(xs, ys);
    }
    if Concat(xs) == Concat(ys) {
      FramingIsUnique(xs, ys);
    }
  }

  method ListsAreEqual(a: StoredList, b: StoredList, ghost xs: seq<Bytes>, ghost ys: seq<Bytes>, equals: Equals)
    returns (same: bool)
    requires Stores(a.storage, a.byteCount, xs) && Stores(b.storage, b.byteCount, ys) && Reflexive(equals)
    ensures same <==> a.opCount == b.opCount && SameRecords(xs, ys, equals)
  {
    ShortcutsAgree(xs, ys, equals);
    if a == b {
      return true;
    }
    if a.byteCount != b.byteCount || a.opCount != b.opCount {
      return false;
    }
    if a.storage == b.storage {
      return true;
    }
    same := Compare(a.storage, a.byteCount, b.storage, b.byteCount, xs, ys, equals);
  }
}
