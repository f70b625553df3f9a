/** Batches laid end to end in a log file, and the sparse index over them: where each batch
    starts, what a scan of the file finds, and what a fetch should return. */
module Layout {
  import opened Bytes
  import opened Options
  import opened Records
  import opened RecordBatches

  // ---- running totals ------------------------------------------------------

  /** Records in the first n batches. */
  function Count(bs: seq<RecordBatch>, n: nat): nat
    requires n <= |bs|
  {
    if n == 0 then 0 else Count(bs, n - 1) + bs[n - 1].recordsCount
  }

  /** Byte position of batch n. */
  function Position(bs: seq<RecordBatch>, n: nat): nat
    requires n <= |bs|
  {
    if n == 0 then 0 else Position(bs, n - 1) + DiskSize(bs[n - 1])
  }

  /** No batch is empty and every length field is right. */
  ghost predicate AllSound(bs: seq<RecordBatch>) {
    forall i :: 0 <= i < |bs| ==> bs[i].recordsCount >= 1 && LengthMatches(bs[i])
  }

  /** Sound batches whose base offsets follow on from `base`. */
  ghost predicate Chained(bs: seq<RecordBatch>, base: nat) {
    AllSound(bs) && forall i :: 0 <= i < |bs| ==> bs[i].baseOffset == base + Count(bs, i)
  }

  lemma OneMore(bs: seq<RecordBatch>, n: nat)
    requires n < |bs|
    ensures Count(bs, n + 1) == Count(bs, n) + bs[n].recordsCount
    ensures Position(bs, n + 1) == Position(bs, n) + DiskSize(bs[n])
  {
  }

  /** The file holds the batches end to end from position zero, and perhaps more after them. */
  ghost predicate Stored(log: seq<byte>, bs: seq<RecordBatch>) {
    forall i :: 0 <= i < |bs| ==> HoldsAt(log, Position(bs, i), bs[i])
  }

  lemma {:induction false} TotalsIncrease(bs: seq<RecordBatch>, i: nat, j: nat)
    requires AllSound(bs) && i <= j <= |bs|
    ensures Count(bs, i) + (j - i) <= Count(bs, j) && Position(bs, i) + 61 * (j - i) <= Position(bs, j)
    decreases j
  {
    hide Count, Position;
    if i < j {
      TotalsIncrease(bs, i, j - 1);
      OneMore(bs, j - 1);
    }
  }

  lemma {:induction false} TotalsOfExtension(bs: seq<RecordBatch>, more: seq<RecordBatch>, n: nat)
    requires n <= |bs|
    ensures Count(bs + more, n) == Count(bs, n) && Position(bs + more, n) == Position(bs, n)
    decreases n
  {
    if n > 0 { TotalsOfExtension(bs, more, n - 1); }
  }

  /** What has been stored stays stored when the file grows. */
  lemma StoredStays(log: seq<byte>, more: seq<byte>, bs: seq<RecordBatch>)
    requires Stored(log, bs)
    ensures Stored(log + more, bs)
  {
    forall i | 0 <= i < |bs| ensures HoldsAt(log + more, Position(bs, i), bs[i]) {
      assert HoldsAt(log, Position(bs, i), bs[i]);
      HeldStays(log, more, Position(bs, i), bs[i]);
    }
  }

  lemma HeldStays(log: seq<byte>, more: seq<byte>, pos: nat, b: RecordBatch)
    requires HoldsAt(log, pos, b)
    ensures HoldsAt(log + more, pos, b)
  {
    hide EncodeBatch;
    assert (log + more)[pos..pos + |EncodeBatch(b)|] == log[pos..pos + |EncodeBatch(b)|];
  }

  /** Appending the encoding of the next batch extends what is stored by it. */
  lemma StoredGrows(log: seq<byte>, bs: seq<RecordBatch>, base: nat, b: RecordBatch)
    requires Chained(bs, base) && Stored(log, bs) && |log| == Position(bs, |bs|)
    requires b.baseOffset == base + Count(bs, |bs|) && b.recordsCount >= 1 && LengthMatches(b)
    ensures Chained(bs + [b], base) && Stored(log + EncodeBatch(b), bs + [b])
    ensures |log + EncodeBatch(b)| == Position(bs + [b], |bs| + 1)
    ensures Count(bs + [b], |bs| + 1) == Count(bs, |bs|) + b.recordsCount
  {
    hide EncodeBatch, Count, Position, HoldsAt;
    var all := bs + [b];
    forall n | 0 <= n <= |bs| ensures Count(all, n) == Count(bs, n) && Position(all, n) == Position(bs, n) {
      TotalsOfExtension(bs, [b], n);
    }
    OneMore(all, |bs|);
    StoredStays(log, EncodeBatch(b), bs);
    JustAppended(log, b);
    forall i | 0 <= i < |all| ensures HoldsAt(log + EncodeBatch(b), Position(all, i), all[i]) {
      if i < |bs| {
        assert HoldsAt(log + EncodeBatch(b), Position(bs, i), bs[i]);
      }
    }
  }

  lemma JustAppended(log: seq<byte>, b: RecordBatch)
    ensures HoldsAt(log + EncodeBatch(b), |log|, b)
  {
    hide EncodeBatch;
    assert (log + EncodeBatch(b))[|log|..|log| + |EncodeBatch(b)|] == EncodeBatch(b);
  }

  // ---- the batch an offset falls in ----------------------------------------

  /** From batch i on, the first batch that ends beyond `target`, or the number of batches. */
  function BatchFrom(bs: seq<RecordBatch>, base: nat, i: nat, target: nat): (j: nat)
    requires i <= |bs|
    ensures i <= j <= |bs|
    ensures j < |bs| ==> target < base + Count(bs, j + 1)
    ensures forall k :: i < k <= j ==> base + Count(bs, k) <= target
    decreases |bs| - i
  {
    if i == |bs| || base + Count(bs, i + 1) > target then i else BatchFrom(bs, base, i + 1, target)
  }

  function End(bs: seq<RecordBatch>, base: nat): nat { base + Count(bs, |bs|) }

  /** Inside the log, the batch found contains the target; at or beyond the end, none. */
  lemma BatchContains(bs: seq<RecordBatch>, base: nat, target: nat)
    requires Chained(bs, base)
    ensures var j := BatchFrom(bs, base, 0, target);
            && (base <= target || bs != [] ==> (j < |bs| <==> target < End(bs, base)))
            && (j < |bs| && base <= target ==> bs[j].baseOffset <= target < bs[j].baseOffset + bs[j].recordsCount)
  {
    hide Count, BatchFrom;
    var j := BatchFrom(bs, base, 0, target);
    if j < |bs| {
      TotalsIncrease(bs, j + 1, |bs|);
      OneMore(bs, j);
      if j == 0 { NoneBefore(bs); }
    }
    if j == 0 && bs == [] { NoneBefore(bs); }
  }

  lemma NoneBefore(bs: seq<RecordBatch>)
    ensures Count(bs, 0) == 0 && Position(bs, 0) == 0
  {
  }

  /** Starting the search at any batch that begins at or before the target changes nothing. */
  lemma {:induction false} SkippingAhead(bs: seq<RecordBatch>, base: nat, i: nat, j: nat, target: nat)
    requires Chained(bs, base) && i <= j <= |bs| && base + Count(bs, j) <= target
    ensures BatchFrom(bs, base, i, target) == BatchFrom(bs, base, j, target)
    decreases j - i
  {
    hide Count;
    if i < j {
      TotalsIncrease(bs, i + 1, j);
      SkippingAhead(bs, base, i + 1, j, target);
    }
  }

  // ---- the scan ------------------------------------------------------------

  /** What walking the file batch by batch from batch i finds: the position to read from, or
      None for an offset beyond the end. */
  function Scan(bs: seq<RecordBatch>, base: nat, i: nat, target: nat): Option<nat>
    requires i <= |bs|
    decreases |bs| - i
  {
    if base + Count(bs, i) >= target then Some(Position(bs, i))
    else if i == |bs| then None
    else if base + Count(bs, i) + bs[i].recordsCount > target then Some(Position(bs, i))
    else Scan(bs, base, i + 1, target)
  }

  /** The scan stops at the batch that contains the target, at the end position exactly at the
      end offset, and fails exactly beyond it. */
  lemma {:induction false} ScanFindsBatch(bs: seq<RecordBatch>, base: nat, i: nat, target: nat)
    requires Chained(bs, base) && i <= |bs|
    ensures Scan(bs, base, i, target) ==
            if target <= End(bs, base) then Some(Position(bs, BatchFrom(bs, base, i, target))) else None
    decreases |bs| - i
  {
    hide Count, Position;
    TotalsIncrease(bs, i, |bs|);
    if i < |bs| {
      OneMore(bs, i);
      TotalsIncrease(bs, i + 1, |bs|);
      ScanFindsBatch(bs, base, i + 1, target);
    }
  }

  /** A scan from any batch at or before the target agrees with a scan from the beginning. */
  lemma ScanFromAnywhere(bs: seq<RecordBatch>, base: nat, i: nat, target: nat)
    requires Chained(bs, base) && i <= |bs| && (i == 0 || base + Count(bs, i) <= target)
    ensures Scan(bs, base, i, target) == Scan(bs, base, 0, target)
  {
    ScanFindsBatch(bs, base, i, target);
    ScanFindsBatch(bs, base, 0, target);
    if i > 0 { SkippingAhead(bs, base, 0, i, target); }
  }

  // ---- the index -----------------------------------------------------------

  const EntrySize := 16

  datatype IndexEntry = IndexEntry(offset: nat, pos: nat)

  function EntryAt(index: seq<byte>, k: nat): IndexEntry
    requires EntrySize * (k + 1) <= |index|
  {
    IndexEntry(AsU64(index[EntrySize * k..EntrySize * k + 8]), AsU64(index[EntrySize * k + 8..EntrySize * k + 16]))
  }

  /** The first `count` entries point at batches `marks[0] < marks[1] < …`. */
  ghost predicate Indexed(index: seq<byte>, count: nat, bs: seq<RecordBatch>, base: nat, marks: seq<nat>) {
    && |marks| == count && EntrySize * count <= |index|
    && (forall k :: 0 <= k < count ==> marks[k] < |bs|)
    && (forall k, l :: 0 <= k < l < count ==> marks[k] < marks[l])
    && (forall k :: 0 <= k < count ==> EntryAt(index, k) == IndexEntry(base + Count(bs, marks[k]), Position(bs, marks[k])))
  }

  lemma EntriesIncrease(index: seq<byte>, count: nat, bs: seq<RecordBatch>, base: nat, marks: seq<nat>, k: nat, l: nat)
    requires Chained(bs, base) && Indexed(index, count, bs, base, marks) && k <= l < count
    ensures EntryAt(index, k).offset <= EntryAt(index, l).offset
  {
    TotalsIncrease(bs, marks[k], marks[l]);
  }

  /** Entries already written keep their meaning when batches are added and later parts of the
      index are written. */
  lemma IndexedStays(index: seq<byte>, later: seq<byte>, count: nat, bs: seq<RecordBatch>, more: seq<RecordBatch>,
                     base: nat, marks: seq<nat>)
    requires Indexed(index, count, bs, base, marks)
    requires EntrySize * count <= |later| && later[..EntrySize * count] == index[..EntrySize * count]
    ensures Indexed(later, count, bs + more, base, marks)
  {
    forall k | 0 <= k < count
      ensures EntryAt(later, k) == IndexEntry(base + Count(bs + more, marks[k]), Position(bs + more, marks[k]))
    {
      TotalsOfExtension(bs, more, marks[k]);
      EntryFromPrefix(index, later, count, k);
    }
  }

  lemma EntryFromPrefix(index: seq<byte>, later: seq<byte>, count: nat, k: nat)
    requires k < count && EntrySize * count <= |index| && EntrySize * count <= |later|
    requires later[..EntrySize * count] == index[..EntrySize * count]
    ensures EntryAt(later, k) == EntryAt(index, k)
  {
    var n := EntrySize * count;
    SliceOfSlice(index, 0, n, EntrySize * k, EntrySize * k + 8);
    SliceOfSlice(later, 0, n, EntrySize * k, EntrySize * k + 8);
    SliceOfSlice(index, 0, n, EntrySize * k + 8, EntrySize * k + 16);
    SliceOfSlice(later, 0, n, EntrySize * k + 8, EntrySize * k + 16);
    assert index[..n] == index[0..n] && later[..n] == later[0..n];
  }

  // ---- what a fetch returns ------------------------------------------------

  /** Whole batches from i on, as long as the running sum of lengths stays within the limit. */
  function Following(bs: seq<RecordBatch>, i: nat, bytes: nat, maxBytes: nat): seq<RecordBatch>
    requires i <= |bs|
    decreases |bs| - i
  {
    if i == |bs| || bytes + bs[i].batchLength > maxBytes then []
    else [bs[i]] + Following(bs, i + 1, bytes + bs[i].batchLength, maxBytes)
  }

  /** The batch with the offset, sliced there, and as many whole batches after it as fit. */
  function FetchFrom(bs: seq<RecordBatch>, base: nat, offset: nat, maxBytes: nat): seq<RecordBatch>
    requires offset < 0x1_0000_0000_0000_0000
  {
    var j := BatchFrom(bs, base, 0, offset);
    if j == |bs| then []
    else
      match SliceFromOffset(bs[j], offset)
      case Sliced(first) => [first] + Following(bs, j + 1, first.batchLength, maxBytes)
      case _ => []
  }

  lemma FetchUnfolds(bs: seq<RecordBatch>, base: nat, offset: nat, maxBytes: nat)
    requires offset < 0x1_0000_0000_0000_0000
    ensures var j, result := BatchFrom(bs, base, 0, offset), FetchFrom(bs, base, offset, maxBytes);
            if j == |bs| || !SliceFromOffset(bs[j], offset).Sliced? then result == []
            else
              var first := SliceFromOffset(bs[j], offset).batch;
              result == [first] + Following(bs, j + 1, first.batchLength, maxBytes)
  {
    hide SliceFromOffset, BatchFrom, Following;
  }

  lemma FollowingUnfolds(bs: seq<RecordBatch>, i: nat, bytes: nat, maxBytes: nat)
    requires i <= |bs|
    ensures Following(bs, i, bytes, maxBytes) ==
            if i == |bs| || bytes + bs[i].batchLength > maxBytes then []
            else [bs[i]] + Following(bs, i + 1, bytes + bs[i].batchLength, maxBytes)
  {
  }

  function Lengths(bs: seq<RecordBatch>): nat {
    if bs == [] then 0 else bs[0].batchLength + Lengths(bs[1..])
  }

  lemma {:induction false} FollowingFits(bs: seq<RecordBatch>, i: nat, bytes: nat, maxBytes: nat)
    requires i <= |bs|
    ensures var f := Following(bs, i, bytes, maxBytes);
            && i + |f| <= |bs| && f == bs[i..i + |f|]
            && (f != [] ==> bytes + Lengths(f) <= maxBytes)
            && (i + |f| < |bs| ==> bytes + Lengths(f) + bs[i + |f|].batchLength > maxBytes)
    decreases |bs| - i
  {
    if i < |bs| && bytes + bs[i].batchLength <= maxBytes {
      FollowingFits(bs, i + 1, bytes + bs[i].batchLength, maxBytes);
      var rest := Following(bs, i + 1, bytes + bs[i].batchLength, maxBytes);
      assert ([bs[i]] + rest)[1..] == rest;
      assert bs[i..i + 1 + |rest|] == [bs[i]] + bs[i + 1..i + 1 + |rest|];
    }
  }

  // ---- records -------------------------------------------------------------

  function Flat<T>(parts: seq<seq<T>>): seq<T> {
    if parts == [] then [] else Flat(parts[..|parts| - 1]) + parts[|parts| - 1]
  }

  /** Batch i carries parts[i], numbered from zero. */
  ghost predicate CarriesAll(bs: seq<RecordBatch>, parts: seq<seq<Record>>) {
    && |parts| == |bs|
    && forall i :: 0 <= i < |bs| ==> Carries(bs[i], parts[i]) && Numbered(parts[i], 0)
  }

  lemma {:induction false} FlatLength(bs: seq<RecordBatch>, parts: seq<seq<Record>>, n: nat)
    requires CarriesAll(bs, parts) && n <= |bs|
    ensures |Flat(parts[..n])| == Count(bs, n)
    decreases n
  {
    hide Count, Carries, Numbered;
    if n > 0 {
      FlatLength(bs, parts, n - 1);
      assert parts[..n][..n - 1] == parts[..n - 1];
      OneMore(bs, n - 1);
      CarriedCount(bs[n - 1], parts[n - 1]);
    } else {
      NoneBefore(bs);
      assert Flat(parts[..0]) == [];
    }
  }

  lemma CarriedCount(b: RecordBatch, records: seq<Record>)
    requires Carries(b, records)
    ensures b.recordsCount == |records| >= 1
  {
  }

  lemma {:induction false} FlatConcat<T>(a: seq<seq<T>>, b: seq<seq<T>>)
    ensures Flat(a + b) == Flat(a) + Flat(b)
    decreases |b|
  {
    hide Flat;
    if b == [] {
      assert a + b == a;
      FlatNothing<T>();
    } else {
      var n := |b| - 1;
      assert (a + b)[..|a| + n] == a + b[..n];
      FlatConcat(a, b[..n]);
      FlatLast(b);
      FlatLast(a + b);
    }
  }

  lemma FlatNothing<T>()
    ensures Flat<T>([]) == []
  {
  }

  lemma FlatLast<T>(parts: seq<seq<T>>)
    requires parts != []
    ensures Flat(parts) == Flat(parts[..|parts| - 1]) + parts[|parts| - 1]
  {
  }

  lemma FlatOfOne<T>(part: seq<T>)
    ensures Flat([part]) == part
  {
    assert [part][..0] == [] && Flat<T>([]) == [];
  }

  /** Each batch starts where the one before it ends. */
  ghost predicate Contiguous(bs: seq<RecordBatch>) {
    forall i :: 0 <= i < |bs| - 1 ==> bs[i + 1].baseOffset == bs[i].baseOffset + bs[i].recordsCount
  }

  /** Decoding the batches one after the other gives `run`. */
  ghost predicate DecodesTo(bs: seq<RecordBatch>, run: seq<seq<Record>>) {
    && |run| == |bs|
    && forall i :: 0 <= i < |bs| ==> Carries(bs[i], run[i]) && Decoded(bs[i]) == Parsed(run[i], [])
  }

  /** The parts a fetch delivers: the rest of part j from record k, then parts j+1 up to m. */
  function RunOf<T>(parts: seq<seq<T>>, j: nat, k: nat, m: nat): seq<seq<T>>
    requires j < m <= |parts| && k <= |parts[j]|
  {
    [parts[j][k..]] + parts[j + 1..m]
  }

  lemma RunIsSlice<T>(parts: seq<seq<T>>, j: nat, k: nat, m: nat)
    requires j < m <= |parts| && k <= |parts[j]|
    ensures |Flat(parts[..j])| + k <= |Flat(parts[..m])| <= |Flat(parts)|
    ensures Flat(RunOf(parts, j, k, m)) == Flat(parts)[|Flat(parts[..j])| + k..|Flat(parts[..m])|]
  {
    hide Flat;
    var head, mid, tail := parts[..j], parts[j + 1..m], parts[m..];
    assert parts == head + ([parts[j]] + (mid + tail)) && parts[..m] == head + ([parts[j]] + mid);
    FlatConcat(head, [parts[j]] + (mid + tail));
    FlatConcat([parts[j]], mid + tail);
    FlatConcat(mid, tail);
    FlatConcat(head, [parts[j]] + mid);
    FlatConcat([parts[j]], mid);
    FlatConcat([parts[j][k..]], mid);
    FlatOfOne(parts[j]);
    FlatOfOne(parts[j][k..]);
    assert parts[j] == parts[j][..k] + parts[j][k..];
    SliceAround(Flat(head) + parts[j][..k], parts[j][k..] + Flat(mid), Flat(tail), Flat(parts));
  }

  lemma SliceAround<T>(a: seq<T>, b: seq<T>, c: seq<T>, all: seq<T>)
    requires all == a + (b + c) || all == (a + b) + c
    ensures |a| + |b| <= |all| && all[|a|..|a| + |b|] == b
  {
  }

  /** When the records of each batch were made. */
  function Dates(bs: seq<RecordBatch>, parts: seq<seq<Record>>): seq<seq<nat>>
    requires |parts| == |bs|
  {
    seq(|bs|, i requires 0 <= i < |bs| => Times(bs[i], parts[i]))
  }

  lemma {:induction false} SameLengths<A, B>(a: seq<seq<A>>, b: seq<seq<B>>)
    requires |a| == |b| && forall i :: 0 <= i < |a| ==> |a[i]| == |b[i]|
    ensures |Flat(a)| == |Flat(b)|
    decreases |a|
  {
    if a != [] { SameLengths(a[..|a| - 1], b[..|b| - 1]); }
  }

  /** The records of these batches were made when these, from `at` on, say. */
  ghost predicate DatesFrom(result: seq<RecordBatch>, run: seq<seq<Record>>, dates: seq<nat>, at: nat) {
    && |run| == |result| && at + |Flat(run)| <= |dates|
    && Flat(Dates(result, run)) == dates[at..at + |Flat(run)|]
  }

  /** The fetched batches are contiguous from `offset`, decode to `run`, which is exactly the
      records from there on, and keep within the byte limit unless there is only one. */
  ghost predicate Delivers(result: seq<RecordBatch>, run: seq<seq<Record>>, all: seq<Record>, base: nat, offset: nat,
                           maxBytes: nat) {
    && result != [] && result[0].baseOffset == offset && Contiguous(result) && DecodesTo(result, run)
    && |Flat(run)| >= 1 && base <= offset && offset - base + |Flat(run)| <= |all|
    && Flat(run) == all[offset - base..offset - base + |Flat(run)|]
    && (|result| == 1 || Lengths(result) <= maxBytes)
  }

  /** A fetch inside a segment delivers a non-empty run of its records, and stops only at the
      segment's end or when the next batch would not fit. */
  lemma FetchIsRun(bs: seq<RecordBatch>, parts: seq<seq<Record>>, base: nat, offset: nat, maxBytes: nat)
    returns (run: seq<seq<Record>>)
    requires Chained(bs, base) && CarriesAll(bs, parts)
    requires base <= offset < End(bs, base) && offset < 0x1_0000_0000_0000_0000
    ensures var result := FetchFrom(bs, base, offset, maxBytes);
            && Delivers(result, run, Flat(parts), base, offset, maxBytes)
            && (offset - base + |Flat(run)| == |Flat(parts)|
                || exists i ::
                     && 0 <= i < |bs| && bs[i].baseOffset == offset + |Flat(run)|
                     && Lengths(result) + bs[i].batchLength > maxBytes)
            && DatesFrom(result, run, Flat(Dates(bs, parts)), offset - base)
  {
    hide Count, Flat, RunOf, FetchFrom, Lengths, CarriesAll, Contiguous, DecodesTo, Carries, DatesFrom, SameOrigin;
    var j, k, m, first := FetchSplits(bs, parts, base, offset, maxBytes);
    run := RunOf(parts, j, k, m);
    FetchedParts(bs, parts, base, j, k, m, first);
    RunSpans(bs, parts, base, j, k, m);
    RunDated(bs, parts, base, j, k, m, first);
    if m < |bs| { assert bs[m].baseOffset == base + Count(bs, m); }
  }

  /** The batch with the offset, sliced there, carries the records from the offset on. */
  lemma FirstSlice(bs: seq<RecordBatch>, parts: seq<seq<Record>>, base: nat, offset: nat)
    returns (j: nat, k: nat, first: RecordBatch)
    requires Chained(bs, base) && CarriesAll(bs, parts)
    requires base <= offset < End(bs, base) && offset < 0x1_0000_0000_0000_0000
    ensures j == BatchFrom(bs, base, 0, offset) < |bs| == |parts|
    ensures k < |parts[j]| == bs[j].recordsCount && bs[j].baseOffset + k == offset == first.baseOffset
    ensures SliceFromOffset(bs[j], offset) == Sliced(first) && Carries(first, parts[j][k..]) && SameOrigin(first, bs[j])
  {
    hide Count, BatchFrom, Carries, Numbered, SliceFromOffset, Decoded, Chained, End, SameOrigin, Times;
    j := BatchFrom(bs, base, 0, offset);
    BatchContains(bs, base, offset);
    k := offset - bs[j].baseOffset;
    CarriedCount(bs[j], parts[j]);
    SliceCarriesRest(bs[j], parts[j], k);
    first := SliceFromOffset(bs[j], offset).batch;
  }

  /** The shape of a fetch: the rest of batch j, then batches j+1 up to m. */
  lemma FetchSplits(bs: seq<RecordBatch>, parts: seq<seq<Record>>, base: nat, offset: nat, maxBytes: nat)
    returns (j: nat, k: nat, m: nat, first: RecordBatch)
    requires Chained(bs, base) && CarriesAll(bs, parts)
    requires base <= offset < End(bs, base) && offset < 0x1_0000_0000_0000_0000
    ensures j < m <= |bs| == |parts| && k < |parts[j]| && bs[j].baseOffset + k == offset == first.baseOffset
    ensures Carries(first, parts[j][k..]) && SameOrigin(first, bs[j])
    ensures var result := FetchFrom(bs, base, offset, maxBytes);
            && result == [first] + bs[j + 1..m]
            && (|result| == 1 || Lengths(result) <= maxBytes)
            && (m < |bs| ==> Lengths(result) + bs[m].batchLength > maxBytes)
  {
    hide Chained, CarriesAll, End, BatchFrom, Following, Carries, SliceFromOffset, Lengths, SameOrigin;
    j, k, first := FirstSlice(bs, parts, base, offset);
    var more := Following(bs, j + 1, first.batchLength, maxBytes);
    FollowingFits(bs, j + 1, first.batchLength, maxBytes);
    m := j + 1 + |more|;
    LengthsCons(first, more);
  }

  lemma LengthsCons(b: RecordBatch, bs: seq<RecordBatch>)
    ensures Lengths([b] + bs) == b.batchLength + Lengths(bs)
  {
    assert ([b] + bs)[1..] == bs;
  }

  /** The run keeps the times its records had. */
  lemma RunDated(bs: seq<RecordBatch>, parts: seq<seq<Record>>, base: nat, j: nat, k: nat, m: nat, first: RecordBatch)
    requires Chained(bs, base) && CarriesAll(bs, parts) && j < m <= |bs| && k < |parts[j]| && SameOrigin(first, bs[j])
    ensures bs[j].baseOffset >= base
    ensures DatesFrom([first] + bs[j + 1..m], RunOf(parts, j, k, m), Flat(Dates(bs, parts)), bs[j].baseOffset - base + k)
  {
    hide Count, Flat, Carries, Numbered, AllSound;
    var result, run, dates := [first] + bs[j + 1..m], RunOf(parts, j, k, m), Dates(bs, parts);
    SlicedTimes(first, bs[j], parts[j], k);
    forall i | 0 <= i < |result| ensures Dates(result, run)[i] == RunOf(dates, j, k, m)[i] {
      if i > 0 { assert result[i] == bs[j + i] && run[i] == parts[j + i]; }
    }
    assert Dates(result, run) == RunOf(dates, j, k, m);
    RunIsSlice(dates, j, k, m);
    RunIsSlice(parts, j, k, m);
    SameLengths(dates[..j], parts[..j]);
    SameLengths(dates[..m], parts[..m]);
    SameLengths(dates, parts);
    FlatLength(bs, parts, j);
  }

  /** Where the run lies among all records. */
  lemma RunSpans(bs: seq<RecordBatch>, parts: seq<seq<Record>>, base: nat, j: nat, k: nat, m: nat)
    requires Chained(bs, base) && CarriesAll(bs, parts) && j < m <= |bs| && k < |parts[j]|
    ensures var run, from := Flat(RunOf(parts, j, k, m)), bs[j].baseOffset - base + k;
            && bs[j].baseOffset >= base && |run| >= 1 && from + |run| <= |Flat(parts)|
            && run == Flat(parts)[from..from + |run|]
            && from + |run| == Count(bs, m)
            && (m == |bs| ==> from + |run| == |Flat(parts)|)
  {
    hide Count, Position, Flat, RunOf, Carries, Numbered;
    RunIsSlice(parts, j, k, m);
    FlatLength(bs, parts, j);
    FlatLength(bs, parts, m);
    FlatLength(bs, parts, |bs|);
    assert parts[..|bs|] == parts;
    OneMore(bs, j);
    CarriedCount(bs[j], parts[j]);
    TotalsIncrease(bs, j + 1, m);
  }

  lemma FetchedParts(bs: seq<RecordBatch>, parts: seq<seq<Record>>, base: nat, j: nat, k: nat, m: nat,
                     first: RecordBatch)
    requires Chained(bs, base) && CarriesAll(bs, parts) && j < m <= |bs| && k < |parts[j]|
    requires Carries(first, parts[j][k..]) && first.baseOffset == bs[j].baseOffset + k
    ensures DecodesTo([first] + bs[j + 1..m], RunOf(parts, j, k, m)) && Contiguous([first] + bs[j + 1..m])
  {
    hide Count, Position, Carries, Numbered, Decoded;
    var result, run := [first] + bs[j + 1..m], RunOf(parts, j, k, m);
    forall i | 0 <= i < |result| ensures Carries(result[i], run[i]) && Decoded(result[i]) == Parsed(run[i], []) {
      if i > 0 { assert result[i] == bs[j + i] && run[i] == parts[j + i]; }
      DecodesCarried(result[i], run[i]);
    }
    CarriedCount(first, parts[j][k..]);
    forall i | 0 <= i < |result| - 1 ensures result[i + 1].baseOffset == result[i].baseOffset + result[i].recordsCount {
      assert result[i + 1] == bs[j + i + 1];
      OneMore(bs, j + i);
      CarriedCount(bs[j + i], parts[j + i]);
    }
  }
}
