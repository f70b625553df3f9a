/** One segment of the log: a byte file that grows by appends, a zero-filled index array
    written in place, views published of them, and the reads that go through a view. */
module Segments {
  import opened Bytes
  import opened Options
  import opened Records
  import opened RecordBatches
  import opened Layout

  class File {
    var bytes: seq<byte>

    constructor ()
      ensures bytes == []
    {
      bytes := [];
    }
  }

  /** What appends to a fresh segment leave on disk: batches end to end, entries for some of
      them at the front of the index, zeroes after. The first batch always gets an entry. */
  ghost predicate Written(log: seq<byte>, index: seq<byte>, base: nat, bs: seq<RecordBatch>, marks: seq<nat>) {
    && Chained(bs, base) && Stored(log, bs) && |log| == Position(bs, |bs|)
    && Indexed(index, |marks|, bs, base, marks)
    && (forall i :: EntrySize * |marks| <= i < |index| ==> index[i] == 0)
    && (bs != [] ==> marks != [] && marks[0] == 0)
    && End(bs, base) < 0x1_0000_0000_0000_0000 && |log| < 0x1_0000_0000_0000_0000
  }

  // ---- walking the file ----------------------------------------------------

  datatype Walked = Done | Batch(batch: RecordBatch) | Broken

  /** One step of the walk over `file` from `pos` up to `end`: the batch there, or the end, also
      when the last batch does not fit before `end`. */
  function Walk(file: seq<byte>, pos: nat, end: nat): Walked {
    if pos >= end then Done
    else if pos + HeaderPrefix + AsU32(ReadAt(file, pos + 8, 4)) > end then Done
    else
      match DecodeFile(file, pos)
      case Parsed(b, _) => Batch(b)
      case Short => Broken
  }

  lemma WalksStored(file: seq<byte>, bs: seq<RecordBatch>, i: nat)
    requires AllSound(bs) && Stored(file, bs) && i <= |bs|
    ensures i == |bs| ==> Walk(file, Position(bs, i), Position(bs, |bs|)) == Done
    ensures i < |bs| ==> Walk(file, Position(bs, i), Position(bs, |bs|)) == Batch(bs[i])
  {
    hide Position, DecodeFile, ReadAt, AsU32, HoldsAt;
    if i < |bs| {
      OneMore(bs, i);
      TotalsIncrease(bs, i, |bs|);
      TotalsIncrease(bs, i + 1, |bs|);
      assert HoldsAt(file, Position(bs, i), bs[i]);
      DecodesFile(file, Position(bs, i), bs[i]);
    }
  }

  class BatchIter {
    const file: File
    var pos: nat
    const end: nat

    constructor (file: File, pos: nat, end: nat)
      ensures this.file == file && this.pos == pos && this.end == end
    {
      this.file := file;
      this.pos := pos;
      this.end := end;
    }

    /** Reads the batch at the position and moves past it; stays put at the end. */
    method Next() returns (result: Walked)
      modifies this
      ensures result == Walk(file.bytes, old(pos), end)
      ensures pos == if result.Batch? then old(pos) + HeaderPrefix + result.batch.batchLength else old(pos)
    {
      if pos >= end { return Done; }
      var batchLength := AsU32(ReadAt(file.bytes, pos + 8, 4));
      if pos + HeaderPrefix + batchLength > end { return Done; }
      var decoded := DecodeFile(file.bytes, pos);
      if decoded.Short? { return Broken; }
      pos := pos + HeaderPrefix + batchLength;
      return Batch(decoded.value);
    }
  }

  // ---- a published view ----------------------------------------------------

  /** An immutable snapshot of a segment: how much of the shared file and index it may read. */
  class SegmentView {
    const baseOffset: nat
    const log: File
    const index: array<byte>
    const indexCount: nat
    const size: nat
    ghost const batches: seq<RecordBatch>
    ghost const marks: seq<nat>

    constructor (baseOffset: nat, log: File, index: array<byte>, indexCount: nat, size: nat,
                 ghost batches: seq<RecordBatch>, ghost marks: seq<nat>)
      ensures this.baseOffset == baseOffset && this.log == log && this.index == index
      ensures this.indexCount == indexCount && this.size == size && this.batches == batches && this.marks == marks
    {
      this.baseOffset, this.log, this.index := baseOffset, log, index;
      this.indexCount, this.size, this.batches, this.marks := indexCount, size, batches, marks;
    }

    ghost predicate Valid()
      reads log, index
    {
      && Chained(batches, baseOffset) && Stored(log.bytes, batches) && size == Position(batches, |batches|)
      && Indexed(index[..], indexCount, batches, baseOffset, marks)
    }

    ghost function EndOffset(): nat { End(batches, baseOffset) }

    /** Binary search: the last index entry at or before the target. */
    method FindPhysicalPosition(target: nat) returns (found: Option<IndexEntry>)
      requires Valid()
      ensures found.None? ==> forall k :: 0 <= k < indexCount ==> EntryAt(index[..], k).offset > target
      ensures found.Some? ==>
        exists k ::
          && 0 <= k < indexCount && found.value == EntryAt(index[..], k) && found.value.offset <= target
          && forall l :: k < l < indexCount ==> EntryAt(index[..], l).offset > target
    {
      hide Count, Position, EntryAt, HoldsAt;
      if indexCount == 0 { return None; }
      var lo, hi := 0, indexCount - 1;
      while lo <= hi
        invariant 0 <= lo <= indexCount && hi < indexCount
        invariant lo <= hi + 1
        invariant forall k :: 0 <= k < lo ==> EntryAt(index[..], k).offset <= target
        invariant forall k :: hi < k < indexCount ==> EntryAt(index[..], k).offset > target
        decreases hi + 1 - lo
      {
        var mid := lo + (hi - lo) / 2;
        var offset := EntryAt(index[..], mid).offset;
        if offset <= target {
          forall k | 0 <= k <= mid ensures EntryAt(index[..], k).offset <= target {
            EntriesIncrease(index[..], indexCount, batches, baseOffset, marks, k, mid);
          }
          lo := mid + 1;
        } else {
          forall k | mid <= k < indexCount ensures EntryAt(index[..], k).offset > target {
            EntriesIncrease(index[..], indexCount, batches, baseOffset, marks, mid, k);
          }
          if mid == 0 { break; }
          hi := mid - 1;
        }
      }
      if lo == 0 { return None; }
      found := Some(EntryAt(index[..], lo - 1));
    }

    /** Walks the file from batch i to the target offset, reading lengths and counts only. */
    method LinearSearch(target: nat, start: IndexEntry, ghost i: nat) returns (pos: Option<nat>)
      requires Valid() && i <= |batches|
      requires start == IndexEntry(baseOffset + Count(batches, i), Position(batches, i))
      ensures pos == Scan(batches, baseOffset, i, target)
    {
      hide Count, Position, ReadAt, AsU32, HoldsAt;
      var offset, at := start.offset, start.pos;
      ghost var n := i;
      while offset < target
        invariant i <= n <= |batches|
        invariant offset == baseOffset + Count(batches, n) && at == Position(batches, n)
        invariant Scan(batches, baseOffset, i, target) == Scan(batches, baseOffset, n, target)
        decreases |batches| - n
      {
        if n < |batches| {
          TotalsIncrease(batches, n, |batches|);
          OneMore(batches, n);
          assert HoldsAt(log.bytes, at, batches[n]);
          DecodesFile(log.bytes, at, batches[n]);
        }
        if at >= size { return None; }
        var batchLength := AsU32(ReadAt(log.bytes, at + 8, 4));
        var recordsCount := AsU32(ReadAt(log.bytes, at + 57, 4));
        if offset + recordsCount > target { break; }
        at := at + HeaderPrefix + batchLength;
        offset := offset + recordsCount;
        n := n + 1;
      }
      pos := Some(at);
    }

    /** Index search, then scan: an iterator at the batch a scan from the very beginning of the
        file would find; None exactly for an offset beyond a non-empty segment's end. */
    method BatchIterFrom(target: nat) returns (iter: BatchIter?)
      requires Valid()
      ensures iter == null <==> (size > 0 && target > EndOffset())
      ensures iter != null ==>
        && fresh(iter) && iter.file == log && iter.end == size
        && iter.pos == Position(batches, BatchFrom(batches, baseOffset, 0, target))
    {
      hide Count, Position, BatchFrom, Scan, HoldsAt, EntryAt;
      var entry := FindPhysicalPosition(target);
      var start: IndexEntry;
      ghost var i := 0;
      if entry.Some? {
        start := entry.value;
        ghost var k :| 0 <= k < indexCount && start == EntryAt(index[..], k) && start.offset <= target;
        i := marks[k];
      } else if size > 0 {
        start := IndexEntry(baseOffset, 0);
        NoneBefore(batches);
      } else {
        EmptyWhenNoBytes(batches);
        iter := new BatchIter(log, 0, 0);
        return;
      }
      ScanFromAnywhere(batches, baseOffset, i, target);
      ScanFindsBatch(batches, baseOffset, 0, target);
      var pos := LinearSearch(target, start, i);
      if pos.None? { NonEmptyWhenBytes(batches); return null; }
      iter := new BatchIter(log, pos.value, size);
    }

    /** An iterator over whatever starts at a byte position. */
    method BatchesFrom(pos: nat) returns (iter: BatchIter)
      ensures fresh(iter) && iter.file == log && iter.pos == pos && iter.end == size
    {
      iter := new BatchIter(log, pos, size);
    }

    static lemma EmptyWhenNoBytes(bs: seq<RecordBatch>)
      requires AllSound(bs) && Position(bs, |bs|) == 0
      ensures bs == []
    {
      TotalsIncrease(bs, 0, |bs|);
    }

    static lemma NonEmptyWhenBytes(bs: seq<RecordBatch>)
      requires AllSound(bs)
      ensures Position(bs, |bs|) > 0 <==> bs != []
    {
      TotalsIncrease(bs, 0, |bs|);
    }

    /** Returns the batch with the offset, sliced there, and whole batches after it while they
        fit; nothing at or beyond the segment's end. */
    method Fetch(offset: nat, maxBytes: nat) returns (result: seq<RecordBatch>)
      requires Valid() && offset < 0x1_0000_0000_0000_0000
      ensures result == FetchFrom(batches, baseOffset, offset, maxBytes)
    {
      hide Position, Count, BatchFrom, SliceFromOffset, Walk, FetchFrom, Following, SegmentView.Valid, AllSound, Stored;
      StoredHere();
      FetchUnfolds(batches, baseOffset, offset, maxBytes);
      var iter := BatchIterFrom(offset);
      PastEndMeansNone(offset);
      if iter == null { return []; }
      ghost var i := BatchFrom(batches, baseOffset, 0, offset);
      WalksStored(log.bytes, batches, i);
      var next := iter.Next();
      if !next.Batch? { return []; }
      var slice := SliceFromOffset(next.batch, offset);
      if !slice.Sliced? { return []; }
      OneMore(batches, i);
      i := i + 1;
      var bytes: nat := slice.batch.batchLength;
      result := [slice.batch];
      while true
        invariant i <= |batches| && iter.pos == Position(batches, i)
        invariant FetchFrom(batches, baseOffset, offset, maxBytes) == result + Following(batches, i, bytes, maxBytes)
        decreases |batches| - i
      {
        WalksStored(log.bytes, batches, i);
        FollowingUnfolds(batches, i, bytes, maxBytes);
        var step := iter.Next();
        if !step.Batch? || bytes + step.batch.batchLength > maxBytes { break; }
        OneMore(batches, i);
        ghost var before, rest := result, Following(batches, i + 1, bytes + step.batch.batchLength, maxBytes);
        bytes := bytes + step.batch.batchLength;
        result := result + [step.batch];
        assert before + ([step.batch] + rest) == result + rest;
        i := i + 1;
      }
    }

    lemma StoredHere()
      requires Valid()
      ensures AllSound(batches) && Stored(log.bytes, batches) && size == Position(batches, |batches|)
    {
      hide Position, Count, HoldsAt, EntryAt;
    }

    lemma PastEndMeansNone(offset: nat)
      requires Valid()
      ensures size > 0 && offset > EndOffset() ==> BatchFrom(batches, baseOffset, 0, offset) == |batches|
    {
      hide Position, Count, BatchFrom, HoldsAt, EntryAt;
      BatchAtOrPastEnd(batches, baseOffset, offset);
    }
  }

  lemma BatchAtOrPastEnd(bs: seq<RecordBatch>, base: nat, target: nat)
    requires Chained(bs, base)
    ensures target > End(bs, base) ==> BatchFrom(bs, base, 0, target) == |bs|
  {
    hide Count, BatchFrom;
    if bs == [] { NoneBefore(bs); }
    TotalsIncrease(bs, 0, |bs|);
    NoneBefore(bs);
    BatchContains(bs, base, target);
  }
}
