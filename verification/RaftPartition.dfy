/** A partition used as a Raft log: one batch of one record per entry. Its answers against those
    of the flat reference log. */
module RaftPartitions {
  import opened Bytes
  import opened Options
  import opened Crc
  import opened Records
  import opened RecordBatches
  import opened Layout
  import opened Segments
  import opened LogSegments
  import opened PartitionLog
  import opened ReplicaAcks
  import opened Partitions
  import opened Truncation
  import T = RaftTypes
  import F = FlatLog

  // ---- an entry as a batch -------------------------------------------------

  /** The cast between an unsigned epoch and the signed field, and back. */
  function EpochField(epoch: u32): i32 { if epoch >= 0x8000_0000 then epoch - 0x1_0000_0000 else epoch }

  function EpochOf(b: RecordBatch): u32 {
    if b.partitionLeaderEpoch < 0 then b.partitionLeaderEpoch + 0x1_0000_0000 else b.partitionLeaderEpoch
  }

  function EntryRecord(data: seq<byte>, now: u64): Record
    requires 33 + |data| < 0x1_0000_0000
  {
    Record(33 + |data|, 0, now, 0, [], data, [])
  }

  lemma EntryRecordFits(data: seq<byte>, now: u64)
    requires 33 + |data| < 0x1_0000_0000
    ensures WellFormed(EntryRecord(data, now)) && Size(EntryRecord(data, now)) == 33 + |data|
  {
  }

  /** The batch an entry is appended as; `now` is the clock. */
  function EntryBatch(entry: T.LogEntry, now: u64): RecordBatch
    requires 82 + |entry.data| < 0x1_0000_0000 && entry.epoch < 0x1_0000_0000 && entry.offset < 0x1_0000_0000_0000_0000
  {
    EntryRecordFits(entry.data, now);
    var records := EncodeRecord(EntryRecord(entry.data, now));
    RecordBatch(entry.offset, PayloadHeader + |records|, EpochField(entry.epoch), 2, Crc32c(records), 0, 0, 0, 0, -1, -1, -1, 1, records)
  }

  function DataOf(b: RecordBatch): seq<byte> {
    match DecodeRecord(b.records)
    case Parsed(r, _) => r.value
    case Short => []
  }

  /** Reading the batch gives the entry's epoch and data back. */
  ghost predicate HoldsEntry(b: RecordBatch, entry: T.LogEntry) {
    b.recordsCount == 1 && EpochOf(b) == entry.epoch && DataOf(b) == entry.data
  }

  lemma EntryBatchHolds(entry: T.LogEntry, now: u64, offset: u64)
    requires 82 + |entry.data| < 0x1_0000_0000 && entry.epoch < 0x1_0000_0000 && entry.offset < 0x1_0000_0000_0000_0000
    ensures var b := EntryBatch(entry, now);
            && HoldsEntry(b.(baseOffset := offset), entry) && DiskSize(b) == 94 + |entry.data|
            && Carries(b, [EntryRecord(entry.data, now)]) && Numbered([EntryRecord(entry.data, now)], 0)
  {
    hide EncodeRecord, Crc32c, DecodeRecord;
    var r := EntryRecord(entry.data, now);
    EntryRecordFits(entry.data, now);
    DecodesEncoded(r, []);
    assert EncodeRecord(r) + [] == EncodeRecord(r);
    EncodeOne(r);
  }

  // ---- segments that hold entries ------------------------------------------

  /** The segment's batches hold the entries from its base offset on. */
  ghost predicate HoldsEntries(bs: seq<RecordBatch>, base: nat, entries: seq<T.LogEntry>) {
    && base + |bs| <= |entries|
    && forall k :: 0 <= k < |bs| ==> HoldsEntry(bs[k], entries[base + k])
  }

  lemma {:induction false} OneRecordEach(bs: seq<RecordBatch>, base: nat, entries: seq<T.LogEntry>, n: nat)
    requires HoldsEntries(bs, base, entries) && n <= |bs|
    ensures Count(bs, n) == n
    decreases n
  {
    hide EpochOf, DataOf;
    if n > 0 {
      OneRecordEach(bs, base, entries, n - 1);
      assert HoldsEntry(bs[n - 1], entries[base + (n - 1)]);
      OneMore(bs, n - 1);
    } else {
      NoneBefore(bs);
    }
  }

  lemma FirstAtOrAfter(bs: seq<RecordBatch>, base: nat, entries: seq<T.LogEntry>, target: nat)
    requires HoldsEntries(bs, base, entries)
    ensures BatchFrom(bs, base, 0, target) == if target < base then 0 else if target < base + |bs| then target - base else |bs|
    ensures End(bs, base) == base + |bs|
  {
    hide Count, HoldsEntry;
    var j := BatchFrom(bs, base, 0, target);
    OneRecordEach(bs, base, entries, |bs|);
    OneRecordEach(bs, base, entries, j);
    if j < |bs| { OneRecordEach(bs, base, entries, j + 1); }
    if j > 0 { assert base + Count(bs, j) <= target; }
  }

  // ---- one segment at a time -----------------------------------------------

  function Least(a: nat, b: nat): nat { if a <= b then a else b }

  /** Of the entries below n, those in the range, in order. */
  function Wanted(entries: seq<T.LogEntry>, start: nat, end: nat, n: nat): seq<T.LogEntry>
    requires n <= |entries|
  {
    entries[Least(start, n)..Larger(Least(start, n), Least(end, n))]
  }

  /** Collects the entries of one segment; tells whether the end of the range was met. */
  method CollectEntries(view: SegmentView, start: u64, end: nat, soFar: seq<T.LogEntry>, ghost entries: seq<T.LogEntry>)
    returns (result: seq<T.LogEntry>, done: bool)
    requires view.Valid() && HoldsEntries(view.batches, view.baseOffset, entries) && F.Dense(entries)
    requires soFar == Wanted(entries, start, end, view.baseOffset)
    ensures done ==> end <= view.baseOffset + |view.batches|
    ensures done ==> result == Wanted(entries, start, end, end)
    ensures !done ==> result == Wanted(entries, start, end, view.baseOffset + |view.batches|)
  {
    hide Count, Position, Walk, BatchFrom, SegmentView.Valid, HoldsEntry, Wanted;
    ghost var bs, base := view.batches, view.baseOffset;
    ViewChained(view);
    FirstAtOrAfter(bs, base, entries, start);
    WantedUpToStart(entries, start, end);
    result, done := soFar, false;
    var iter := view.BatchIterFrom(start);
    if iter == null { return; }
    ghost var i := BatchFrom(bs, base, 0, start);
    while true
      invariant 0 <= i <= |bs| && iter.pos == Position(bs, i) && iter.end == view.size && iter.file == view.log
      invariant result == Wanted(entries, start, end, base + i)
      decreases |bs| - i
    {
      ViewWalks(view, i);
      var step := iter.Next();
      if !step.Batch? { break; }
      var batch := step.batch;
      EntryAtBatch(bs, base, entries, i);
      OneMore(bs, i);
      WantedGrows(entries, start, end, base + i);
      if batch.baseOffset >= end { done := true; return; }
      if batch.baseOffset >= start {
        result := result + [T.LogEntry(EpochOf(batch), batch.baseOffset, DataOf(batch))];
      }
      i := i + 1;
    }
  }

  /** Nothing is wanted before the start. */
  lemma WantedUpToStart(entries: seq<T.LogEntry>, start: nat, end: nat)
    ensures forall n :: 0 <= n <= |entries| && n <= start ==> Wanted(entries, start, end, n) == []
  {
  }

  lemma WantedGrows(entries: seq<T.LogEntry>, start: nat, end: nat, n: nat)
    requires n < |entries|
    ensures Wanted(entries, start, end, n + 1) == Wanted(entries, start, end, n) + if start <= n < end then [entries[n]] else []
    ensures n >= end ==> Wanted(entries, start, end, n) == Wanted(entries, start, end, end)
  {
  }

  lemma ViewWalks(view: SegmentView, i: nat)
    requires view.Valid() && i <= |view.batches|
    ensures i == |view.batches| ==> Walk(view.log.bytes, Position(view.batches, i), view.size) == Done
    ensures i < |view.batches| ==> Walk(view.log.bytes, Position(view.batches, i), view.size) == Batch(view.batches[i])
  {
    hide Walk, Position;
    WalksStored(view.log.bytes, view.batches, i);
  }

  lemma EntryAtBatch(bs: seq<RecordBatch>, base: nat, entries: seq<T.LogEntry>, i: nat)
    requires Chained(bs, base) && HoldsEntries(bs, base, entries) && F.Dense(entries) && i < |bs|
    ensures bs[i].baseOffset == base + i
    ensures T.LogEntry(EpochOf(bs[i]), bs[i].baseOffset, DataOf(bs[i])) == entries[base + i]
  {
    hide Count, EpochOf, DataOf;
    OneRecordEach(bs, base, entries, i);
    assert HoldsEntry(bs[i], entries[base + i]);
  }

  lemma HoldsFit(bs: seq<RecordBatch>, base: nat, entries: seq<T.LogEntry>)
    requires HoldsEntries(bs, base, entries)
    ensures base + |bs| <= |entries|
  {
  }

  lemma ViewExtent(view: SegmentView, i: nat)
    requires view.Valid() && i <= |view.batches|
    ensures Position(view.batches, i) <= view.size
  {
    TotalsIncrease(view.batches, i, |view.batches|);
  }

  lemma ViewChained(view: SegmentView)
    requires view.Valid()
    ensures Chained(view.batches, view.baseOffset)
  {
  }

  /** The epoch of the entry at an offset, looked for in one segment. */
  method EpochIn(view: SegmentView, offset: u64, ghost entries: seq<T.LogEntry>) returns (epoch: Option<nat>)
    requires view.Valid() && HoldsEntries(view.batches, view.baseOffset, entries) && F.Dense(entries)
    requires view.baseOffset <= offset
    ensures epoch == if offset < view.baseOffset + |view.batches| then Some(entries[offset].epoch) else None
  {
    hide Count, Position, Walk, BatchFrom, SegmentView.Valid, HoldsEntry, HoldsEntries, F.Dense, EpochOf, Chained;
    ghost var bs, base := view.batches, view.baseOffset;
    ViewChained(view);
    FirstAtOrAfter(bs, base, entries, offset);
    HoldsFit(bs, base, entries);
    var iter := view.BatchIterFrom(offset);
    if iter == null { return None; }
    ghost var i := BatchFrom(bs, base, 0, offset);
    while true
      invariant 0 <= i <= |bs| && iter.pos == Position(bs, i) && iter.end == view.size && iter.file == view.log
      invariant offset < base + |bs| ==> base + i <= offset
      decreases view.size - iter.pos
    {
      ViewWalks(view, i);
      var step := iter.Next();
      if !step.Batch? { break; }
      var batch := step.batch;
      EntryAtBatch(bs, base, entries, i);
      OneMore(bs, i);
      ViewExtent(view, i + 1);
      if batch.baseOffset == offset { return Some(EpochOf(batch)); }
      if batch.baseOffset > offset { break; }
      i := i + 1;
    }
    return None;
  }

  /** The first offset in one segment whose entry has the epoch. */
  method FirstWithEpoch(view: SegmentView, epoch: nat, ghost entries: seq<T.LogEntry>) returns (offset: Option<nat>)
    requires view.Valid() && HoldsEntries(view.batches, view.baseOffset, entries) && F.Dense(entries)
    ensures offset.Some? ==>
              && view.baseOffset <= offset.value < view.baseOffset + |view.batches| && entries[offset.value].epoch == epoch
              && forall i :: view.baseOffset <= i < offset.value ==> entries[i].epoch != epoch
    ensures offset.None? ==> forall i :: view.baseOffset <= i < view.baseOffset + |view.batches| ==> entries[i].epoch != epoch
  {
    hide Count, Position, Walk, SegmentView.Valid, HoldsEntry;
    ghost var bs, base := view.batches, view.baseOffset;
    ViewChained(view);
    NoneBefore(bs);
    var iter := view.BatchesFrom(0);
    ghost var i := 0;
    while true
      invariant 0 <= i <= |bs| && iter.pos == Position(bs, i) && iter.end == view.size && iter.file == view.log
      invariant forall k :: base <= k < base + i ==> entries[k].epoch != epoch
      decreases |bs| - i
    {
      ViewWalks(view, i);
      var step := iter.Next();
      if !step.Batch? { break; }
      EntryAtBatch(bs, base, entries, i);
      OneMore(bs, i);
      if EpochOf(step.batch) == epoch { return Some(step.batch.baseOffset); }
      i := i + 1;
    }
    return None;
  }

  /** The two epochs kept while walking the first n entries: the current one, and the one
      before it changed last. */
  function EpochChange(entries: seq<T.LogEntry>, n: nat): (nat, nat)
    requires n <= |entries|
  {
    if n == 0 then (0, 0)
    else
      var (previous, current) := EpochChange(entries, n - 1);
      if entries[n - 1].epoch != current then (current, entries[n - 1].epoch) else (previous, current)
  }

  method WalkEpochs(view: SegmentView, before: nat, now: nat, ghost entries: seq<T.LogEntry>) returns (previous: nat,
                    current: nat)
    requires view.Valid() && HoldsEntries(view.batches, view.baseOffset, entries) && F.Dense(entries)
    requires (before, now) == EpochChange(entries, view.baseOffset)
    ensures (previous, current) == EpochChange(entries, view.baseOffset + |view.batches|)
  {
    hide Count, Position, Walk, SegmentView.Valid, HoldsEntry;
    ghost var bs, base := view.batches, view.baseOffset;
    ViewChained(view);
    NoneBefore(bs);
    previous, current := before, now;
    var iter := view.BatchesFrom(0);
    ghost var i := 0;
    while true
      invariant 0 <= i <= |bs| && iter.pos == Position(bs, i) && iter.end == view.size && iter.file == view.log
      invariant (previous, current) == EpochChange(entries, base + i)
      decreases |bs| - i
    {
      ViewWalks(view, i);
      var step := iter.Next();
      if !step.Batch? { break; }
      EntryAtBatch(bs, base, entries, i);
      OneMore(bs, i);
      var epoch := EpochOf(step.batch);
      if epoch != current { previous, current := current, epoch; }
      i := i + 1;
    }
  }

  // ---- against the flat log ------------------------------------------------

  lemma BetweenIsWanted(entries: seq<T.LogEntry>, start: nat, end: nat)
    requires F.Dense(entries)
    ensures F.EntriesBetween(entries, start, end) == Wanted(entries, start, end, |entries|)
    ensures end <= |entries| ==> Wanted(entries, start, end, end) == Wanted(entries, start, end, |entries|)
  {
    hide F.EntriesBetween;
    if start >= end || start >= |entries| {
      F.NoEntries(entries, start, end);
    } else {
      var hi := Least(end, |entries|);
      F.EntriesDenseFrom(entries, 0, start, hi);
      SameBelowEnd(entries, start, end);
    }
  }

  lemma {:induction false} SameBelowEnd(log: seq<T.LogEntry>, start: nat, end: nat)
    requires F.Dense(log)
    ensures F.EntriesBetween(log, start, end) == F.EntriesBetween(log, start, Least(end, |log|))
  {
    SameOffsets(log, start, end, Least(end, |log|), |log|);
  }

  lemma {:induction false} SameOffsets(log: seq<T.LogEntry>, start: nat, end: nat, other: nat, below: nat)
    requires forall i :: 0 <= i < |log| ==> log[i].offset < below
    requires Least(end, below) == other
    ensures F.EntriesBetween(log, start, end) == F.EntriesBetween(log, start, other)
    decreases |log|
  {
    if log != [] {
      SameOffsets(log[1..], start, end, other, below);
    }
  }

  /** The last epoch the partition reports is the one before the last change, so it agrees with
      the flat log exactly when no entry has an epoch other than zero. */
  lemma LastEpochAgreesIff(entries: seq<T.LogEntry>)
    ensures EpochChange(entries, |entries|).0 == F.LastEpoch(entries) <==> forall i :: 0 <= i < |entries| ==> entries[i].epoch == 0
  {
    ChangesDiffer(entries, |entries|);
  }

  lemma {:induction false} ChangesDiffer(entries: seq<T.LogEntry>, n: nat)
    requires n <= |entries|
    ensures var (previous, current) := EpochChange(entries, n);
            && current == (if n == 0 then 0 else entries[n - 1].epoch)
            && (previous == current <==> forall i :: 0 <= i < n ==> entries[i].epoch == 0)
            && (previous == current ==> current == 0)
    decreases n
  {
    if n > 0 { ChangesDiffer(entries, n - 1); }
  }

  /** What the partition reports as the start of an epoch. */
  ghost predicate IsReportedStart(entries: seq<T.LogEntry>, epoch: nat, offset: nat) {
    if exists i :: 0 <= i < |entries| && entries[i].epoch == epoch then
      && offset < |entries| && entries[offset].epoch == epoch
      && forall i :: 0 <= i < offset ==> entries[i].epoch != epoch
    else offset == |entries|
  }

  /** It agrees with the flat log exactly when some entry has the epoch, or there is no entry. */
  lemma EpochStartAgreesIff(entries: seq<T.LogEntry>, epoch: nat, offset: nat)
    requires F.Dense(entries) && IsReportedStart(entries, epoch, offset)
    ensures offset == F.EpochStart(entries, epoch) <==> (entries == [] || exists i :: 0 <= i < |entries| && entries[i].epoch == epoch)
  {
    if exists i :: 0 <= i < |entries| && entries[i].epoch == epoch {
      var at := F.EpochStartIsFirst(entries, epoch);
      assert entries[at].offset == at;
    } else {
      F.EpochStartOfAbsent(entries, epoch);
    }
  }

  // ---- the log -------------------------------------------------------------

  ghost predicate Mirrors(held: seq<Held>, entries: seq<T.LogEntry>) {
    F.Dense(entries) && forall i :: 0 <= i < |held| ==> HoldsEntries(held[i].batches, held[i].base, entries)
  }

  /** Where view i starts; past the last view, the log end. */
  function StartOf(views: seq<SegmentView>, i: nat, leo: nat): nat {
    if i < |views| then views[i].baseOffset else leo
  }

  ghost predicate Covers(views: seq<SegmentView>, i: nat, entries: seq<T.LogEntry>)
    requires i < |views|
    reads views[i].log, views[i].index
  {
    && views[i].Valid() && HoldsEntries(views[i].batches, views[i].baseOffset, entries)
    && views[i].baseOffset + |views[i].batches| == StartOf(views, i + 1, |entries|) <= |entries|
  }

  class RaftPartition {
    const actor: PartitionActor

    constructor (actor: PartitionActor)
      ensures this.actor == actor
    {
      this.actor := actor;
    }

    /** The partition holds exactly these entries. */
    ghost predicate Holds(entries: seq<T.LogEntry>)
      reads actor
    {
      Mirrors(actor.held, entries) && |entries| == actor.snapshot.logEndOffset
    }

    method LogEndOffset(ghost entries: seq<T.LogEntry>) returns (offset: nat)
      requires actor.Valid() && Holds(entries)
      ensures offset == F.EndOffset(entries)
    {
      F.EndOfDense(entries);
      return actor.snapshot.logEndOffset;
    }

    /** The published views read segments that follow each other entry by entry. */
    lemma Ready(entries: seq<T.LogEntry>)
      requires actor.Valid() && Holds(entries)
      ensures |actor.snapshot.segments| >= 1 && StartOf(actor.snapshot.segments, 0, |entries|) == 0 && F.Dense(entries)
      ensures forall i :: 0 <= i < |actor.snapshot.segments| ==> Covers(actor.snapshot.segments, i, entries)
    {
      hide PartitionActor.Valid, SegmentView.Valid, HoldsEntries, Linked;
      actor.ViewsReady();
      var views, held, leo := actor.snapshot.segments, actor.held, actor.snapshot.logEndOffset;
      SegmentAbuts(held, entries, leo, 0);
      forall i | 0 <= i < |views| ensures Covers(views, i, entries) {
        SegmentAbuts(held, entries, leo, i);
        assert views[i].baseOffset == held[i].base;
        if i + 1 < |views| { assert views[i + 1].baseOffset == held[i + 1].base; }
      }
    }

    method EpochAt(offset: u64, ghost entries: seq<T.LogEntry>) returns (epoch: Option<nat>)
      requires actor.Valid() && Holds(entries)
      ensures epoch == F.EpochAt(entries, offset)
    {
      hide PartitionActor.Valid, SegmentView.Valid, HoldsEntries, Linked, Mirrors, F.EpochAt;
      Ready(entries);
      F.EpochAtDenseFrom(entries, 0, offset);
      var views := actor.snapshot.segments;
      var bases := ViewBases(views);
      var n := PartitionPoint(bases, offset);
      assert bases[0] == StartOf(views, 0, |entries|);
      if n == 0 { return None; }
      assert bases[n - 1] == views[n - 1].baseOffset && Covers(views, n - 1, entries);
      if n < |views| { assert bases[n] == views[n].baseOffset; }
      epoch := EpochIn(views[n - 1], offset, entries);
    }

    method Entries(start: u64, end: nat, ghost entries: seq<T.LogEntry>) returns (result: seq<T.LogEntry>)
      requires actor.Valid() && Holds(entries)
      ensures result == F.EntriesBetween(entries, start, end)
    {
      hide PartitionActor.Valid, SegmentView.Valid, HoldsEntries, Linked, Mirrors, F.EntriesBetween, Wanted;
      Ready(entries);
      var views := actor.snapshot.segments;
      BetweenIsWanted(entries, start, end);
      WantedUpToStart(entries, start, end);
      var bases := ViewBases(views);
      var n := PartitionPoint(bases, start);
      var i := if n == 0 then 0 else n - 1;
      assert bases[i] == views[i].baseOffset == StartOf(views, i, |entries|) && bases[0] == StartOf(views, 0, |entries|);
      assert Covers(views, i, entries);
      result := [];
      while i < |views|
        invariant 0 <= i <= |views| && StartOf(views, i, |entries|) <= |entries|
        invariant result == Wanted(entries, start, end, StartOf(views, i, |entries|))
      {
        assert Covers(views, i, entries);
        var done;
        result, done := CollectEntries(views[i], start, end, result, entries);
        if done { return; }
        i := i + 1;
      }
    }

    method FindEpochStart(epoch: nat, ghost entries: seq<T.LogEntry>) returns (offset: nat)
      requires actor.Valid() && Holds(entries)
      ensures IsReportedStart(entries, epoch, offset)
    {
      hide PartitionActor.Valid, SegmentView.Valid, HoldsEntries, Linked, Mirrors;
      Ready(entries);
      var views := actor.snapshot.segments;
      var i := 0;
      while i < |views|
        invariant 0 <= i <= |views| && StartOf(views, i, |entries|) <= |entries|
        invariant forall k :: 0 <= k < StartOf(views, i, |entries|) ==> entries[k].epoch != epoch
      {
        assert Covers(views, i, entries);
        var found := FirstWithEpoch(views[i], epoch, entries);
        if found.Some? { return found.value; }
        i := i + 1;
      }
      return actor.snapshot.logEndOffset;
    }

    method LastEpoch(ghost entries: seq<T.LogEntry>) returns (epoch: nat)
      requires actor.Valid() && Holds(entries)
      ensures epoch == EpochChange(entries, |entries|).0
    {
      hide PartitionActor.Valid, SegmentView.Valid, HoldsEntries, Linked, Mirrors;
      Ready(entries);
      var views := actor.snapshot.segments;
      var previous, current := 0, 0;
      var i := 0;
      while i < |views|
        invariant 0 <= i <= |views| && StartOf(views, i, |entries|) <= |entries|
        invariant (previous, current) == EpochChange(entries, StartOf(views, i, |entries|))
      {
        assert Covers(views, i, entries);
        previous, current := WalkEpochs(views[i], previous, current, entries);
        i := i + 1;
      }
      return previous;
    }

    /** Appends an entry as a batch of one record. It is stored at the log end, whatever offset
        it says. */
    method Append(entry: T.LogEntry, now: u64, ghost entries: seq<T.LogEntry>)
      requires actor.Valid() && Holds(entries) && actor.active.AtEnd()
      requires 82 + |entry.data| < 0x1_0000_0000 && entry.epoch < 0x1_0000_0000 && entry.offset < 0x1_0000_0000_0000_0000
      requires |entries| + 1 < 0x1_0000_0000_0000_0000 && actor.active.size + 94 + |entry.data| < 0x1_0000_0000_0000_0000
      modifies actor, actor.dir, actor.active, actor.active.log, actor.active.index
      ensures actor.Valid() && actor.active.AtEnd() && Holds(entries + [entry.(offset := |entries|)])
      ensures actor.active.size <= old(actor.active.size) + 94 + |entry.data|
      ensures actor.active == old(actor.active) || (fresh(actor.active) && fresh(actor.active.log) && fresh(actor.active.index))
    {
      hide PartitionActor.Valid, LogSegment.Valid, EntryBatch, EntryRecord, Carries, Numbered, HoldsEntry, Position,
        Mirrors, Next, PartitionActor.Log, PartitionActor.Waits, Linked, SegmentView.Valid, Rotated, Grown;
      ghost var held, active, leo := actor.held, actor.active, actor.snapshot.logEndOffset;
      EntryBatchHolds(entry, now, leo);
      MovedHolds(EntryBatch(entry, now).(baseOffset := leo), entry, leo);
      var batch := EntryBatch(entry, now);
      actor.ViewsReady();
      var reply := actor.Append(batch, AcksNone, 0, [EntryRecord(entry.data, now)]);
      MirrorsGrows(held, entries, leo, batch.(baseOffset := leo), active.marks, entry.(offset := leo), actor.segmentBytes);
    }

    /** Truncates at the start of a segment, or at or beyond the end, as the flat log does. Inside
        a segment the log end is the offset all the same, but the whole segment is kept. */
    method Truncate(offset: u64, ghost entries: seq<T.LogEntry>)
      requires actor.Valid() && Holds(entries) && actor.active.AtEnd()
      modifies actor`snapshot, actor`active, actor`held, actor`parts, actor.dir
      ensures offset >= |entries| || offset in Bases(old(actor.held)) ==>
                actor.Valid() && actor.active.AtEnd() && Holds(F.Truncated(entries, offset))
      ensures actor.snapshot.logEndOffset == if offset < |entries| then offset else |entries|
      ensures actor.held == if offset < |entries| then Cut(old(actor.held), offset) else old(actor.held)
    {
      hide PartitionActor.Valid, LogSegment.Valid, Mirrors, Linked, Cut, F.Truncated, Bases;
      actor.ViewsReady();
      MirrorsDense(actor.held, entries);
      ghost var held, leo := actor.held, actor.snapshot.logEndOffset;
      actor.HandleTruncate(offset);
      if offset >= leo {
        TruncatedAtEnd(entries, offset);
      } else if offset in Bases(held) {
        CutMirrors(held, entries, leo, offset);
      }
    }
  }

  lemma MirrorsDense(held: seq<Held>, entries: seq<T.LogEntry>)
    requires Mirrors(held, entries)
    ensures F.Dense(entries)
  {
  }

  lemma TruncatedAtEnd(entries: seq<T.LogEntry>, offset: nat)
    requires F.Dense(entries) && offset >= |entries|
    ensures F.Truncated(entries, offset) == entries
  {
    F.TruncatedDenseFrom(entries, 0, offset);
  }

  lemma CutMirrors(held: seq<Held>, entries: seq<T.LogEntry>, leo: nat, offset: nat)
    requires Linked(held, leo) && Mirrors(held, entries) && |entries| == leo && offset < leo && offset in Bases(held)
    ensures Mirrors(Cut(held, offset), F.Truncated(entries, offset)) && |F.Truncated(entries, offset)| == offset
  {
    hide HoldsEntries, Linked, Before;
    CutAtStart(held, leo, offset);
    F.TruncatedDenseFrom(entries, 0, offset);
    var n, cut := Before(held, offset), Cut(held, offset);
    forall i | 0 <= i < |cut| ensures HoldsEntries(cut[i].batches, cut[i].base, entries[..offset]) {
      if i < n { KeptEntries(held, entries, leo, offset, i, n); } else { NoEntriesHeld(cut[i].base, entries[..offset]); }
    }
  }

  /** A segment before the one that starts at the offset holds only entries below it. */
  lemma KeptEntries(held: seq<Held>, entries: seq<T.LogEntry>, leo: nat, offset: nat, i: nat, n: nat)
    requires Linked(held, leo) && Mirrors(held, entries) && i < n < |held| && held[n].base == offset <= |entries|
    ensures HoldsEntries(held[i].batches, held[i].base, entries[..offset])
  {
    hide HoldsEntry, Count, Position, Linked;
    SegmentAbuts(held, entries, leo, i);
    BasesIncrease(held, leo, i + 1, n);
  }

  lemma NoEntriesHeld(base: nat, entries: seq<T.LogEntry>)
    requires base <= |entries|
    ensures HoldsEntries([], base, entries)
  {
  }

  function RoomFor(more: seq<T.LogEntry>): nat {
    if more == [] then 0 else 94 + |more[0].data| + RoomFor(more[1..])
  }

  /** What appends accept: sizes and epochs that fit their fields, and offsets in order. */
  ghost predicate Appendable(more: seq<T.LogEntry>, from: nat) {
    forall i :: 0 <= i < |more| ==>
      82 + |more[i].data| < 0x1_0000_0000 && more[i].epoch < 0x1_0000_0000 && more[i].offset == from + i
  }

  /** Over any run of in-order appends and any number of rotations, the partition holds what the
      flat log holds, so the two answer alike. */
  method AppendToBoth(partition: RaftPartition, flat: F.VecLog, more: seq<T.LogEntry>)
    requires partition.actor.Valid() && partition.Holds(flat.entries) && partition.actor.active.AtEnd()
    requires Appendable(more, |flat.entries|)
    requires |flat.entries| + |more| < 0x1_0000_0000_0000_0000
    requires partition.actor.active.size + RoomFor(more) < 0x1_0000_0000_0000_0000
    modifies flat, partition.actor, partition.actor.dir, partition.actor.active, partition.actor.active.log, partition.actor.active.index
    ensures partition.actor.Valid() && partition.actor.active.AtEnd()
    ensures flat.entries == old(flat.entries) + more && partition.Holds(flat.entries)
  {
    hide PartitionActor.Valid, LogSegment.Valid, Mirrors;
    var actor := partition.actor;
    var i := 0;
    assert more[0..] == more;
    while i < |more|
      invariant 0 <= i <= |more| && actor.Valid() && actor.active.AtEnd()
      invariant actor.active == old(actor.active) || (fresh(actor.active) && fresh(actor.active.log) && fresh(actor.active.index))
      invariant flat.entries == old(flat.entries) + more[..i] && partition.Holds(flat.entries)
      invariant actor.active.size + RoomFor(more[i..]) < 0x1_0000_0000_0000_0000
    {
      assert more[i..][1..] == more[i + 1..] && more[..i + 1] == more[..i] + [more[i]];
      var entry := more[i];
      AppendOneToBoth(partition, flat, entry);
      i := i + 1;
    }
  }

  method AppendOneToBoth(partition: RaftPartition, flat: F.VecLog, entry: T.LogEntry)
    requires partition.actor.Valid() && partition.Holds(flat.entries) && partition.actor.active.AtEnd()
    requires Appendable([entry], |flat.entries|) && |flat.entries| + 1 < 0x1_0000_0000_0000_0000
    requires partition.actor.active.size + 94 + |entry.data| < 0x1_0000_0000_0000_0000
    modifies flat, partition.actor, partition.actor.dir, partition.actor.active, partition.actor.active.log, partition.actor.active.index
    ensures partition.actor.Valid() && partition.actor.active.AtEnd()
    ensures flat.entries == old(flat.entries) + [entry] && partition.Holds(flat.entries)
    ensures partition.actor.active.size <= old(partition.actor.active.size) + 94 + |entry.data|
    ensures partition.actor.active == old(partition.actor.active)
            || (fresh(partition.actor.active) && fresh(partition.actor.active.log) && fresh(partition.actor.active.index))
  {
    hide PartitionActor.Shows, LogSegment.Valid, Mirrors, Layered;
    var actor := partition.actor;
    assert [entry][0] == entry;
    partition.Append(entry, 0, flat.entries);
    ghost var contents := Contents(actor.dir.files);
    actor.ActiveIsLast(actor.snapshot.segments, actor.snapshot.logEndOffset);
    flat.Append(entry);
    assert Contents(actor.dir.files) == contents;
    actor.StillShows(actor.snapshot.segments, actor.snapshot.logEndOffset);
  }

  lemma MovedHolds(b: RecordBatch, entry: T.LogEntry, offset: nat)
    requires HoldsEntry(b, entry)
    ensures HoldsEntry(b, entry.(offset := offset))
  {
  }

  lemma MirrorsGrows(held: seq<Held>, entries: seq<T.LogEntry>, leo: nat, b: RecordBatch, marks: seq<nat>,
                     entry: T.LogEntry, segmentBytes: nat)
    requires held != [] && Linked(held, leo) && Mirrors(held, entries) && |entries| == leo
    requires HoldsEntry(b, entry) && entry.offset == leo
    ensures Mirrors(Rotated(Grown(held, b, marks), leo + 1, segmentBytes), entries + [entry])
  {
    hide HoldsEntry, Position, Count, Chained;
    SegmentAbuts(held, entries, leo, |held| - 1);
    var more := entries + [entry];
    forall i | 0 <= i < |held| ensures HoldsEntries(held[i].batches, held[i].base, more) {
    }
    var n, last := |held| - 1, Last(held);
    assert HoldsEntries(held[n].batches, held[n].base, entries) && last.base + |last.batches| == leo;
    forall k | 0 <= k < |last.batches + [b]| ensures HoldsEntry((last.batches + [b])[k], more[last.base + k]) {
      if k < |last.batches| { assert HoldsEntry(last.batches[k], entries[last.base + k]); }
    }
    assert HoldsEntries(last.batches + [b], last.base, more);
  }

  /** Segments that hold entries follow each other entry by entry. */
  lemma SegmentAbuts(held: seq<Held>, entries: seq<T.LogEntry>, leo: nat, i: nat)
    requires Mirrors(held, entries) && Linked(held, leo) && i < |held|
    ensures held[0].base == 0 && HoldsEntries(held[i].batches, held[i].base, entries)
    ensures held[i].base + |held[i].batches| == if i + 1 < |held| then held[i + 1].base else leo
    ensures held[i].base + |held[i].batches| <= |entries|
  {
    hide HoldsEntry, Count;
    OneRecordEach(held[i].batches, held[i].base, entries, |held[i].batches|);
  }
}
