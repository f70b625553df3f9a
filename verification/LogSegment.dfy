/** The writable end of a segment: appends to the log file, index entries written in place,
    publishing views, and recovering the counters when a directory is opened again. */
module LogSegments {
  import opened Bytes
  import opened Records
  import opened RecordBatches
  import opened Layout
  import opened Segments

  // ---- one append, on values -----------------------------------------------

  datatype SegmentState = SegmentState(
    log: seq<byte>,
    writePos: nat,
    index: seq<byte>,
    indexWritePos: nat,
    indexCount: nat,
    size: nat,
    bytesSinceIndex: nat)

  /** Writing over a file from a position inside it, growing it where needed. */
  function Overwrite(file: seq<byte>, pos: nat, data: seq<byte>): seq<byte>
    requires pos <= |file|
  {
    file[..pos] + data + if pos + |data| <= |file| then file[pos + |data|..] else []
  }

  predicate GetsEntry(s: SegmentState, b: RecordBatch, threshold: nat) {
    s.bytesSinceIndex + DiskSize(b) >= threshold && s.indexWritePos + EntrySize <= |s.index|
  }

  function PutEntry(index: seq<byte>, at: nat, offset: u64, pos: u64): seq<byte>
    requires at + EntrySize <= |index|
  {
    index[..at] + (PutU64(offset) + PutU64(pos)) + index[at + EntrySize..]
  }

  function AfterAppend(s: SegmentState, b: RecordBatch, threshold: nat): SegmentState
    requires s.writePos <= |s.log| < 0x1_0000_0000_0000_0000
  {
    var written := s.(
      log := Overwrite(s.log, s.writePos, EncodeBatch(b)),
      writePos := s.writePos + |EncodeBatch(b)|,
      size := s.size + DiskSize(b),
      bytesSinceIndex := s.bytesSinceIndex + DiskSize(b));
    if GetsEntry(s, b, threshold) then
      written.(index := PutEntry(s.index, s.indexWritePos, b.baseOffset, |s.log|),
               indexWritePos := s.indexWritePos + EntrySize,
               indexCount := s.indexCount + 1,
               bytesSinceIndex := 0)
    else written
  }

  // ---- what appends keep ---------------------------------------------------

  /** The files hold exactly these batches, and the counters count them. */
  ghost predicate Sound(s: SegmentState, base: nat, bs: seq<RecordBatch>, marks: seq<nat>, threshold: nat) {
    && Written(s.log, s.index, base, bs, marks)
    && s.size == |s.log| && s.indexCount == |marks| && s.indexWritePos == EntrySize * |marks| && s.writePos <= |s.log|
    && (bs == [] ==> marks == [] && s.bytesSinceIndex >= threshold && EntrySize <= |s.index|)
  }

  /** The batch continues the segment, and the segment stays within 64-bit positions. */
  ghost predicate Follows(b: RecordBatch, base: nat, bs: seq<RecordBatch>) {
    && b.baseOffset == End(bs, base) && b.recordsCount >= 1 && LengthMatches(b)
    && b.baseOffset + b.recordsCount < 0x1_0000_0000_0000_0000
    && Position(bs, |bs|) + DiskSize(b) < 0x1_0000_0000_0000_0000
  }

  function MarksAfter(s: SegmentState, bs: seq<RecordBatch>, marks: seq<nat>, b: RecordBatch,
                      threshold: nat): seq<nat> {
    if GetsEntry(s, b, threshold) then marks + [|bs|] else marks
  }

  /** With the cursor at the end of the file, an append keeps everything sound: one more batch,
      at most one more entry, nothing before them touched. */
  lemma AppendKeepsSound(s: SegmentState, base: nat, bs: seq<RecordBatch>, marks: seq<nat>, threshold: nat,
                         b: RecordBatch)
    requires Sound(s, base, bs, marks, threshold) && s.writePos == |s.log| && Follows(b, base, bs)
    ensures var t := AfterAppend(s, b, threshold);
            && Sound(t, base, bs + [b], MarksAfter(s, bs, marks, b, threshold), threshold)
            && t.writePos == |t.log| && t.log == s.log + EncodeBatch(b)
            && t.index[..EntrySize * |marks|] == s.index[..EntrySize * |marks|]
  {
    hide Count, Position, EncodeBatch, HoldsAt, EntryAt, PutEntry, Chained, Stored;
    StoredGrows(s.log, bs, base, b);
    assert AfterAppend(s, b, threshold).log == s.log + EncodeBatch(b);
    if GetsEntry(s, b, threshold) {
      EntryAdded(s.index, bs, base, marks, b, |s.log|);
    } else {
      IndexedStays(s.index, s.index, |marks|, bs, [b], base, marks);
    }
  }

  lemma EntryAdded(index: seq<byte>, bs: seq<RecordBatch>, base: nat, marks: seq<nat>, b: RecordBatch, pos: u64)
    requires Indexed(index, |marks|, bs, base, marks) && EntrySize * (|marks| + 1) <= |index|
    requires b.baseOffset == base + Count(bs, |bs|) && pos == Position(bs, |bs|)
    ensures var t := PutEntry(index, EntrySize * |marks|, b.baseOffset, pos);
            && |t| == |index| && t[..EntrySize * |marks|] == index[..EntrySize * |marks|]
            && (forall i :: EntrySize * (|marks| + 1) <= i < |t| ==> t[i] == index[i])
            && Indexed(t, |marks| + 1, bs + [b], base, marks + [|bs|])
  {
    hide Count, Position, EntryAt, PutEntry, Indexed;
    var t := PutEntry(index, EntrySize * |marks|, b.baseOffset, pos);
    MarksBelow(index, |marks|, bs, base, marks);
    EntryWritten(index, |marks|, b.baseOffset, pos);
    IndexedStays(index, t, |marks|, bs, [b], base, marks);
    TotalsOfExtension(bs, [b], |bs|);
    OneMoreIndexed(t, bs + [b], base, marks, |bs|);
  }

  lemma MarksBelow(index: seq<byte>, count: nat, bs: seq<RecordBatch>, base: nat, marks: seq<nat>)
    requires Indexed(index, count, bs, base, marks)
    ensures |marks| == count && forall k :: 0 <= k < count ==> marks[k] < |bs|
  {
  }

  lemma OneMoreIndexed(index: seq<byte>, bs: seq<RecordBatch>, base: nat, marks: seq<nat>, i: nat)
    requires Indexed(index, |marks|, bs, base, marks) && EntrySize * (|marks| + 1) <= |index|
    requires i < |bs| && (forall k :: 0 <= k < |marks| ==> marks[k] < i)
    requires EntryAt(index, |marks|) == IndexEntry(base + Count(bs, i), Position(bs, i))
    ensures Indexed(index, |marks| + 1, bs, base, marks + [i])
  {
    hide Count, Position, EntryAt;
    var m := marks + [i];
    forall k | 0 <= k < |m| ensures EntryAt(index, k) == IndexEntry(base + Count(bs, m[k]), Position(bs, m[k])) {
      if k < |marks| { assert m[k] == marks[k]; }
    }
  }

  lemma EntryWritten(index: seq<byte>, k: nat, offset: u64, pos: u64)
    requires EntrySize * (k + 1) <= |index|
    ensures var t := PutEntry(index, EntrySize * k, offset, pos);
            && |t| == |index| && t[..EntrySize * k] == index[..EntrySize * k]
            && (forall i :: EntrySize * (k + 1) <= i < |t| ==> t[i] == index[i])
            && EntryAt(t, k) == IndexEntry(offset, pos)
  {
    hide PutU64, AsU64;
    WidthU64(offset);
    WidthU64(pos);
    var at := EntrySize * k;
    var t := PutEntry(index, at, offset, pos);
    assert t[at..at + 8] == PutU64(offset);
    assert t[at + 8..at + 16] == PutU64(pos);
    RoundU64(offset);
    RoundU64(pos);
  }

  lemma WidthU64(x: u64)
    ensures |PutU64(x)| == 8
  {
  }

  /** Appending stores the batch after the others exactly when the cursor is at the end of the
      file. A segment reopened with data in it has its cursor at zero, so there it fails. */
  lemma StoresIffAtEnd(s: SegmentState, base: nat, bs: seq<RecordBatch>, marks: seq<nat>, threshold: nat,
                       b: RecordBatch)
    requires Sound(s, base, bs, marks, threshold) && Follows(b, base, bs)
    ensures Stored(AfterAppend(s, b, threshold).log, bs + [b]) <==> s.writePos == |s.log|
  {
    hide Count, Position, EncodeBatch, EntryAt, PutU64;
    if s.writePos == |s.log| {
      AppendKeepsSound(s, base, bs, marks, threshold, b);
    } else {
      TotalsOfExtension(bs, [b], |bs|);
      var t := AfterAppend(s, b, threshold);
      assert |t.log| < |s.log| + |EncodeBatch(b)|;
      assert (bs + [b])[|bs|] == b && Position(bs + [b], |bs|) == |s.log|;
      assert !HoldsAt(t.log, Position(bs + [b], |bs|), (bs + [b])[|bs|]);
    }
  }

  // ---- recovering the index ------------------------------------------------

  predicate ZeroEntry(index: seq<byte>, k: nat)
    requires EntrySize * (k + 1) <= |index|
  {
    forall i :: EntrySize * k <= i < EntrySize * (k + 1) ==> index[i] == 0
  }

  lemma {:induction false} ZeroBytes(s: seq<byte>)
    requires forall i :: 0 <= i < |s| ==> s[i] == 0
    ensures FromBE(s) == 0
    decreases |s|
  {
    if s != [] { ZeroBytes(s[..|s| - 1]); }
  }

  /** Only the first entry can be all zeroes; past the last entry everything is. So the entries
      of a non-empty segment end at the first zero entry after the first. */
  lemma EntriesEndAtZero(log: seq<byte>, index: seq<byte>, base: nat, bs: seq<RecordBatch>, marks: seq<nat>, k: nat)
    requires Written(log, index, base, bs, marks) && 0 < k && EntrySize * (k + 1) <= |index|
    ensures ZeroEntry(index, k) <==> k >= |marks|
  {
    hide Count, Position, HoldsAt;
    if k < |marks| {
      var part := index[EntrySize * k + 8..EntrySize * k + 16];
      TotalsIncrease(bs, 0, marks[k]);
      assert marks[0] < marks[k];
      assert EntryAt(index, k).pos > 0;
      if ZeroEntry(index, k) {
        forall i | 0 <= i < |part| ensures part[i] == 0 {
          assert part[i] == index[EntrySize * k + 8 + i];
        }
        ZeroBytes(part);
      }
    }
  }

  // ---- the segment ---------------------------------------------------------

  datatype SegmentFiles = SegmentFiles(log: File, index: array<byte>)

  class Directory {
    var files: map<nat, SegmentFiles>

    constructor ()
      ensures files == map[]
    {
      files := map[];
    }
  }

  const IndexInterval := 4096

  function IndexEntries(segmentBytes: nat): nat { segmentBytes / IndexInterval + 1 }

  function IndexBytes(segmentBytes: nat): nat { IndexEntries(segmentBytes) * EntrySize }

  class LogSegment {
    const baseOffset: u64
    const log: File
    const index: array<byte>
    var segment: SegmentView
    var writePos: nat
    var indexWritePos: nat
    var indexCount: nat
    var size: nat
    var bytesSinceIndex: nat
    ghost var batches: seq<RecordBatch>
    ghost var marks: seq<nat>

    ghost function State(): SegmentState
      reads this, log, index
    {
      SegmentState(log.bytes, writePos, index[..], indexWritePos, indexCount, size, bytesSinceIndex)
    }

    ghost predicate Valid()
      reads this, log, index
    {
      && Sound(State(), baseOffset, batches, marks, IndexInterval)
      && segment.baseOffset == baseOffset && segment.log == log && segment.index == index
    }

    ghost predicate AtEnd()
      reads this, log
    {
      writePos == |log.bytes|
    }

    /** Opens the segment's files. Without data they start empty, with a zeroed index; with data
        the index is cut or extended with zeroes to the size for these segments, the entries that
        are left are counted, the size is the file's, and the cursor is at zero. */
    constructor Open(dir: Directory, baseOffset: u64, segmentBytes: nat,
                     ghost batches: seq<RecordBatch>, ghost marks: seq<nat>)
      requires baseOffset in dir.files ==>
                 Written(dir.files[baseOffset].log.bytes, dir.files[baseOffset].index[..], baseOffset, batches, marks)
      requires baseOffset !in dir.files ==> batches == [] && marks == []
      modifies dir
      ensures Valid() && this.baseOffset == baseOffset && this.batches == batches
      ensures index.Length == IndexBytes(segmentBytes)
      ensures batches != [] ==> log == old(dir.files)[baseOffset].log
      ensures batches != [] ==> this.marks == if |marks| <= IndexEntries(segmentBytes) then marks else marks[..IndexEntries(segmentBytes)]
      ensures batches != [] ==>
                if old(dir.files)[baseOffset].index.Length == IndexBytes(segmentBytes) then
                  index == old(dir.files)[baseOffset].index && this.marks == marks
                else fresh(index)
      ensures batches == [] ==> this.marks == [] && fresh(log) && fresh(index)
      ensures dir.files == old(dir.files)[baseOffset := SegmentFiles(log, index)]
      ensures AtEnd() <==> batches == []
      ensures writePos == 0 && bytesSinceIndex == if batches == [] then IndexInterval else 0
      ensures fresh(segment)
    {
      hide Count, Position, HoldsAt, EntryAt, Chained;
      var open := baseOffset in dir.files;
      var isFresh := !open || |dir.files[baseOffset].log.bytes| == 0;
      NoneBefore(batches);
      EmptyFileMeansNone(if open then dir.files[baseOffset].log.bytes else [], batches, baseOffset);
      var maxEntries := IndexEntries(segmentBytes);
      var file: File;
      var index: array<byte>;
      var count := 0;
      var size := 0;
      var since := IndexInterval;
      ghost var left: seq<nat> := [];
      if isFresh {
        file := new File();
        index := new byte[maxEntries * EntrySize](_ => 0);
      } else {
        file, index := dir.files[baseOffset].log, dir.files[baseOffset].index;
        size, since := |file.bytes|, 0;
        ghost var was := index[..];
        if index.Length != maxEntries * EntrySize { index := Resized(index, maxEntries * EntrySize); }
        left := if |marks| <= maxEntries then marks else marks[..maxEntries];
        StillWritten(file.bytes, was, index[..], baseOffset, batches, marks, maxEntries);
        while count < maxEntries
          invariant 0 <= count <= maxEntries
          invariant forall k :: 0 < k < count ==> !ZeroEntry(index[..], k)
        {
          if count > 0 && ZeroEntry(index[..], count) { break; }
          count := count + 1;
        }
        CountRecovered(file.bytes, index[..], baseOffset, batches, left, count, maxEntries);
      }
      this.baseOffset, this.log, this.index, this.indexCount, this.size := baseOffset, file, index, count, size;
      this.indexWritePos, this.bytesSinceIndex, this.writePos := count * EntrySize, since, 0;
      this.batches, this.marks := batches, left;
      var view := new SegmentView(baseOffset, file, index, 0, 0, [], []);
      this.segment := view;
      dir.files := dir.files[baseOffset := SegmentFiles(file, index)];
      new;
      if isFresh { WrittenNothing(index[..], baseOffset); }
    }

    /** The header and records go at the cursor, an index entry when enough was written since
        the last. A batch that continues the segment is stored, if the cursor is at the end. */
    method AppendBatch(b: RecordBatch)
      requires writePos <= |log.bytes| && |log.bytes| < 0x1_0000_0000_0000_0000
      modifies this`writePos, this`indexWritePos, this`indexCount, this`size, this`bytesSinceIndex, this`batches, this`marks, log, index
      ensures State() == AfterAppend(old(State()), b, IndexInterval)
      ensures old(Valid()) && old(AtEnd()) && Follows(b, baseOffset, old(batches)) ==>
                && Valid() && AtEnd() && batches == old(batches) + [b]
                && marks == MarksAfter(old(State()), old(batches), old(marks), b, IndexInterval)
                && log.bytes == old(log.bytes) + EncodeBatch(b)
                && index[..EntrySize * |old(marks)|] == old(index[..])[..EntrySize * |old(marks)|]
    {
      hide Count, Position, EncodeBatch, Overwrite, PutEntry, Sound, Follows, MarksAfter;
      ghost var s := State();
      if Valid() && AtEnd() && Follows(b, baseOffset, batches) {
        AppendKeepsSound(s, baseOffset, batches, marks, IndexInterval, b);
      }
      var logPos := |log.bytes|;
      log.bytes := Overwrite(log.bytes, writePos, EncodeBatch(b));
      writePos := writePos + |EncodeBatch(b)|;
      bytesSinceIndex := bytesSinceIndex + DiskSize(b);
      marks := MarksAfter(s, batches, marks, b, IndexInterval);
      batches := batches + [b];
      if bytesSinceIndex >= IndexInterval && indexWritePos + EntrySize <= index.Length {
        WriteEntry(b.baseOffset, logPos);
        indexWritePos := indexWritePos + EntrySize;
        indexCount := indexCount + 1;
        bytesSinceIndex := 0;
      }
      size := size + DiskSize(b);
    }

    /** Copies the two fields of an entry into the index. */
    method WriteEntry(offset: u64, pos: u64)
      requires indexWritePos + EntrySize <= index.Length
      modifies index
      ensures index[..] == PutEntry(old(index[..]), indexWritePos, offset, pos)
    {
      hide PutU64;
      WidthU64(offset);
      WidthU64(pos);
      var entry := PutU64(offset) + PutU64(pos);
      var at := indexWritePos;
      forall i | 0 <= i < EntrySize {
        index[at + i] := entry[i];
      }
    }

    /** A new view with the current counters. */
    method Publish() returns (view: SegmentView)
      requires Valid()
      modifies this`segment
      ensures Valid() && view == segment && fresh(view)
      ensures view.Valid() && view.baseOffset == baseOffset && view.log == log && view.index == index
      ensures view.batches == batches && view.marks == marks && view.indexCount == indexCount && view.size == size
    {
      hide Count, Position, HoldsAt, EntryAt;
      view := new SegmentView(baseOffset, log, index, indexCount, size, batches, marks);
      segment := view;
    }

    /** An append and then a publish, as the partition does them. */
    method AppendAndPublish(b: RecordBatch) returns (view: SegmentView)
      requires Valid() && AtEnd() && Follows(b, baseOffset, batches)
      modifies this, log, index
      ensures Valid() && AtEnd() && batches == old(batches) + [b] && view == segment && size == old(size) + DiskSize(b)
      ensures view.baseOffset == baseOffset && view.log == log && view.index == index
      ensures view.batches == batches && view.marks == marks && view.indexCount == indexCount && view.size == size
    {
      hide Count, Position, Sound, Follows, AfterAppend, MarksAfter, Chained, Stored, Indexed;
      Totals();
      SizeAfter(State(), b);
      AppendBatch(b);
      view := Publish();
    }

    /** The view was published by this segment, now or earlier. */
    ghost predicate Published(view: SegmentView)
      reads this
    {
      && view.log == log && view.index == index && view.baseOffset == baseOffset
      && view.batches <= batches && view.marks <= marks
      && view.indexCount == |view.marks| && view.size == Position(view.batches, |view.batches|)
      && forall k :: 0 <= k < |view.marks| ==> view.marks[k] < |view.batches|
    }

    /** Whatever was appended since, a published view still reads what it read. */
    lemma PublishedStaysValid(view: SegmentView)
      requires Valid() && Published(view)
      ensures view.Valid()
    {
      hide Count, Position, HoldsAt, EntryAt;
      var rest := batches[|view.batches|..];
      assert view.batches + rest == batches;
      forall i: nat | i <= |view.batches|
        ensures Count(batches, i) == Count(view.batches, i) && Position(batches, i) == Position(view.batches, i)
      {
        TotalsOfExtension(view.batches, rest, i);
      }
      forall i | 0 <= i < |view.batches| ensures HoldsAt(log.bytes, Position(view.batches, i), view.batches[i]) {
        assert HoldsAt(log.bytes, Position(batches, i), batches[i]);
      }
    }

    /** What Valid says of the files and counters, without the batches' bytes. */
    lemma Totals()
      requires Valid()
      ensures Written(log.bytes, index[..], baseOffset, batches, marks)
      ensures writePos <= |log.bytes| == size == Position(batches, |batches|) < 0x1_0000_0000_0000_0000
      ensures indexCount == |marks| && End(batches, baseOffset) < 0x1_0000_0000_0000_0000
    {
      hide Position, Count, HoldsAt, EntryAt;
    }

    /** Counts the records by walking the file. */
    method RecordsCount() returns (total: nat)
      requires Valid()
      ensures total == Count(batches, |batches|)
    {
      hide Count, Position, HoldsAt, EntryAt, Walk;
      NoneBefore(batches);
      var iter := new BatchIter(log, 0, size);
      total := 0;
      ghost var i := 0;
      while true
        invariant i <= |batches| && iter.pos == Position(batches, i) && total == Count(batches, i)
        decreases |batches| - i
      {
        WalksStored(log.bytes, batches, i);
        var step := iter.Next();
        if !step.Batch? { break; }
        OneMore(batches, i);
        total := total + step.batch.recordsCount;
        i := i + 1;
      }
    }
  }

  /** A new segment, opened and published. */
  method OpenFresh(dir: Directory, baseOffset: u64, segmentBytes: nat) returns (segment: LogSegment)
    requires baseOffset !in dir.files
    modifies dir
    ensures fresh(segment) && fresh(segment.log) && fresh(segment.index) && segment.Valid() && segment.AtEnd()
    ensures segment.baseOffset == baseOffset && segment.batches == [] && segment.marks == []
    ensures segment.indexCount == 0 && segment.size == 0 && segment.index.Length == IndexBytes(segmentBytes)
    ensures segment.segment.batches == [] && segment.segment.marks == [] && segment.segment.baseOffset == baseOffset
    ensures segment.segment.indexCount == 0 && segment.segment.size == 0
    ensures segment.segment.log == segment.log && segment.segment.index == segment.index
    ensures dir.files == old(dir.files)[baseOffset := SegmentFiles(segment.log, segment.index)]
  {
    hide Sound, IndexBytes, SegmentView.Valid;
    segment := new LogSegment.Open(dir, baseOffset, segmentBytes, [], []);
    var view := segment.Publish();
    segment.Totals();
    NoneBefore([]);
  }

  /** Fetches through a view published at any earlier time, appends any batches that continue
      the segment, and fetches again: the answer is the same, and is that of the view's own
      batches. */
  method FetchAroundAppends(segment: LogSegment, view: SegmentView, later: seq<RecordBatch>, offset: u64, maxBytes: nat)
    returns (before: seq<RecordBatch>, after: seq<RecordBatch>)
    requires segment.Valid() && segment.AtEnd() && segment.Published(view)
    requires ContinuesWith(segment.batches, segment.baseOffset, later)
    modifies segment, segment.log, segment.index
    ensures segment.Valid() && segment.batches == old(segment.batches) + later
    ensures before == after == FetchFrom(view.batches, view.baseOffset, offset, maxBytes)
  {
    hide Count, Position, HoldsAt, EntryAt, Sound, Chained, ContinuesWith, AfterAppend, EncodeBatch;
    segment.PublishedStaysValid(view);
    before := view.Fetch(offset, maxBytes);
    var i := 0;
    ghost var all := segment.batches + later;
    assert all[..|segment.batches|] == segment.batches;
    while i < |later|
      modifies segment`writePos, segment`indexWritePos, segment`indexCount, segment`size, segment`bytesSinceIndex,
               segment`batches, segment`marks, segment.log, segment.index
      invariant 0 <= i <= |later| && segment.Valid() && segment.AtEnd() && segment.Published(view)
      invariant segment.batches == old(segment.batches) + later[..i]
    {
      NextFollows(old(segment.batches), segment.baseOffset, later, i);
      SoundSize(segment.State(), segment.baseOffset, segment.batches, segment.marks);
      segment.AppendBatch(later[i]);
      assert later[..i + 1] == later[..i] + [later[i]];
      i := i + 1;
    }
    assert later[..i] == later;
    segment.PublishedStaysValid(view);
    after := view.Fetch(offset, maxBytes);
  }

  ghost predicate ContinuesWith(bs: seq<RecordBatch>, base: nat, later: seq<RecordBatch>) {
    && Chained(bs + later, base)
    && End(bs + later, base) < 0x1_0000_0000_0000_0000
    && Position(bs + later, |bs + later|) < 0x1_0000_0000_0000_0000
  }

  lemma NextFollows(bs: seq<RecordBatch>, base: nat, later: seq<RecordBatch>, i: nat)
    requires ContinuesWith(bs, base, later) && i < |later|
    ensures Follows(later[i], base, bs + later[..i])
  {
    hide Count, Position;
    var all, n := bs + later, |bs| + i;
    assert all == (bs + later[..i]) + later[i..] && all[n] == later[i];
    TotalsOfExtension(bs + later[..i], later[i..], n);
    OneMore(all, n);
    TotalsIncrease(all, n + 1, |all|);
  }

  lemma SizeAfter(s: SegmentState, b: RecordBatch)
    requires s.writePos <= |s.log| < 0x1_0000_0000_0000_0000
    ensures AfterAppend(s, b, IndexInterval).size == s.size + DiskSize(b)
  {
  }

  lemma SoundSize(s: SegmentState, base: nat, bs: seq<RecordBatch>, marks: seq<nat>)
    requires Sound(s, base, bs, marks, IndexInterval)
    ensures s.size == |s.log| < 0x1_0000_0000_0000_0000 && s.writePos <= |s.log|
  {
  }

  lemma EmptyFileMeansNone(log: seq<byte>, bs: seq<RecordBatch>, base: nat)
    requires Chained(bs, base) && |log| == Position(bs, |bs|)
    ensures log == [] <==> bs == []
  {
    TotalsIncrease(bs, 0, |bs|);
  }

  lemma CountRecovered(log: seq<byte>, index: seq<byte>, base: nat, bs: seq<RecordBatch>, marks: seq<nat>, count: nat,
                       max: nat)
    requires Written(log, index, base, bs, marks) && bs != []
    requires 1 <= count <= max && |index| == EntrySize * max
    requires forall k :: 0 < k < count ==> !ZeroEntry(index, k)
    requires count < max ==> ZeroEntry(index, count)
    ensures count == |marks|
  {
    hide Written, ZeroEntry;
    MarksFit(log, index, base, bs, marks);
    if count < |marks| { EntriesEndAtZero(log, index, base, bs, marks, count); }
    if 1 < count && |marks| < count { EntriesEndAtZero(log, index, base, bs, marks, count - 1); }
  }

  /** An index cut or extended with zeroes holds the entries that fit, and is zero after them. */
  lemma StillWritten(log: seq<byte>, was: seq<byte>, index: seq<byte>, base: nat, bs: seq<RecordBatch>, marks: seq<nat>,
                     max: nat)
    requires Written(log, was, base, bs, marks) && bs != [] && max >= 1 && |index| == EntrySize * max
    requires forall i :: 0 <= i < |index| ==> index[i] == if i < |was| then was[i] else 0
    ensures Written(log, index, base, bs, if |marks| <= max then marks else marks[..max])
  {
    hide Count, Position, HoldsAt, EntryAt, Chained;
    var n := if |marks| <= max then |marks| else max;
    MarksFit(log, was, base, bs, marks);
    assert was[..EntrySize * n] == index[..EntrySize * n];
    forall k | 0 <= k < n ensures EntryAt(index, k) == EntryAt(was, k) { EntryFromPrefix(was, index, n, k); }
  }

  /** A copy of the index at another length. */
  method Resized(index: array<byte>, length: nat) returns (copy: array<byte>)
    ensures fresh(copy) && copy.Length == length
    ensures forall i :: 0 <= i < length ==> copy[i] == if i < index.Length then index[i] else 0
  {
    copy := new byte[length](i requires 0 <= i < length reads index => if i < index.Length then index[i] else 0);
  }

  lemma MarksFit(log: seq<byte>, index: seq<byte>, base: nat, bs: seq<RecordBatch>, marks: seq<nat>)
    requires Written(log, index, base, bs, marks) && bs != []
    ensures 1 <= |marks| && EntrySize * |marks| <= |index|
  {
  }

  lemma WrittenNothing(index: seq<byte>, base: u64)
    requires forall i :: 0 <= i < |index| ==> index[i] == 0
    ensures Written([], index, base, [], [])
  {
  }
}
