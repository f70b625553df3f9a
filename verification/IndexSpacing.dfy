/** How far apart the entries of a segment's sparse index are, over any appends to a fresh
    segment, and what that means for the scan after a lookup. */
module IndexSpacing {
  import opened Bytes
  import opened Records
  import opened RecordBatches
  import opened Layout
  import opened Segments
  import opened LogSegments

  /** Where the batch of an index entry ends. */
  function After(bs: seq<RecordBatch>, mark: nat): nat
    requires mark < |bs|
  {
    Position(bs, mark + 1)
  }

  ghost predicate MarksIn(bs: seq<RecordBatch>, marks: seq<nat>) {
    forall k :: 0 <= k < |marks| ==> marks[k] < |bs|
  }

  /** From the end of one batch to the end of another lie at least `threshold` bytes, and the
      second is the first to get that far. */
  ghost predicate Apart(bs: seq<RecordBatch>, i: nat, j: nat, threshold: nat)
    requires i < |bs| && j < |bs|
  {
    Position(bs, j) < After(bs, i) + threshold <= After(bs, j)
  }

  /** Each marked batch is that far from the next. */
  ghost predicate Spaced(bs: seq<RecordBatch>, marks: seq<nat>, threshold: nat) {
    && MarksIn(bs, marks)
    && forall k, l :: 0 <= k < |marks| && l == k + 1 < |marks| ==> Apart(bs, marks[k], marks[l], threshold)
  }

  /** The counter holds the bytes since the last marked batch, and reaches the threshold only
      once the index is full. */
  ghost predicate Counting(s: SegmentState, bs: seq<RecordBatch>, marks: seq<nat>, threshold: nat) {
    && Spaced(bs, marks, threshold) && (bs != [] ==> marks != [])
    && (marks != [] ==> s.bytesSinceIndex + After(bs, marks[|marks| - 1]) == Position(bs, |bs|))
    && (bs != [] ==> s.bytesSinceIndex < threshold || EntrySize * (|marks| + 1) > |s.index|)
  }

  /** A fresh segment counts a full interval, so its first batch gets an entry, whatever its size. */
  lemma FreshCounts(s: SegmentState, base: nat, threshold: nat, b: RecordBatch)
    requires Sound(s, base, [], [], threshold)
    ensures Counting(s, [], [], threshold) && GetsEntry(s, b, threshold)
  {
    hide DiskSize;
  }

  /** Every append keeps the entries so spaced. */
  lemma AppendKeepsSpacing(s: SegmentState, base: nat, bs: seq<RecordBatch>, marks: seq<nat>, threshold: nat,
                           b: RecordBatch)
    requires Sound(s, base, bs, marks, threshold) && s.writePos == |s.log| && Follows(b, base, bs) && threshold > 0
    requires Counting(s, bs, marks, threshold)
    ensures Counting(AfterAppend(s, b, threshold), bs + [b], MarksAfter(s, bs, marks, b, threshold), threshold)
  {
    hide Position, Count, Written, EncodeBatch, Overwrite, PutEntry, DiskSize, Spaced;
    LogFits(s, base, bs, marks, threshold);
    IndexKeepsLength(s, b, threshold);
    PositionsStay(bs, b);
    MarksLie(bs, marks, threshold);
    if GetsEntry(s, b, threshold) {
      NextEntry(bs, marks, threshold, b);
      assert MarksAfter(s, bs, marks, b, threshold)[|marks|] == |bs|;
    } else {
      SpacedStays(bs, marks, threshold, b);
    }
  }

  lemma LogFits(s: SegmentState, base: nat, bs: seq<RecordBatch>, marks: seq<nat>, threshold: nat)
    requires Sound(s, base, bs, marks, threshold)
    ensures |s.log| == Position(bs, |bs|) < 0x1_0000_0000_0000_0000
  {
    hide Position, Count, Stored, Chained, Indexed;
  }

  lemma MarksLie(bs: seq<RecordBatch>, marks: seq<nat>, threshold: nat)
    requires Spaced(bs, marks, threshold)
    ensures forall k :: 0 <= k < |marks| ==> marks[k] < |bs|
  {
    hide Position;
  }

  lemma PositionsStay(bs: seq<RecordBatch>, b: RecordBatch)
    ensures forall n: nat :: n <= |bs| ==> Position(bs + [b], n) == Position(bs, n)
    ensures Position(bs + [b], |bs| + 1) == Position(bs, |bs|) + DiskSize(b)
  {
    hide Position, Count, DiskSize;
    forall n: nat | n <= |bs| ensures Position(bs + [b], n) == Position(bs, n) { TotalsOfExtension(bs, [b], n); }
    OneMore(bs + [b], |bs|);
  }

  lemma SpacedStays(bs: seq<RecordBatch>, marks: seq<nat>, threshold: nat, b: RecordBatch)
    requires Spaced(bs, marks, threshold)
    ensures Spaced(bs + [b], marks, threshold)
  {
    hide Position, DiskSize;
    PositionsStay(bs, b);
  }

  lemma OneMoreSpaced(bs: seq<RecordBatch>, marks: seq<nat>, threshold: nat, i: nat)
    requires Spaced(bs, marks, threshold) && i < |bs|
    requires marks != [] && marks[|marks| - 1] < |bs| ==> Apart(bs, marks[|marks| - 1], i, threshold)
    ensures Spaced(bs, marks + [i], threshold)
  {
    hide Apart;
    var m := marks + [i];
    forall k, l | 0 <= k < |m| && l == k + 1 < |m| ensures Apart(bs, m[k], m[l], threshold) {
      assert m[k] == marks[k];
      if l < |marks| { assert m[l] == marks[l]; }
    }
  }

  /** The batch that fills the interval after the last entry gets the next one. */
  lemma NextEntry(bs: seq<RecordBatch>, marks: seq<nat>, threshold: nat, b: RecordBatch)
    requires Spaced(bs, marks, threshold)
    requires marks != [] && marks[|marks| - 1] < |bs| ==>
               var from := After(bs, marks[|marks| - 1]);
               Position(bs, |bs|) < from + threshold <= Position(bs, |bs|) + DiskSize(b)
    ensures Spaced(bs + [b], marks + [|bs|], threshold)
  {
    hide Position, DiskSize, Spaced;
    PositionsStay(bs, b);
    MarksLie(bs, marks, threshold);
    SpacedStays(bs, marks, threshold, b);
    OneMoreSpaced(bs + [b], marks, threshold, |bs|);
  }

  lemma IndexKeepsLength(s: SegmentState, b: RecordBatch, threshold: nat)
    requires s.writePos <= |s.log| < 0x1_0000_0000_0000_0000
    ensures |AfterAppend(s, b, threshold).index| == |s.index|
  {
    hide EncodeBatch, Overwrite, PutU64, DiskSize;
    WidthU64(b.baseOffset);
    WidthU64(|s.log|);
  }

  /** While the index has room, from the last marked batch at or before a batch, fewer than
      `threshold` bytes past that marked batch lead to it. */
  lemma ScanIsShort(s: SegmentState, bs: seq<RecordBatch>, marks: seq<nat>, threshold: nat, k: nat, i: nat)
    requires AllSound(bs) && Counting(s, bs, marks, threshold) && EntrySize * (|marks| + 1) <= |s.index|
    requires k < |marks| && marks[k] < i < |bs| && (k + 1 < |marks| ==> i < marks[k + 1])
    ensures Position(bs, i) < After(bs, marks[k]) + threshold
  {
    hide Position;
    if k + 1 < |marks| { TotalsIncrease(bs, i, marks[k + 1]); } else { TotalsIncrease(bs, i, |bs|); }
  }

  lemma {:induction false} EntriesCost(bs: seq<RecordBatch>, marks: seq<nat>, threshold: nat, k: nat)
    requires Spaced(bs, marks, threshold) && k < |marks|
    ensures threshold * k <= After(bs, marks[k])
    decreases k
  {
    hide Position;
    if k > 0 { EntriesCost(bs, marks, threshold, k - 1); }
  }

  /** The index of a segment is full no sooner than the segment is, but for less than one
      interval. */
  lemma IndexLasts(s: SegmentState, bs: seq<RecordBatch>, marks: seq<nat>, segmentBytes: nat)
    requires Counting(s, bs, marks, IndexInterval) && |s.index| == IndexBytes(segmentBytes)
    requires EntrySize * (|marks| + 1) > |s.index|
    ensures Position(bs, |bs|) + IndexInterval > segmentBytes
  {
    hide Position;
    var n := |marks|;
    assert n >= segmentBytes / IndexInterval + 1;
    EntriesCost(bs, marks, IndexInterval, n - 1);
    assert IndexInterval * (n - 1) + IndexInterval > segmentBytes;
  }
}
