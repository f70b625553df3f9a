/** A partition's log as values: what its directory holds, segment by segment, and what that
    means as one flat sequence of records. */
module PartitionLog {
  import opened Bytes
  import opened Records
  import opened RecordBatches
  import opened Layout
  import opened Segments
  import opened LogSegments

  /** One segment: where it starts, its batches, and which of them have index entries. */
  datatype Held = Held(base: nat, batches: seq<RecordBatch>, marks: seq<nat>)

  datatype SegmentBytes = SegmentBytes(log: seq<byte>, index: seq<byte>)

  /** The segments start at zero and each begins where the one before it ends; only the last may
      be empty. */
  ghost predicate Linked(held: seq<Held>, leo: nat) {
    && held != [] && held[0].base == 0
    && (forall i :: 0 <= i < |held| ==> Chained(held[i].batches, held[i].base))
    && (forall i :: 0 <= i < |held| - 1 ==> held[i].batches != [] && held[i + 1].base == EndOf(held[i]))
    && leo == EndOf(held[|held| - 1])
  }

  ghost function EndOf(h: Held): nat { End(h.batches, h.base) }

  function Bases(held: seq<Held>): seq<nat> { seq(|held|, i requires 0 <= i < |held| => held[i].base) }

  lemma BasesIncrease(held: seq<Held>, leo: nat, i: nat, j: nat)
    requires Linked(held, leo) && i <= j < |held|
    ensures held[i].base <= held[j].base <= leo
    ensures i < j ==> EndOf(held[i]) <= held[j].base && held[i].base < held[j].base
    ensures held[j].batches != [] ==> held[j].base < leo
    decreases |held| - i
  {
    hide Count, Chained;
    SegmentEnds(held[j]);
    SegmentEnds(held[i]);
    if j < |held| - 1 {
      BasesIncrease(held, leo, j + 1, j + 1);
    }
    if i < j {
      BasesIncrease(held, leo, i + 1, j);
    }
  }

  lemma SegmentEnds(h: Held)
    requires Chained(h.batches, h.base)
    ensures h.base <= EndOf(h) && (h.batches != [] ==> h.base < EndOf(h))
  {
    TotalsIncrease(h.batches, 0, |h.batches|);
  }

  // ---- the directory -------------------------------------------------------

  /** The directory holds exactly these segments, each as appends to a fresh one leave it. */
  ghost predicate Matches(contents: map<nat, SegmentBytes>, held: seq<Held>, segmentBytes: nat) {
    && (forall b :: b in contents <==> b in Bases(held))
    && forall i :: 0 <= i < |held| ==> HeldIn(contents, held[i], segmentBytes)
  }

  ghost predicate HeldIn(contents: map<nat, SegmentBytes>, h: Held, segmentBytes: nat) {
    && h.base in contents && |contents[h.base].index| == IndexBytes(segmentBytes)
    && Written(contents[h.base].log, contents[h.base].index, h.base, h.batches, h.marks)
  }

  // ---- one batch more, one segment more ------------------------------------

  function Last(held: seq<Held>): Held
    requires held != []
  {
    held[|held| - 1]
  }

  function Grown(held: seq<Held>, b: RecordBatch, marks: seq<nat>): seq<Held>
    requires held != []
  {
    held[..|held| - 1] + [Held(Last(held).base, Last(held).batches + [b], marks)]
  }

  lemma GrownLinks(held: seq<Held>, leo: nat, b: RecordBatch, marks: seq<nat>)
    requires Linked(held, leo) && b.baseOffset == leo && b.recordsCount >= 1 && LengthMatches(b)
    ensures Linked(Grown(held, b, marks), leo + b.recordsCount)
    ensures Bases(Grown(held, b, marks)) == Bases(held)
  {
    hide Count, Position;
    var bs := Last(held).batches;
    TotalsOfExtension(bs, [b], |bs|);
    OneMore(bs + [b], |bs|);
    forall i | 0 <= i < |bs + [b]| ensures (bs + [b])[i].baseOffset == Last(held).base + Count(bs + [b], i) {
      TotalsOfExtension(bs, [b], i);
    }
  }

  lemma GrownMatches(contents: map<nat, SegmentBytes>, held: seq<Held>, leo: nat, segmentBytes: nat, b: RecordBatch,
                     marks: seq<nat>, now: SegmentBytes)
    requires Matches(contents, held, segmentBytes) && Linked(held, leo)
    requires |now.index| == IndexBytes(segmentBytes)
    requires Written(now.log, now.index, Last(held).base, Last(held).batches + [b], marks)
    ensures Matches(contents[Last(held).base := now], Grown(held, b, marks), segmentBytes)
  {
    hide Written, Chained, IndexBytes;
    var after, grown := contents[Last(held).base := now], Grown(held, b, marks);
    assert Bases(grown) == Bases(held);
    assert Bases(held)[|held| - 1] == Last(held).base;
    forall i | 0 <= i < |grown| ensures HeldIn(after, grown[i], segmentBytes) {
      if i < |held| - 1 {
        BasesIncrease(held, leo, i, |held| - 1);
        assert HeldIn(contents, held[i], segmentBytes);
      }
    }
  }

  /** A new segment at the log end once the last one is full. */
  function Rotated(held: seq<Held>, leo: nat, segmentBytes: nat): seq<Held>
    requires held != []
  {
    if Position(Last(held).batches, |Last(held).batches|) >= segmentBytes then held + [Held(leo, [], [])] else held
  }

  /** A fresh segment opened at the log end. */
  lemma RotatedLinks(held: seq<Held>, leo: nat)
    requires Linked(held, leo) && Last(held).batches != []
    ensures Linked(held + [Held(leo, [], [])], leo)
    ensures leo !in Bases(held)
  {
    hide Count;
    NoneBefore([]);
    forall i | 0 <= i < |held| ensures held[i].base < leo {
      BasesIncrease(held, leo, i, |held| - 1);
    }
  }

  lemma RotatedMatches(contents: map<nat, SegmentBytes>, held: seq<Held>, leo: u64, segmentBytes: nat,
                       now: SegmentBytes)
    requires Matches(contents, held, segmentBytes) && leo !in Bases(held)
    requires |now.index| == IndexBytes(segmentBytes) && Written(now.log, now.index, leo, [], [])
    ensures Matches(contents[leo := now], held + [Held(leo, [], [])], segmentBytes)
  {
    hide Written, IndexBytes;
    var after, more := contents[leo := now], held + [Held(leo, [], [])];
    assert Bases(more) == Bases(held) + [leo];
    forall i | 0 <= i < |more| ensures HeldIn(after, more[i], segmentBytes) {
      if i < |held| {
        assert HeldIn(contents, held[i], segmentBytes);
        assert Bases(held)[i] == held[i].base;
      }
    }
  }

  // ---- fetching ------------------------------------------------------------

  /** How many segments, from the front, start at or before the offset. */
  function PartitionPoint(bases: seq<nat>, offset: nat): (n: nat)
    ensures n <= |bases|
    ensures forall i :: 0 <= i < n ==> bases[i] <= offset
    ensures n < |bases| ==> bases[n] > offset
  {
    if bases == [] || bases[0] > offset then 0 else 1 + PartitionPoint(bases[1..], offset)
  }

  /** What a fetch should return: from the last segment that starts at or before the offset. */
  function FetchAt(held: seq<Held>, offset: u64, maxBytes: nat): seq<RecordBatch> {
    var n := PartitionPoint(Bases(held), offset);
    if n == 0 then [] else FetchFrom(held[n - 1].batches, held[n - 1].base, offset, maxBytes)
  }

  /** parts[i][j] are the records batch j of segment i carries. */
  ghost predicate CarriesParts(held: seq<Held>, parts: seq<seq<seq<Record>>>) {
    |parts| == |held| && forall i :: 0 <= i < |held| ==> CarriesAll(held[i].batches, parts[i])
  }

  /** The whole log as one sequence of records. */
  function All<T>(parts: seq<seq<seq<T>>>): seq<T> {
    if parts == [] then [] else All(parts[..|parts| - 1]) + Flat(parts[|parts| - 1])
  }

  lemma {:induction false} SegmentsTile(held: seq<Held>, parts: seq<seq<seq<Record>>>, leo: nat, n: nat)
    requires Linked(held, leo) && CarriesParts(held, parts) && n <= |held|
    ensures |All(parts[..n])| == if n == |held| then leo else held[n].base
    decreases n
  {
    hide Count, Flat, Chained, CarriesAll;
    if n == 0 {
      assert parts[..0] == [] && All<Record>([]) == [];
    } else {
      SegmentsTile(held, parts, leo, n - 1);
      assert parts[..n][..n - 1] == parts[..n - 1];
      FlatLength(held[n - 1].batches, parts[n - 1], |held[n - 1].batches|);
      FlatWhole(held[n - 1].batches, parts[n - 1]);
    }
  }

  lemma FlatWhole(bs: seq<RecordBatch>, part: seq<seq<Record>>)
    requires CarriesAll(bs, part)
    ensures part[..|bs|] == part
  {
  }

  /** The records of segment i lie in the whole log at its base offset. */
  lemma {:induction false} SegmentInWhole(held: seq<Held>, parts: seq<seq<seq<Record>>>, leo: nat, i: nat)
    requires Linked(held, leo) && CarriesParts(held, parts) && i < |held|
    ensures |All(parts)| == leo
    ensures var from, records := held[i].base, Flat(parts[i]);
            from + |records| == EndOf(held[i]) <= |All(parts)| && All(parts)[from..from + |records|] == records
  {
    hide Count, Flat, Chained, CarriesAll;
    SegmentsTile(held, parts, leo, i);
    SegmentsTile(held, parts, leo, |held|);
    assert parts[..|held|] == parts;
    FlatLength(held[i].batches, parts[i], |held[i].batches|);
    FlatWhole(held[i].batches, parts[i]);
    assert parts[..i + 1][..i] == parts[..i];
    var rest := PrefixOfAll(parts, i + 1);
    assert All(parts) == (All(parts[..i]) + Flat(parts[i])) + rest;
  }

  lemma {:induction false} PrefixOfAll<T>(parts: seq<seq<seq<T>>>, n: nat) returns (rest: seq<T>)
    requires n <= |parts|
    ensures All(parts) == All(parts[..n]) + rest
    decreases |parts|
  {
    hide Flat;
    if n == |parts| {
      assert parts[..n] == parts;
      rest := [];
    } else {
      var front := parts[..|parts| - 1];
      var more := PrefixOfAll(front, n);
      assert front[..n] == parts[..n];
      rest := more + Flat(parts[|parts| - 1]);
    }
  }

  /** When the records of each batch of each segment were made. */
  ghost function AllDates(held: seq<Held>, parts: seq<seq<seq<Record>>>): seq<seq<seq<nat>>>
    requires CarriesParts(held, parts)
  {
    seq(|held|, i requires 0 <= i < |held| => Dates(held[i].batches, parts[i]))
  }

  lemma {:induction false} AsManyDates(held: seq<Held>, parts: seq<seq<seq<Record>>>, n: nat)
    requires CarriesParts(held, parts) && n <= |held|
    ensures |All(AllDates(held, parts)[..n])| == |All(parts[..n])|
    decreases n
  {
    hide Flat, Carries, Numbered;
    var dates := AllDates(held, parts);
    if n > 0 {
      AsManyDates(held, parts, n - 1);
      assert dates[..n][..n - 1] == dates[..n - 1] && parts[..n][..n - 1] == parts[..n - 1];
      SameLengths(dates[n - 1], parts[n - 1]);
    }
  }

  /** The times of segment i lie among all times where its records lie among all records. */
  lemma DatesInWhole(held: seq<Held>, parts: seq<seq<seq<Record>>>, leo: nat, i: nat, result: seq<RecordBatch>,
                     run: seq<seq<Record>>, offset: nat)
    requires Linked(held, leo) && CarriesParts(held, parts) && i < |held| && held[i].base <= offset
    requires DatesFrom(result, run, Flat(Dates(held[i].batches, parts[i])), offset - held[i].base)
    ensures DatesFrom(result, run, All(AllDates(held, parts)), offset)
  {
    hide Flat, Dates, Chained, Carries, Numbered, Linked;
    var dates := AllDates(held, parts);
    AsManyDates(held, parts, i);
    SegmentsTile(held, parts, leo, i);
    assert dates[..i + 1][..i] == dates[..i] && dates[..i + 1] != [];
    var rest := PrefixOfAll(dates, i + 1);
    assert All(dates) == (All(dates[..i]) + Flat(dates[i])) + rest;
    var n := |Flat(run)|;
    SliceShifts(All(dates[..i]), Flat(dates[i]), rest, offset - held[i].base, n);
  }

  lemma SliceShifts<T>(a: seq<T>, b: seq<T>, c: seq<T>, at: nat, n: nat)
    requires at + n <= |b|
    ensures ((a + b) + c)[|a| + at..|a| + at + n] == b[at..at + n]
  {
  }

  /** Below the log end a fetch delivers a non-empty run of exactly the records from the offset
      on, made when they were, and stops only at the end of a segment or when the next batch would not fit. At the
      log end and beyond it returns nothing. */
  lemma FetchDeliversRun(held: seq<Held>, parts: seq<seq<seq<Record>>>, leo: nat, offset: u64, maxBytes: nat)
    returns (run: seq<seq<Record>>)
    requires Linked(held, leo) && CarriesParts(held, parts)
    ensures |All(parts)| == leo
    ensures offset >= leo ==> FetchAt(held, offset, maxBytes) == []
    ensures offset < leo ==> Delivers(FetchAt(held, offset, maxBytes), run, All(parts), 0, offset, maxBytes)
    ensures offset < leo ==> StopsWell(held, FetchAt(held, offset, maxBytes), offset + |Flat(run)|, maxBytes)
    ensures offset < leo ==> DatesFrom(FetchAt(held, offset, maxBytes), run, All(AllDates(held, parts)), offset)
  {
    hide Count, Flat, FetchFrom, Delivers, Chained, CarriesAll, DatesFrom;
    var n := PartitionPoint(Bases(held), offset);
    assert Bases(held)[0] == 0;
    var i := n - 1;
    assert Bases(held)[i] == held[i].base <= offset;
    SegmentInWhole(held, parts, leo, i);
    run := [];
    if offset >= leo {
      NothingAtEnd(held, leo, i, offset, maxBytes);
    } else {
      if n < |held| { assert Bases(held)[n] == held[n].base > offset; }
      run := FetchIsRun(held[i].batches, parts[i], held[i].base, offset, maxBytes);
      DeliversInWhole(FetchAt(held, offset, maxBytes), run, Flat(parts[i]), held[i].base, All(parts), offset, maxBytes);
      DatesInWhole(held, parts, leo, i, FetchAt(held, offset, maxBytes), run, offset);
    }
  }

  /** A fetch that ends at `end` has reached a segment's end, or the next batch does not fit. */
  ghost predicate StopsWell(held: seq<Held>, result: seq<RecordBatch>, end: nat, maxBytes: nat) {
    exists i :: 0 <= i < |held| && (end == EndOf(held[i]) || NextTooLong(held[i].batches, result, end, maxBytes))
  }

  ghost predicate NextTooLong(bs: seq<RecordBatch>, result: seq<RecordBatch>, end: nat, maxBytes: nat) {
    exists i :: 0 <= i < |bs| && bs[i].baseOffset == end && Lengths(result) + bs[i].batchLength > maxBytes
  }

  lemma NothingAtEnd(held: seq<Held>, leo: nat, i: nat, offset: u64, maxBytes: nat)
    requires Linked(held, leo) && i < |held| && offset >= leo
    ensures FetchFrom(held[i].batches, held[i].base, offset, maxBytes) == []
  {
    hide Count, BatchFrom;
    BasesIncrease(held, leo, i, i);
    if i < |held| - 1 { BasesIncrease(held, leo, i + 1, |held| - 1); }
    BatchContains(held[i].batches, held[i].base, offset);
  }

  lemma DeliversInWhole(result: seq<RecordBatch>, run: seq<seq<Record>>, records: seq<Record>, base: nat,
                        all: seq<Record>, offset: nat, maxBytes: nat)
    requires Delivers(result, run, records, base, offset, maxBytes)
    requires base + |records| <= |all| && all[base..base + |records|] == records
    ensures Delivers(result, run, all, 0, offset, maxBytes)
  {
    hide Flat, Contiguous, DecodesTo, Lengths;
    var n := |Flat(run)|;
    forall k | 0 <= k < n ensures Flat(run)[k] == all[offset + k] {
      assert records[offset - base + k] == all[base..base + |records|][offset - base + k];
    }
    assert all[offset - 0..offset - 0 + n] == Flat(run);
  }

  // ---- records of a grown log ----------------------------------------------

  function WithRecords(parts: seq<seq<seq<Record>>>, records: seq<Record>): seq<seq<seq<Record>>>
    requires parts != []
  {
    parts[..|parts| - 1] + [parts[|parts| - 1] + [records]]
  }

  lemma GrownCarries(held: seq<Held>, parts: seq<seq<seq<Record>>>, b: RecordBatch, marks: seq<nat>,
                     records: seq<Record>)
    requires held != [] && CarriesParts(held, parts) && Carries(b, records) && Numbered(records, 0)
    ensures CarriesParts(Grown(held, b, marks), WithRecords(parts, records))
    ensures All(WithRecords(parts, records)) == All(parts) + records
  {
    hide Flat, Carries, Numbered;
    var n := |parts| - 1;
    var grown := WithRecords(parts, records);
    assert grown[..n] == parts[..n] && grown[n] == parts[n] + [records];
    FlatConcat(parts[n], [records]);
    FlatOfOne(records);
    assert All(parts) == All(parts[..n]) + Flat(parts[n]);
  }

  lemma RotatedCarries(held: seq<Held>, parts: seq<seq<seq<Record>>>, leo: nat)
    requires CarriesParts(held, parts)
    ensures CarriesParts(held + [Held(leo, [], [])], parts + [[]]) && All(parts + [[]]) == All(parts)
  {
    assert (parts + [[]])[..|parts|] == parts;
    assert Flat<Record>([]) == [];
  }

  /** An empty segment at the log end changes no answer. */
  lemma EmptySegmentChangesNothing(held: seq<Held>, leo: nat, offset: u64, maxBytes: nat)
    requires Linked(held, leo) && Last(held).batches != []
    ensures FetchAt(held + [Held(leo, [], [])], offset, maxBytes) == FetchAt(held, offset, maxBytes)
  {
    hide FetchFrom, Count, Chained;
    var more := held + [Held(leo, [], [])];
    var n, m := PartitionPoint(Bases(held), offset), PartitionPoint(Bases(more), offset);
    RotatedLinks(held, leo);
    forall i | 0 <= i < |held| ensures Bases(more)[i] == Bases(held)[i] == held[i].base {
    }
    assert Bases(held)[0] == 0 && Bases(more)[|held|] == leo;
    if m == |more| {
      NothingAtEnd(more, leo, |held|, offset, maxBytes);
      NothingAtEnd(held, leo, n - 1, offset, maxBytes);
    } else {
      assert m == n;
    }
  }
}
