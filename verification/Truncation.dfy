/** Cutting a partition's log at an offset: whole segments from the offset on are dropped, a
    segment that straddles it is kept whole, and a fresh one starts at the offset. */
module Truncation {
  import opened Bytes
  import opened Records
  import opened RecordBatches
  import opened Layout
  import opened Segments
  import opened LogSegments
  import opened PartitionLog

  /** How many segments, from the front, start before the offset. */
  function Before(held: seq<Held>, offset: nat): (n: nat)
    ensures n <= |held|
    ensures forall i :: 0 <= i < n ==> held[i].base < offset
    ensures n < |held| ==> held[n].base >= offset
  {
    if held == [] || held[0].base >= offset then 0 else 1 + Before(held[1..], offset)
  }

  function Cut(held: seq<Held>, offset: nat): seq<Held> { held[..Before(held, offset)] + [Held(offset, [], [])] }

  function CutParts(held: seq<Held>, parts: seq<seq<seq<Record>>>, offset: nat): seq<seq<seq<Record>>>
    requires |parts| == |held|
  {
    parts[..Before(held, offset)] + [[]]
  }

  /** At the start of a segment the cut is clean: what is left is the log below the offset. */
  lemma CleanCut(held: seq<Held>, parts: seq<seq<seq<Record>>>, leo: nat, offset: nat)
    requires Linked(held, leo) && CarriesParts(held, parts) && offset < leo && offset in Bases(held)
    ensures Before(held, offset) < |held| && held[Before(held, offset)].base == offset
    ensures Linked(Cut(held, offset), offset) && CarriesParts(Cut(held, offset), CutParts(held, parts, offset))
    ensures |All(parts)| == leo && All(CutParts(held, parts, offset)) == All(parts)[..offset]
  {
    hide Linked, CarriesParts, Cut, CutParts, All;
    CutAtStart(held, leo, offset);
    CutLinks(held, leo, offset);
    CutCarries(held, parts, leo, offset);
    SameLength(held, parts);
    CutRecords(held, parts, leo, offset);
  }

  lemma CutAtStart(held: seq<Held>, leo: nat, offset: nat)
    requires Linked(held, leo) && offset in Bases(held)
    ensures Before(held, offset) < |held| && held[Before(held, offset)].base == offset
  {
    hide Linked, Before;
    var n := Before(held, offset);
    var i :| 0 <= i < |held| && Bases(held)[i] == offset;
    assert held[i].base == offset;
    if n < i { BasesIncrease(held, leo, n, i); }
  }

  lemma CutLinks(held: seq<Held>, leo: nat, offset: nat)
    requires Linked(held, leo) && Before(held, offset) < |held| && held[Before(held, offset)].base == offset
    ensures Linked(Cut(held, offset), offset)
  {
    hide Count, Position;
    NoneBefore([]);
  }

  lemma CutCarries(held: seq<Held>, parts: seq<seq<seq<Record>>>, leo: nat, offset: nat)
    requires Linked(held, leo) && CarriesParts(held, parts)
    requires Before(held, offset) < |held| && held[Before(held, offset)].base == offset
    ensures CarriesParts(Cut(held, offset), CutParts(held, parts, offset))
  {
    hide Linked, CarriesParts, All, Before;
    var n := Before(held, offset);
    AllPrefix(held, parts, leo, n);
    PrefixCarries(held, parts, n);
    RotatedCarries(held[..n], parts[..n], offset);
  }

  lemma CutRecords(held: seq<Held>, parts: seq<seq<seq<Record>>>, leo: nat, offset: nat)
    requires Linked(held, leo) && CarriesParts(held, parts) && |parts| == |held|
    requires Before(held, offset) < |held| && held[Before(held, offset)].base == offset
    ensures |All(parts)| == leo && offset <= leo
    ensures All(CutParts(held, parts, offset)) == All(parts)[..offset]
  {
    hide Linked, CarriesParts, All, Before, CutParts;
    var n := Before(held, offset);
    AllPrefix(held, parts, leo, n);
    PrefixCarries(held, parts, n);
    RotatedCarries(held[..n], parts[..n], offset);
    CutPartsAre(held, parts, offset);
  }

  lemma CutPartsAre(held: seq<Held>, parts: seq<seq<seq<Record>>>, offset: nat)
    requires |parts| == |held|
    ensures CutParts(held, parts, offset) == parts[..Before(held, offset)] + [[]]
  {
  }

  lemma AllPrefix(held: seq<Held>, parts: seq<seq<seq<Record>>>, leo: nat, n: nat)
    requires Linked(held, leo) && CarriesParts(held, parts) && n < |held|
    ensures |All(parts)| == leo && held[n].base <= leo && n < |parts| && All(parts[..n]) == All(parts)[..held[n].base]
  {
    hide Linked, All;
    SegmentsTile(held, parts, leo, n);
    SegmentsTile(held, parts, leo, |held|);
    assert parts[..|held|] == parts;
    var rest := PrefixOfAll(parts, n);
    assert (All(parts[..n]) + rest)[..|All(parts[..n])|] == All(parts[..n]);
  }

  lemma PrefixCarries(held: seq<Held>, parts: seq<seq<seq<Record>>>, n: nat)
    requires CarriesParts(held, parts) && n <= |held|
    ensures |parts| == |held| && CarriesParts(held[..n], parts[..n])
  {
    hide CarriesAll;
  }

  /** The result ends at or before the offset. */
  ghost predicate EndsBy(result: seq<RecordBatch>, offset: nat) {
    result == [] || result[|result| - 1].baseOffset + result[|result| - 1].recordsCount <= offset
  }

  /** After truncating below the log end, fetches below the offset stop at it exactly when the
      offset is the start of a segment. Otherwise the straddling segment still shows records
      that should be gone. */
  lemma TruncationHidesIff(held: seq<Held>, parts: seq<seq<seq<Record>>>, leo: nat, offset: u64)
    requires Linked(held, leo) && CarriesParts(held, parts) && offset < leo
    ensures (forall o: u64, maxBytes: nat :: o < offset ==> EndsBy(FetchAt(Cut(held, offset), o, maxBytes), offset))
            <==> offset in Bases(held)
  {
    hide Linked, CarriesParts, FetchAt, EndsBy, Cut;
    SameLength(held, parts);
    if offset in Bases(held) {
      forall o: u64, maxBytes: nat | o < offset ensures EndsBy(FetchAt(Cut(held, offset), o, maxBytes), offset) {
        CleanCut(held, parts, leo, offset);
        RunEndsByLog(Cut(held, offset), CutParts(held, parts, offset), offset, o, maxBytes);
      }
    } else {
      var maxBytes := Straddles(held, parts, leo, offset);
      assert !EndsBy(FetchAt(Cut(held, offset), offset - 1, maxBytes), offset);
    }
  }

  lemma SameLength(held: seq<Held>, parts: seq<seq<seq<Record>>>)
    requires CarriesParts(held, parts)
    ensures |parts| == |held|
  {
  }

  lemma RunEndsByLog(held: seq<Held>, parts: seq<seq<seq<Record>>>, leo: nat, o: u64, maxBytes: nat)
    requires Linked(held, leo) && CarriesParts(held, parts) && o < leo
    ensures EndsBy(FetchAt(held, o, maxBytes), leo)
  {
    hide Linked, CarriesParts, FetchAt, Delivers, StopsWell, EndsBy, All;
    var run := FetchDeliversRun(held, parts, leo, o, maxBytes);
    DeliveredEndsBy(FetchAt(held, o, maxBytes), run, All(parts), o, maxBytes);
  }

  lemma DeliveredEndsBy(result: seq<RecordBatch>, run: seq<seq<Record>>, whole: seq<Record>, o: nat, maxBytes: nat)
    requires Delivers(result, run, whole, 0, o, maxBytes)
    ensures EndsBy(result, |whole|)
  {
    hide Flat, Lengths, DecodesTo, Contiguous;
    SameRun(result, run);
    ContiguousEnd(result, run, |result|);
  }

  lemma SameRun(result: seq<RecordBatch>, run: seq<seq<Record>>)
    requires DecodesTo(result, run)
    ensures |run| == |result| && run[..|result|] == run
  {
    hide Decoded;
  }

  lemma {:induction false} ContiguousEnd(bs: seq<RecordBatch>, run: seq<seq<Record>>, n: nat)
    requires Contiguous(bs) && DecodesTo(bs, run) && 1 <= n <= |bs|
    ensures bs[n - 1].baseOffset + bs[n - 1].recordsCount == bs[0].baseOffset + |Flat(run[..n])|
    decreases n
  {
    hide Decoded, Carries;
    CarriedCount(bs[n - 1], run[n - 1]);
    assert run[..n][..n - 1] == run[..n - 1];
    if n > 1 {
      ContiguousEnd(bs, run, n - 1);
      assert bs[(n - 2) + 1].baseOffset == bs[n - 2].baseOffset + bs[n - 2].recordsCount;
    } else {
      assert run[..0] == [] && Flat<Record>([]) == [];
    }
  }

  /** A fetch just below an offset inside a segment, with room for the whole segment, goes past
      the offset. */
  lemma Straddles(held: seq<Held>, parts: seq<seq<seq<Record>>>, leo: nat, offset: u64) returns (maxBytes: nat)
    requires Linked(held, leo) && CarriesParts(held, parts) && offset < leo && offset !in Bases(held)
    ensures offset > 0 && !EndsBy(FetchAt(Cut(held, offset), offset - 1, maxBytes), offset)
  {
    hide Count, Linked, CarriesParts, Before, FetchFrom, EndsBy, Chained, CarriesAll;
    FirstBaseIsZero(held, leo);
    InsideSegment(held, leo, offset);
    SegmentCarries(held, parts, leo, Before(held, offset) - 1);
    var n := Before(held, offset);
    var j := n - 1;
    var cut := Cut(held, offset);
    PointBelow(held, offset);
    maxBytes := ReachesEnd(held[j].batches, parts[j], held[j].base, offset - 1);
    EndsPast(FetchFrom(held[j].batches, held[j].base, offset - 1, maxBytes), EndOf(held[j]), offset);
  }

  lemma FirstBaseIsZero(held: seq<Held>, leo: nat)
    requires Linked(held, leo)
    ensures held != [] && held[0].base == 0 && 0 in Bases(held)
  {
    assert Bases(held)[0] == 0;
  }

  lemma InsideSegment(held: seq<Held>, leo: nat, offset: nat)
    requires Linked(held, leo) && offset < leo && offset !in Bases(held)
    ensures var n := Before(held, offset); n >= 1 && held[n - 1].base < offset < EndOf(held[n - 1])
  {
    hide Count, Chained;
    FirstBaseIsZero(held, leo);
    var n := Before(held, offset);
    if n < |held| { assert Bases(held)[n] == held[n].base; }
  }

  /** Just below the offset the cut log reads the last segment it kept. */
  lemma PointBelow(held: seq<Held>, offset: nat)
    requires Before(held, offset) >= 1
    ensures PartitionPoint(Bases(Cut(held, offset)), offset - 1) == Before(held, offset)
  {
    var n, bases := Before(held, offset), Bases(Cut(held, offset));
    var p := PartitionPoint(bases, offset - 1);
    assert bases[n] == offset;
    assert forall i :: 0 <= i < n ==> bases[i] == held[i].base <= offset - 1;
    assert p == n;
  }

  lemma SegmentCarries(held: seq<Held>, parts: seq<seq<seq<Record>>>, leo: nat, j: nat)
    requires Linked(held, leo) && CarriesParts(held, parts) && j < |held|
    ensures |parts| == |held| && Chained(held[j].batches, held[j].base) && CarriesAll(held[j].batches, parts[j])
  {
    hide Chained, CarriesAll;
  }

  lemma EndsPast(result: seq<RecordBatch>, end: nat, offset: nat)
    requires result != [] && result[|result| - 1].baseOffset + result[|result| - 1].recordsCount == end > offset
    ensures !EndsBy(result, offset)
  {
  }

  /** With room enough a fetch inside a segment goes to its end. */
  lemma ReachesEnd(bs: seq<RecordBatch>, parts: seq<seq<Record>>, base: nat, offset: u64) returns (maxBytes: nat)
    requires Chained(bs, base) && CarriesAll(bs, parts) && base <= offset < End(bs, base)
    ensures var result := FetchFrom(bs, base, offset, maxBytes);
            result != [] && result[|result| - 1].baseOffset + result[|result| - 1].recordsCount == End(bs, base)
  {
    hide Count, CarriesAll, BatchFrom, Following, FetchFrom, Carries, SliceFromOffset, Lengths;
    var j, k, first := FirstSlice(bs, parts, base, offset);
    CarriedCount(first, parts[j][k..]);
    maxBytes := first.batchLength + Lengths(bs[j + 1..]);
    FollowingAll(bs, j + 1, first.batchLength, maxBytes);
    FetchUnfolds(bs, base, offset, maxBytes);
    OneMore(bs, |bs| - 1);
    assert bs[|bs| - 1].baseOffset == base + Count(bs, |bs| - 1);
    if j + 1 < |bs| {
      assert ([first] + bs[j + 1..])[|bs| - 1 - j] == bs[|bs| - 1];
    }
  }

  lemma {:induction false} FollowingAll(bs: seq<RecordBatch>, i: nat, bytes: nat, maxBytes: nat)
    requires i <= |bs| && bytes + Lengths(bs[i..]) <= maxBytes
    ensures Following(bs, i, bytes, maxBytes) == bs[i..]
    decreases |bs| - i
  {
    if i < |bs| {
      assert bs[i..][1..] == bs[i + 1..] && bs[i..] == [bs[i]] + bs[i + 1..];
      FollowingAll(bs, i + 1, bytes + bs[i].batchLength, maxBytes);
    }
  }
}
