/** The partition actor: appends with segment rotation, fetches through the published state,
    replica acknowledgements, and opening a directory again. */
module Partitions {
  import opened Bytes
  import opened Options
  import opened Records
  import opened RecordBatches
  import opened Layout
  import opened Segments
  import opened LogSegments
  import opened PartitionLog
  import opened ReplicaAcks
  import opened Truncation

  datatype Acks = AcksNone | AcksLeader | AcksAll

  /** The published state: what fetches read. */
  datatype PartitionState = PartitionState(
    segments: seq<SegmentView>,
    logEndOffset: nat,
    highWatermark: nat,
    replicas: seq<Replica>)

  datatype FetchResponse = FetchResponse(highWatermark: nat, logStartOffset: nat, records: seq<RecordBatch>)

  // ---- files ---------------------------------------------------------------

  ghost function Contents(files: map<nat, SegmentFiles>): map<nat, SegmentBytes>
    reads set b | b in files :: files[b].log
    reads set b | b in files :: files[b].index
  {
    map b | b in files :: SegmentBytes(files[b].log.bytes, files[b].index[..])
  }

  /** No two segments share a file. */
  ghost predicate Separate(files: map<nat, SegmentFiles>) {
    forall a, b :: a in files && b in files && a != b ==> files[a].log != files[b].log && files[a].index != files[b].index
  }

  /** The view reads all of the segment that `h` describes. */
  ghost predicate ViewOf(view: SegmentView, h: Held, files: map<nat, SegmentFiles>) {
    && view.baseOffset == h.base && view.batches == h.batches && view.marks == h.marks
    && view.indexCount == |h.marks| && view.size == Position(h.batches, |h.batches|)
    && h.base in files && files[h.base] == SegmentFiles(view.log, view.index)
  }

  ghost predicate ViewsOf(views: seq<SegmentView>, held: seq<Held>, files: map<nat, SegmentFiles>) {
    |views| == |held| && forall i :: 0 <= i < |held| ==> ViewOf(views[i], held[i], files)
  }

  lemma ViewReads(view: SegmentView, h: Held, files: map<nat, SegmentFiles>, segmentBytes: nat)
    requires ViewOf(view, h, files) && HeldIn(Contents(files), h, segmentBytes)
    ensures view.Valid()
  {
  }

  /** The files on disk, the batches and records they hold, and the views of them agree. */
  ghost predicate Layered(views: seq<SegmentView>, held: seq<Held>, parts: seq<seq<seq<Record>>>, leo: nat,
                          files: map<nat, SegmentFiles>, contents: map<nat, SegmentBytes>, segmentBytes: nat)
  {
    && Linked(held, leo) && CarriesParts(held, parts)
    && Separate(files) && Matches(contents, held, segmentBytes)
    && ViewsOf(views, held, files)
  }

  /** A directory as some run left it: nothing in it yet, or segments that make up a log. */
  ghost predicate LeftBehind(files: map<nat, SegmentFiles>, held: seq<Held>, parts: seq<seq<seq<Record>>>, leo: nat,
                             contents: map<nat, SegmentBytes>, segmentBytes: nat)
  {
    && Separate(files) && Matches(contents, held, segmentBytes)
    && if held == [] then parts == [] && leo == 0 else Linked(held, leo) && CarriesParts(held, parts)
  }

  function AtLeastOne(held: seq<Held>): (h: seq<Held>)
    ensures h != []
  {
    if held == [] then [Held(0, [], [])] else held
  }

  function AtLeastOnePart(parts: seq<seq<seq<Record>>>): (p: seq<seq<seq<Record>>>)
    ensures p != []
  {
    if parts == [] then [[]] else parts
  }

  ghost function RotatedParts(held: seq<Held>, parts: seq<seq<seq<Record>>>, segmentBytes: nat): seq<seq<seq<Record>>>
    requires held != []
  {
    if Position(Last(held).batches, |Last(held).batches|) >= segmentBytes then parts + [[]] else parts
  }

  lemma SameRecords(held: seq<Held>, parts: seq<seq<seq<Record>>>, segmentBytes: nat)
    ensures All(RotatedParts(AtLeastOne(held), AtLeastOnePart(parts), segmentBytes)) == All(parts)
  {
    hide Position;
    var p := AtLeastOnePart(parts);
    assert Flat<Record>([]) == [] && All<Record>([]) == [];
    if parts == [] { assert p[..0] == parts; }
    assert (p + [[]])[..|p|] == p;
  }

  lemma LayerLengths(views: seq<SegmentView>, held: seq<Held>, parts: seq<seq<seq<Record>>>, leo: nat,
                     files: map<nat, SegmentFiles>, contents: map<nat, SegmentBytes>, segmentBytes: nat)
    requires Layered(views, held, parts, leo, files, contents, segmentBytes)
    ensures |views| == |held| == |parts| >= 1
  {
  }

  lemma LastHeld(files: map<nat, SegmentFiles>, held: seq<Held>, parts: seq<seq<seq<Record>>>, leo: u64,
                 contents: map<nat, SegmentBytes>, segmentBytes: nat)
    requires LeftBehind(files, held, parts, leo, contents, segmentBytes) && contents.Keys == files.Keys
    ensures var h := AtLeastOne(held);
            && Linked(h, leo) && CarriesParts(h, AtLeastOnePart(parts))
            && Last(h).base == (if held == [] then 0 else Bases(held)[|held| - 1])
            && leo == EndOf(Last(h)) && (Last(h).batches == [] ==> Last(h).marks == [])
            && Last(h).base < 0x1_0000_0000_0000_0000
            && (if Last(h).base in files then
                  && |contents[Last(h).base].index| == IndexBytes(segmentBytes)
                  && Written(contents[Last(h).base].log, contents[Last(h).base].index, Last(h).base, Last(h).batches, Last(h).marks)
                else Last(h).batches == [] && Last(h).marks == [])
  {
    hide Count, Position, Written, CarriesAll, Chained, IndexBytes;
    NoneBefore([]);
    if held == [] {
      assert Chained([], 0) by { ChainOfNothing(); }
      assert CarriesAll([], []) by { AllOfNothing(); }
    } else {
      assert HeldIn(contents, held[|held| - 1], segmentBytes);
      assert Bases(held)[|held| - 1] == Last(held).base;
      NoMarksWithoutBatches(contents[Last(held).base], Last(held));
      BasesIncrease(held, leo, |held| - 1, |held| - 1);
    }
  }

  lemma NoMarksWithoutBatches(contents: SegmentBytes, h: Held)
    requires Written(contents.log, contents.index, h.base, h.batches, h.marks)
    ensures h.batches == [] ==> h.marks == []
  {
    hide Count, Position, EntryAt;
    assert |h.marks| > 0 ==> h.marks[0] < |h.batches|;
  }

  lemma ChainOfNothing()
    ensures Chained([], 0)
  {
  }

  lemma AllOfNothing()
    ensures CarriesAll([], [])
  {
  }

  /** Opening the last segment leaves the directory holding the same. */
  lemma OpenedLast(files: map<nat, SegmentFiles>, held: seq<Held>, parts: seq<seq<seq<Record>>>, leo: nat,
                   contents: map<nat, SegmentBytes>, segmentBytes: nat, log: File, index: array<byte>, now: SegmentBytes)
    requires LeftBehind(files, held, parts, leo, contents, segmentBytes) && contents.Keys == files.Keys
    requires var last := Last(AtLeastOne(held));
             && ((last.base in files && files[last.base] == SegmentFiles(log, index))
                 || forall b :: b in files ==> files[b].log != log && files[b].index != index)
             && |now.index| == IndexBytes(segmentBytes) && Written(now.log, now.index, last.base, last.batches, last.marks)
    ensures var h := AtLeastOne(held);
            && Separate(files[Last(h).base := SegmentFiles(log, index)])
            && Matches(contents[Last(h).base := now], h, segmentBytes)
  {
    hide Written, Linked, CarriesParts, IndexBytes;
    var h := AtLeastOne(held);
    assert Bases(h)[|h| - 1] == Last(h).base;
    var after := contents[Last(h).base := now];
    forall i | 0 <= i < |h| ensures HeldIn(after, h[i], segmentBytes) {
      if i < |h| - 1 {
        BasesIncrease(held, leo, i, |h| - 1);
        assert HeldIn(contents, held[i], segmentBytes);
      }
    }
  }

  lemma EarlierHeld(h: seq<Held>, leo: u64, contents: map<nat, SegmentBytes>, segmentBytes: nat, i: nat)
    requires Linked(h, leo) && Matches(contents, h, segmentBytes) && i < |h| - 1
    ensures HeldIn(contents, h[i], segmentBytes) && h[i].batches != [] && h[i].base < 0x1_0000_0000_0000_0000
    ensures h[i].base in contents && |contents[h[i].base].index| == IndexBytes(segmentBytes)
    ensures Written(contents[h[i].base].log, contents[h[i].base].index, h[i].base, h[i].batches, h[i].marks)
  {
    hide Count, Position, Written, Chained, IndexBytes;
    BasesIncrease(h, leo, i, i);
  }

  lemma IsView(view: SegmentView, segment: LogSegment, h: Held, files: map<nat, SegmentFiles>)
    requires segment.Valid() && h.base in files && files[h.base] == SegmentFiles(segment.log, segment.index)
    requires segment.baseOffset == h.base && segment.batches == h.batches && segment.marks == h.marks
    requires view.baseOffset == segment.baseOffset && view.log == segment.log && view.index == segment.index
    requires view.batches == segment.batches && view.marks == segment.marks
    requires view.indexCount == segment.indexCount && view.size == segment.size
    ensures ViewOf(view, h, files)
  {
    hide Position, Count, Written, LogSegment.Valid;
    segment.Totals();
  }

  lemma AreLayers(views: seq<SegmentView>, held: seq<Held>, parts: seq<seq<seq<Record>>>, leo: nat,
                  files: map<nat, SegmentFiles>, contents: map<nat, SegmentBytes>, segmentBytes: nat)
    requires Linked(held, leo) && CarriesParts(held, parts) && Separate(files) && Matches(contents, held, segmentBytes)
    requires |views| == |held| && forall i :: 0 <= i < |held| ==> ViewOf(views[i], held[i], files)
    ensures Layered(views, held, parts, leo, files, contents, segmentBytes)
  {
    hide ViewOf;
  }

  /** The sorted file names are the base offsets. */
  lemma NamesAreBases(names: seq<nat>, files: map<nat, SegmentFiles>, held: seq<Held>, parts: seq<seq<seq<Record>>>,
                      leo: nat,
                      contents: map<nat, SegmentBytes>, segmentBytes: nat)
    requires LeftBehind(files, held, parts, leo, contents, segmentBytes) && contents.Keys == files.Keys
    requires forall b :: b in names <==> b in files.Keys
    requires forall i, j :: 0 <= i < j < |names| ==> names[i] < names[j]
    ensures names == Bases(held)
  {
    hide HeldIn, Separate, CarriesParts, Linked;
    var bases := Bases(held);
    forall i, j | 0 <= i < j < |bases| ensures bases[i] < bases[j] {
      BasesIncrease(held, leo, i, j);
    }
    SameElementsSameSequence(names, bases);
  }

  /** The last segment takes one more batch, and nothing else changes. */
  lemma GrownLayers(views: seq<SegmentView>, held: seq<Held>, parts: seq<seq<seq<Record>>>, leo: nat,
                    files: map<nat, SegmentFiles>, contents: map<nat, SegmentBytes>, segmentBytes: nat,
                    b: RecordBatch, records: seq<Record>, current: SegmentView, now: SegmentBytes)
    requires Layered(views, held, parts, leo, files, contents, segmentBytes) && held != [] && parts != []
    requires Carries(b, records) && Numbered(records, 0) && b.baseOffset == leo
    requires ViewOf(current, Held(Last(held).base, Last(held).batches + [b], current.marks), files)
    requires |now.index| == |contents[Last(held).base].index|
    requires Written(now.log, now.index, Last(held).base, Last(held).batches + [b], current.marks)
    ensures Layered(views[..|views| - 1] + [current], Grown(held, b, current.marks), WithRecords(parts, records), leo + |records|,
                    files, contents[Last(held).base := now], segmentBytes)
    ensures All(WithRecords(parts, records)) == All(parts) + records
  {
    hide Linked, CarriesParts, Matches, HeldIn, Separate, ViewOf, Carries, Numbered, LengthMatches, Written, Position,
      Grown, WithRecords;
    SegmentHeld(contents, held, segmentBytes, |held| - 1);
    IndexLength(contents, Last(held), segmentBytes);
    FollowsHere(b, records, 0, []);
    GrownMatches(contents, held, leo, segmentBytes, b, current.marks, now);
    GrownLinks(held, leo, b, current.marks);
    GrownCarries(held, parts, b, current.marks, records);
    GrownViews(views, held, files, b, current);
  }

  lemma IndexLength(contents: map<nat, SegmentBytes>, h: Held, segmentBytes: nat)
    requires HeldIn(contents, h, segmentBytes)
    ensures |contents[h.base].index| == IndexBytes(segmentBytes)
  {
  }

  class PartitionActor {
    const dir: Directory
    const segmentBytes: nat
    var active: LogSegment
    var snapshot: PartitionState
    var waiting: seq<Waiting>
    ghost var held: seq<Held>
    ghost var parts: seq<seq<seq<Record>>>

    /** Opens a directory left by an append-only run, or an empty one: the state shows just
        what the directory holds, with a fresh segment added if the last one is full. */
    constructor (dir: Directory, segmentBytes: nat, replicas: seq<Replica>, ghost held: seq<Held>,
                 ghost parts: seq<seq<seq<Record>>>, ghost leo: u64)
      requires segmentBytes >= 1 && LeftBehind(dir.files, held, parts, leo, Contents(dir.files), segmentBytes)
      modifies dir
      ensures Valid() && this.dir == dir && this.segmentBytes == segmentBytes && fresh(active)
      ensures this.held == Rotated(AtLeastOne(held), leo, segmentBytes) && Log() == All(parts) && waiting == []
      ensures snapshot.logEndOffset == leo && snapshot.replicas == replicas
      ensures snapshot.highWatermark == if replicas == [] then leo else 0
      ensures Last(this.held).batches == [] ==> active.AtEnd()
    {
      hide Layered, Position, Count, LogSegment.Valid, Rotated, RotatedParts, LeftBehind, All, AtLeastOne,
        AtLeastOnePart;
      var active, segments, end := Initialize(dir, segmentBytes, held, parts, leo);
      ghost var contents := Contents(dir.files);
      this.dir, this.segmentBytes, this.active := dir, segmentBytes, active;
      this.held := Rotated(AtLeastOne(held), leo, segmentBytes);
      this.parts := RotatedParts(AtLeastOne(held), AtLeastOnePart(parts), segmentBytes);
      snapshot, waiting := PartitionState(segments, end, if replicas == [] then end else 0, replicas), [];
      new;
      assert Contents(dir.files) == contents;
      LayerLengths(segments, this.held, this.parts, leo, dir.files, contents, segmentBytes);
      SameRecords(held, parts, segmentBytes);
    }

    /** Opens the segments in the directory, counts the records of the last one, and opens one
        more at the log end if that is full. */
    static method Initialize(dir: Directory, segmentBytes: nat, ghost held: seq<Held>,
                             ghost parts: seq<seq<seq<Record>>>, ghost leo: u64)
      returns (active: LogSegment, segments: seq<SegmentView>, end: nat)
      requires segmentBytes >= 1 && LeftBehind(dir.files, held, parts, leo, Contents(dir.files), segmentBytes)
      modifies dir
      ensures end == leo && fresh(active) && active.Valid() && |segments| >= 1 && active.segment == segments[|segments| - 1]
      ensures Layered(segments, Rotated(AtLeastOne(held), leo, segmentBytes), RotatedParts(AtLeastOne(held), AtLeastOnePart(parts), segmentBytes), leo,
                      dir.files, Contents(dir.files), segmentBytes)
      ensures active.batches == Last(Rotated(AtLeastOne(held), leo, segmentBytes)).batches
      ensures active.marks == Last(Rotated(AtLeastOne(held), leo, segmentBytes)).marks
      ensures active.batches == [] ==> active.AtEnd()
    {
      hide Layered, Position, Count, LogSegment.Valid, LeftBehind, AtLeastOne, AtLeastOnePart;
      ghost var h, p := AtLeastOne(held), AtLeastOnePart(parts);
      active, segments, end := OpenAll(dir, segmentBytes, held, parts, leo);
      active.Totals();
      NoneBefore([]);
      if active.size >= segmentBytes {
        assert Last(h).batches != [];
        active, segments := OpenAtEnd(dir, segments, end, segmentBytes, h, p);
      }
    }

    /** Opens every segment in the directory, in order of base offset. */
    static method OpenAll(dir: Directory, segmentBytes: nat, ghost held: seq<Held>, ghost parts: seq<seq<seq<Record>>>,
                          ghost leo: u64)
      returns (active: LogSegment, segments: seq<SegmentView>, end: nat)
      requires LeftBehind(dir.files, held, parts, leo, Contents(dir.files), segmentBytes)
      modifies dir
      ensures end == leo && fresh(active) && active.Valid() && |segments| >= 1 && active.segment == segments[|segments| - 1]
      ensures Layered(segments, AtLeastOne(held), AtLeastOnePart(parts), leo, dir.files, Contents(dir.files), segmentBytes)
      ensures active.batches == Last(AtLeastOne(held)).batches && active.marks == Last(AtLeastOne(held)).marks
      ensures active.batches == [] ==> active.AtEnd()
    {
      hide Layered, Position, Count, Written, LogSegment.Valid, SegmentView.Valid, LeftBehind, Matches, Linked,
        HeldIn, CarriesParts, Separate, ViewOf, AtLeastOne, AtLeastOnePart;
      ghost var h, p := AtLeastOne(held), AtLeastOnePart(parts);
      var names := SortedNames(dir.files.Keys);
      NamesAreBases(names, dir.files, held, parts, leo, Contents(dir.files), segmentBytes);
      active, end := OpenLast(dir, names, segmentBytes, held, parts, leo);
      ghost var contents := Contents(dir.files);
      segments := OpenEarlier(dir, names, segmentBytes, h, leo);
      assert Contents(dir.files) == contents;
      var last := active.Publish();
      segments := segments + [last];
      IsView(last, active, Last(h), dir.files);
      assert Contents(dir.files) == contents;
      AreLayers(segments, h, p, leo, dir.files, contents, segmentBytes);
    }

    /** Opens the last segment and finds the log end by counting its records. */
    static method OpenLast(dir: Directory, names: seq<nat>, segmentBytes: nat, ghost held: seq<Held>,
                           ghost parts: seq<seq<seq<Record>>>, ghost leo: u64)
      returns (active: LogSegment, end: nat)
      requires LeftBehind(dir.files, held, parts, leo, Contents(dir.files), segmentBytes) && names == Bases(held)
      modifies dir
      ensures Linked(AtLeastOne(held), leo) && CarriesParts(AtLeastOne(held), AtLeastOnePart(parts))
      ensures Separate(dir.files) && Matches(Contents(dir.files), AtLeastOne(held), segmentBytes)
      ensures fresh(active) && active.Valid() && end == leo && (active.batches == [] ==> active.AtEnd())
      ensures active.baseOffset == Last(AtLeastOne(held)).base && active.batches == Last(AtLeastOne(held)).batches
      ensures active.marks == Last(AtLeastOne(held)).marks
      ensures active.baseOffset in dir.files && dir.files[active.baseOffset] == SegmentFiles(active.log, active.index)
      ensures held == [] || names == Bases(AtLeastOne(held))
      ensures AtLeastOne(held) != [] && (held == [] ==> |AtLeastOne(held)| == 1)
    {
      hide Position, Count, Written, LogSegment.Valid, SegmentView.Valid, LeftBehind, Matches, Linked, HeldIn,
        CarriesParts, Separate, AtLeastOnePart;
      ghost var h, before := AtLeastOne(held), Contents(dir.files);
      var lastBase := if names == [] then 0 else names[|names| - 1];
      LastHeld(dir.files, held, parts, leo, before, segmentBytes);
      active := new LogSegment.Open(dir, lastBase, segmentBytes, Last(h).batches, Last(h).marks);
      ghost var now := SegmentBytes(active.log.bytes, active.index[..]);
      assert Contents(dir.files) == before[lastBase := now];
      active.Totals();
      OpenedLast(old(dir.files), held, parts, leo, before, segmentBytes, active.log, active.index, now);
      var count := active.RecordsCount();
      end := lastBase + count;
    }

    /** Opens and publishes a new segment at the log end. */
    static method OpenAtEnd(dir: Directory, shown: seq<SegmentView>, leo: u64, segmentBytes: nat, ghost h: seq<Held>,
                            ghost p: seq<seq<seq<Record>>>)
      returns (active: LogSegment, segments: seq<SegmentView>)
      requires Layered(shown, h, p, leo, dir.files, Contents(dir.files), segmentBytes) && h != [] && Last(h).batches != []
      modifies dir
      ensures Layered(segments, h + [Held(leo, [], [])], p + [[]], leo, dir.files, Contents(dir.files), segmentBytes)
      ensures fresh(active) && active.Valid() && active.batches == [] && active.marks == [] && active.AtEnd()
      ensures |segments| >= 1 && active.segment == segments[|segments| - 1]
    {
      hide Layered, Position, Count, Written, LogSegment.Valid, SegmentView.Valid;
      ghost var contents, files := Contents(dir.files), dir.files;
      UnusedName(shown, h, p, leo, files, contents, segmentBytes);
      active := OpenFresh(dir, leo, segmentBytes);
      active.Totals();
      ghost var empty := SegmentBytes(active.log.bytes, active.index[..]);
      assert Contents(dir.files) == contents[leo := empty];
      RotatedLayers(shown, h, p, leo, files, contents, segmentBytes, active.segment, empty);
      segments := shown + [active.segment];
    }

    /** Opens and publishes every segment but the last. */
    static method OpenEarlier(dir: Directory, names: seq<nat>, segmentBytes: nat, ghost h: seq<Held>, ghost leo: u64)
      returns (segments: seq<SegmentView>)
      requires Linked(h, leo) && Matches(Contents(dir.files), h, segmentBytes)
      requires h != [] && (names == Bases(h) || (names == [] && |h| == 1))
      modifies dir
      ensures dir.files == old(dir.files) && |segments| == |h| - 1
      ensures forall j :: 0 <= j < |h| - 1 ==> ViewOf(segments[j], h[j], dir.files)
    {
      hide Linked, Matches, HeldIn, Position, Count, Written, ViewOf, LogSegment.Valid, SegmentView.Valid;
      ghost var contents, files := Contents(dir.files), dir.files;
      segments := [];
      var i := 0;
      while i + 1 < |names|
        invariant 0 <= i < |h| && |segments| == i && (i > 0 ==> i < |names|)
        invariant dir.files == files && Contents(files) == contents
        invariant forall j :: 0 <= j < i ==> ViewOf(segments[j], h[j], files)
      {
        EarlierHeld(h, leo, contents, segmentBytes, i);
        var segment := new LogSegment.Open(dir, names[i], segmentBytes, h[i].batches, h[i].marks);
        var view := segment.Publish();
        IsView(view, segment, h[i], files);
        segments := segments + [view];
        assert Contents(files) == contents;
        i := i + 1;
      }
    }

    /** These views, up to this log end, show everything the directory holds. */
    ghost predicate Shows(segments: seq<SegmentView>, leo: nat)
      reads this`active, this`held, this`parts, dir, active, active.log, active.index
      reads set b | b in dir.files :: dir.files[b].log
      reads set b | b in dir.files :: dir.files[b].index
    {
      && Layered(segments, held, parts, leo, dir.files, Contents(dir.files), segmentBytes)
      && active.Valid() && active.segment == segments[|held| - 1]
      && active.batches == Last(held).batches && active.marks == Last(held).marks
    }

    ghost predicate Valid()
      reads this, dir, active, active.log, active.index
      reads set b | b in dir.files :: dir.files[b].log
      reads set b | b in dir.files :: dir.files[b].index
    {
      Shows(snapshot.segments, snapshot.logEndOffset)
    }

    /** All records of the partition, in order. */
    ghost function Log(): seq<Record>
      reads this`parts
    {
      All(parts)
    }

    ghost function Waits(): AckState
      reads this
    {
      AckState(snapshot.logEndOffset, snapshot.highWatermark, snapshot.replicas, waiting)
    }

    /** Serves a fetch from the published state. */
    method Fetch(offset: u64, maxBytes: nat) returns (response: FetchResponse)
      requires Valid()
      ensures Valid() && response.records == FetchAt(held, offset, maxBytes)
      ensures response.highWatermark == snapshot.highWatermark && response.logStartOffset == snapshot.logEndOffset
    {
      hide Shows, Layered, FetchFrom, Position, Count, SegmentView.Valid, LogSegment.Valid;
      var state := snapshot;
      ghost var contents := Contents(dir.files);
      ActiveIsLast(state.segments, state.logEndOffset);
      ghost var i := SegmentFor(state.segments, held, parts, state.logEndOffset, dir.files, segmentBytes, offset);
      var n := PartitionPoint(ViewBases(state.segments), offset);
      var records := state.segments[n - 1].Fetch(offset, maxBytes);
      response := FetchResponse(state.highWatermark, state.logEndOffset, records);
      assert Contents(dir.files) == contents;
      StillShows(state.segments, state.logEndOffset);
    }

    /** Every published view reads its segment. */
    lemma ViewsReady()
      requires Valid()
      ensures |snapshot.segments| == |held| >= 1 && Linked(held, snapshot.logEndOffset)
      ensures forall i :: 0 <= i < |held| ==>
                && snapshot.segments[i].Valid() && snapshot.segments[i].batches == held[i].batches
                && snapshot.segments[i].baseOffset == held[i].base
      ensures ViewBases(snapshot.segments) == Bases(held)
    {
      hide Chained, Position, Count, HeldIn, Separate, CarriesAll, Contents, LogSegment.Valid, SegmentView.Valid;
      forall i | 0 <= i < |held| ensures snapshot.segments[i].Valid() {
        SegmentHeld(Contents(dir.files), held, segmentBytes, i);
        ViewReads(snapshot.segments[i], held[i], dir.files, segmentBytes);
      }
    }

    /** The parts of Shows, put together again. */
    lemma StillShows(segments: seq<SegmentView>, leo: nat)
      requires Layered(segments, held, parts, leo, dir.files, Contents(dir.files), segmentBytes)
      requires |segments| == |held| >= 1 && active.Valid() && active.segment == segments[|held| - 1]
      requires active.batches == Last(held).batches && active.marks == Last(held).marks
      ensures Shows(segments, leo)
    {
    }

    /** Appends one batch of records at the log end, whatever base offset it came with, and
        opens a new segment once the active one is full. */
    method Append(batch: RecordBatch, acks: Acks, client: nat, ghost records: seq<Record>) returns (reply: Option<nat>)
      requires Valid() && active.AtEnd()
      requires Carries(batch, records) && Numbered(records, 0)
      requires snapshot.logEndOffset + |records| < 0x1_0000_0000_0000_0000
      requires active.size + DiskSize(batch) < 0x1_0000_0000_0000_0000
      modifies this, dir, active, active.log, active.index
      ensures Valid() && active.AtEnd()
      ensures Log() == old(Log()) + records && snapshot.logEndOffset == old(snapshot).logEndOffset + |records|
      ensures Waits() == Next(old(Waits()), Appended(|records|, acks.AcksAll?, client))
      ensures reply == if acks.AcksAll? then None else Some(old(snapshot).logEndOffset)
      ensures waiting == old(waiting) +
                if acks.AcksAll? then [Waiting(snapshot.logEndOffset, old(snapshot).logEndOffset, client)] else []
      ensures snapshot.replicas == old(snapshot).replicas
      ensures snapshot.highWatermark == old(snapshot).highWatermark + if snapshot.replicas == [] then |records| else 0
      ensures active == old(active) <==> old(active.size) + DiskSize(batch) < segmentBytes
      ensures active == old(active) ==> active.size == old(active.size) + DiskSize(batch)
      ensures active != old(active) ==>
                active.size == 0 && active.baseOffset == snapshot.logEndOffset
                && fresh(active) && fresh(active.log) && fresh(active.index)
      ensures active.size <= old(active.size) + DiskSize(batch)
      ensures var stored := batch.(baseOffset := old(snapshot).logEndOffset);
              held == Rotated(Grown(old(held), stored, old(active).marks), snapshot.logEndOffset, segmentBytes)
    {
      hide Shows, PartitionActor.Valid, Position, Count, Carries, Numbered, LogSegment.Valid, Rotated, Grown, Log;
      CarriesAnywhere(batch, records, snapshot.logEndOffset);
      var state := snapshot;
      var leo := state.logEndOffset;
      var baseOffset := leo;
      var record := batch.(baseOffset := leo);
      var segments := Store(record, records);
      leo := leo + record.recordsCount;
      var hw := state.highWatermark;
      if state.replicas == [] { hw := hw + record.recordsCount; }
      Install(PartitionState(segments, leo, hw, state.replicas));
      if acks.AcksAll? {
        Enqueue(Waiting(leo, baseOffset, client));
        reply := None;
      } else {
        reply := Some(baseOffset);
      }
    }

    /** The storage side of an append: the batch goes to the active segment, and a full segment
        is followed by a new one. */
    method Store(record: RecordBatch, ghost records: seq<Record>) returns (segments: seq<SegmentView>)
      requires Valid() && active.AtEnd()
      requires Carries(record, records) && Numbered(records, 0) && record.baseOffset == snapshot.logEndOffset
      requires snapshot.logEndOffset + |records| < 0x1_0000_0000_0000_0000
      requires active.size + DiskSize(record) < 0x1_0000_0000_0000_0000
      modifies this`held, this`parts, this`active, dir, active, active.log, active.index
      ensures Shows(segments, snapshot.logEndOffset + |records|) && active.AtEnd()
      ensures Log() == old(Log()) + records
      ensures active == old(active) <==> old(active.size) + DiskSize(record) < segmentBytes
      ensures active == old(active) ==> active.size == old(active.size) + DiskSize(record)
      ensures active != old(active) ==>
                active.size == 0 && active.baseOffset == snapshot.logEndOffset + |records|
                && fresh(active) && fresh(active.log) && fresh(active.index)
      ensures held == Rotated(Grown(old(held), record, old(active).marks), snapshot.logEndOffset + |records|, segmentBytes)
    {
      hide Shows, Layered, Position, Count, Carries, Numbered, LogSegment.Valid, Log;
      var leo := snapshot.logEndOffset + record.recordsCount;
      CarriesAnywhere(record, records, snapshot.logEndOffset);
      segments := AppendToActive(record, records);
      ActiveIsLast(segments, leo);
      if active.size >= segmentBytes {
        segments := Rotate(segments, leo);
      }
    }

    /** The active segment is the last one of the directory, and shares no file with another. */
    lemma ActiveIsLast(segments: seq<SegmentView>, leo: nat)
      requires Shows(segments, leo)
      ensures Layered(segments, held, parts, leo, dir.files, Contents(dir.files), segmentBytes)
      ensures |segments| == |held| == |parts| >= 1 && active.Valid() && active.segment == segments[|held| - 1]
      ensures active.baseOffset == Last(held).base && active.batches == Last(held).batches && active.marks == Last(held).marks
      ensures leo == End(active.batches, active.baseOffset)
      ensures active.size == Position(active.batches, |active.batches|) == |active.log.bytes| < 0x1_0000_0000_0000_0000
      ensures active.baseOffset in dir.files && dir.files[active.baseOffset] == SegmentFiles(active.log, active.index)
      ensures forall b :: b in dir.files && b != active.baseOffset ==> dir.files[b].log != active.log && dir.files[b].index != active.index
    {
      hide Position, Count, Chained, CarriesAll, Matches, Contents, Written, Sound;
      active.Totals();
    }

    /** A replica reports its log end: the watermark follows, and the producers at the front of
        the queue that it reaches are answered, one by one. */
    method UpdateReplicaLeo(id: nat, leo: nat) returns (answered: seq<Waiting>)
      requires Valid()
      modifies this`snapshot, this`waiting
      ensures Valid() && snapshot.segments == old(snapshot.segments)
      ensures Waits() == Next(old(Waits()), Acked(id, leo)) && answered == ReplicaAcks.Answered(old(Waits()), Acked(id, leo))
    {
      hide Shows, Raise, WatermarkOf, Reached, Next, ReplicaAcks.Answered;
      ghost var was := Waits();
      var replicas := Raise(snapshot.replicas, id, leo);
      var next := snapshot.(replicas := replicas, highWatermark := WatermarkOf(replicas, snapshot.highWatermark));
      answered := AnswerReached(next.highWatermark);
      AnsweredAre(was, id, leo, answered, waiting);
      Install(next);
    }

    /** Cuts the log at an offset below its end: files of segments that start at or after it are
        removed, a segment that straddles it is kept as it is, and a fresh segment starts at it.
        At the start of a segment this leaves exactly the log below the offset. */
    method HandleTruncate(offset: u64)
      requires Valid()
      modifies this`snapshot, this`active, this`held, this`parts, dir
      ensures Waits() == Next(old(Waits()), CutAt(offset))
      ensures active == old(active) || (fresh(active) && fresh(active.log) && fresh(active.index) && active.size == 0)
      ensures offset >= old(snapshot).logEndOffset ==>
                Valid() && snapshot == old(snapshot) && active == old(active) && held == old(held) && Log() == old(Log())
      ensures offset < old(snapshot).logEndOffset ==>
                && held == Cut(old(held), offset) && snapshot.logEndOffset == offset && snapshot.replicas == old(snapshot).replicas
                && snapshot.highWatermark == (if old(snapshot).highWatermark <= offset then old(snapshot).highWatermark else offset)
                && ViewsOf(snapshot.segments, held, dir.files)
      ensures offset < old(snapshot).logEndOffset && offset in Bases(old(held)) ==>
                Valid() && active.AtEnd() && offset <= |old(Log())| && Log() == old(Log())[..offset]
    {
      hide Layered, Position, Count, Shows, LogSegment.Valid, SegmentView.Valid, Cut, Bases, Below, Before,
        PartitionActor.Log, ViewOf;
      if offset >= snapshot.logEndOffset { return; }
      var state := snapshot;
      ghost var before, files := Contents(dir.files), dir.files;
      ActiveIsLast(state.segments, state.logEndOffset);
      var segments := OpenAt(state.segments, offset);
      NoteCut(state.segments, state.logEndOffset, files, before, offset);
      var hw := if state.highWatermark <= offset then state.highWatermark else offset;
      Install(PartitionState(segments, offset, hw, state.replicas));
    }

    /** Brings what the actor is known to hold up to date with the cut. */
    ghost method NoteCut(shown: seq<SegmentView>, leo: nat, files: map<nat, SegmentFiles>,
                         before: map<nat, SegmentBytes>, offset: u64)
      requires Layered(shown, held, parts, leo, files, before, segmentBytes) && offset < leo && |parts| == |held| == |shown|
      requires forall b :: b in files ==> files[b].log != active.log && files[b].index != active.index
      requires active.Valid() && active.baseOffset == offset && active.batches == [] && active.marks == []
      requires active.segment.batches == [] && active.segment.marks == [] && active.segment.baseOffset == offset
      requires active.segment.indexCount == active.indexCount == 0 && active.segment.size == active.size == 0
      requires active.segment.log == active.log && active.segment.index == active.index
      requires active.index.Length == IndexBytes(segmentBytes)
      requires dir.files == Below(files, offset)[offset := SegmentFiles(active.log, active.index)]
      requires Contents(dir.files) == Below(before, offset)[offset := SegmentBytes(active.log.bytes, active.index[..])]
      modifies this`held, this`parts
      ensures held == Cut(old(held), offset)
      ensures Before(old(held), offset) <= |shown| && ViewsOf(shown[..Before(old(held), offset)] + [active.segment], held, dir.files)
      ensures offset in Bases(old(held)) ==>
                && Shows(shown[..Before(old(held), offset)] + [active.segment], offset)
                && offset <= |old(Log())| && Log() == old(Log())[..offset]
    {
      hide Layered, Position, Count, Shows, LogSegment.Valid, SegmentView.Valid, Cut, CutParts, All, Bases, Below,
        Before;
      ghost var h, p, contents := held, parts, Contents(dir.files);
      CutViews(shown, h, p, leo, files, before, segmentBytes, offset, active.segment);
      held := Cut(held, offset);
      parts := CutParts(h, parts, offset);
      assert Contents(dir.files) == contents;
      if offset in Bases(h) {
        CutShows(shown, h, p, leo, files, before, offset);
      }
    }

    /** The log ends where the state says. */
    lemma LogLength()
      requires Valid()
      ensures |Log()| == snapshot.logEndOffset
    {
      hide Matches, ViewsOf, Linked, CarriesParts, LogSegment.Valid, Last, All;
      LayerLengths(snapshot.segments, held, parts, snapshot.logEndOffset, dir.files, Contents(dir.files), segmentBytes);
      AllPrefix(held, parts, snapshot.logEndOffset, 0);
    }

    /** Removes the segments from the offset on and opens a fresh one there. */
    method OpenAt(shown: seq<SegmentView>, offset: u64) returns (segments: seq<SegmentView>)
      requires Shows(shown, snapshot.logEndOffset)
      modifies this`active, dir
      ensures Before(held, offset) <= |shown| && segments == shown[..Before(held, offset)] + [active.segment]
      ensures active.Valid() && active.AtEnd() && active.baseOffset == offset && active.batches == [] && active.marks == []
      ensures active.segment.baseOffset == offset && active.segment.batches == [] && active.segment.marks == []
      ensures active.segment.log == active.log && active.segment.index == active.index
      ensures active.segment.indexCount == active.indexCount == 0 && active.segment.size == active.size == 0
      ensures forall b :: b in old(dir.files) ==> old(dir.files)[b].log != active.log && old(dir.files)[b].index != active.index
      ensures active.index.Length == IndexBytes(segmentBytes)
      ensures fresh(active) && fresh(active.log) && fresh(active.index)
      ensures dir.files == Below(old(dir.files), offset)[offset := SegmentFiles(active.log, active.index)]
      ensures Contents(dir.files) == Below(old(Contents(dir.files)), offset)[offset := SegmentBytes(active.log.bytes, active.index[..])]
    {
      hide Layered, Position, Count, Shows, LogSegment.Valid, SegmentView.Valid, Before, Written, IndexBytes, Sound,
        Chained, Below, Names;
      ghost var files, contents := dir.files, Contents(dir.files);
      NamesShown(shown, snapshot.logEndOffset, offset);
      var kept := KeepBefore(dir, shown, offset, Before(held, offset));
      BelowContents(files, offset);
      assert Contents(dir.files) == Below(contents, offset);
      BelowNames(files, offset);
      active := OpenFresh(dir, offset, segmentBytes);
      segments := kept + [active.segment];
    }

    lemma NamesShown(shown: seq<SegmentView>, leo: nat, offset: nat)
      requires Shows(shown, leo)
      ensures |shown| == |held| && Names(shown, dir.files)
      ensures forall i :: 0 <= i < |shown| ==> (shown[i].baseOffset < offset <==> i < Before(held, offset))
    {
      hide Layered, Names, Before;
      ghost var files, contents := dir.files, Contents(dir.files);
      ActiveIsLast(shown, leo);
      ContentsNames(files);
      LayersNamed(shown, held, parts, leo, files, contents, segmentBytes);
      ViewsInOrder(shown, held, parts, leo, files, contents, segmentBytes, offset);
    }

    /** The views of segments that start before the offset; removes the files of the others. */
    static method KeepBefore(dir: Directory, segments: seq<SegmentView>, offset: nat, ghost n: nat)
      returns (kept: seq<SegmentView>)
      requires n <= |segments| && Names(segments, dir.files)
      requires forall i :: 0 <= i < |segments| ==> (segments[i].baseOffset < offset <==> i < n)
      modifies dir
      ensures kept == segments[..n] && dir.files == Below(old(dir.files), offset)
    {
      ghost var files, removed := dir.files, {};
      kept := [];
      var i := 0;
      while i < |segments|
        invariant 0 <= i <= |segments| && kept == segments[..if i <= n then i else n]
        invariant dir.files == files - removed
        invariant forall b :: b in removed ==> b >= offset
        invariant forall j :: n <= j < i ==> segments[j].baseOffset in removed
      {
        if segments[i].baseOffset < offset {
          kept := kept + [segments[i]];
        } else {
          removed := removed + {segments[i].baseOffset};
          dir.files := dir.files - {segments[i].baseOffset};
        }
        i := i + 1;
      }
    }

    /** A clean cut shows the log below the offset. */
    lemma CutShows(shown: seq<SegmentView>, h: seq<Held>, p: seq<seq<seq<Record>>>, leo: nat,
                   files: map<nat, SegmentFiles>,
                   before: map<nat, SegmentBytes>, offset: u64)
      requires Layered(shown, h, p, leo, files, before, segmentBytes) && offset < leo && offset in Bases(h) && |p| == |h|
      requires held == Cut(h, offset) && parts == CutParts(h, p, offset) && Before(h, offset) <= |shown|
      requires forall b :: b in files ==> files[b].log != active.log && files[b].index != active.index
      requires active.Valid() && active.baseOffset == offset && active.batches == [] && active.marks == []
      requires active.segment.batches == [] && active.segment.marks == [] && active.segment.baseOffset == offset
      requires active.segment.indexCount == active.indexCount && active.segment.size == active.size
      requires active.segment.log == active.log && active.segment.index == active.index
      requires active.index.Length == IndexBytes(segmentBytes)
      requires dir.files == Below(files, offset)[offset := SegmentFiles(active.log, active.index)]
      requires Contents(dir.files) == Below(before, offset)[offset := SegmentBytes(active.log.bytes, active.index[..])]
      ensures Shows(shown[..Before(h, offset)] + [active.segment], offset)
      ensures offset <= |All(p)| && Log() == All(p)[..offset]
    {
      hide Layered, Position, Count, Sound, Written, SegmentView.Valid, Cut, CutParts, All, Bases, Before;
      active.Totals();
      EmptyPosition();
      CutLayers(shown, h, p, leo, files, before, segmentBytes, offset, active.segment, SegmentBytes(active.log.bytes, active.index[..]));
      LayerLengths(shown[..Before(h, offset)] + [active.segment], held, parts, offset, dir.files, Contents(dir.files), segmentBytes);
      LastOfCut(h, offset);
    }

    /** Takes producers off the front of the queue while the watermark reaches them. */
    method AnswerReached(hw: nat) returns (answered: seq<Waiting>)
      requires Valid()
      modifies this`waiting
      ensures Valid() && old(waiting) == answered + waiting && |answered| == Reached(old(waiting), hw)
    {
      hide Shows, PartitionActor.Valid, Reached;
      answered := [];
      while waiting != []
        invariant Valid() && old(waiting) == answered + waiting
        invariant Reached(old(waiting), hw) == |answered| + Reached(waiting, hw)
        decreases |waiting|
      {
        ReachedUnfolds(waiting, hw);
        var ack := waiting[0];
        if ack.hw > hw { break; }
        answered := answered + [ack];
        Dequeue();
      }
      ReachedUnfolds(waiting, hw);
    }

    method Dequeue()
      requires Valid() && waiting != []
      modifies this`waiting
      ensures Valid() && waiting == old(waiting)[1..]
    {
      hide Layered, Sound;
      ghost var contents := Contents(dir.files);
      waiting := waiting[1..];
      assert Contents(dir.files) == contents;
    }

    /** Publishes a new state. */
    method Install(state: PartitionState)
      modifies this`snapshot
      ensures snapshot == state
      ensures old(Shows(state.segments, state.logEndOffset)) ==> Valid()
    {
      hide Layered, Sound;
      ghost var contents := Contents(dir.files);
      snapshot := state;
      assert Contents(dir.files) == contents;
    }

    method Enqueue(w: Waiting)
      requires Valid()
      modifies this`waiting
      ensures Valid() && waiting == old(waiting) + [w]
    {
      hide Layered, Sound;
      ghost var contents := Contents(dir.files);
      waiting := waiting + [w];
      assert Contents(dir.files) == contents;
    }

    method AppendToActive(record: RecordBatch, ghost records: seq<Record>) returns (segments: seq<SegmentView>)
      requires Valid() && active.AtEnd()
      requires Carries(record, records) && Numbered(records, 0) && record.baseOffset == snapshot.logEndOffset
      requires snapshot.logEndOffset + |records| < 0x1_0000_0000_0000_0000
      requires active.size + DiskSize(record) < 0x1_0000_0000_0000_0000
      modifies this`held, this`parts, active, active.log, active.index
      ensures Shows(segments, snapshot.logEndOffset + |records|) && active.AtEnd()
      ensures active.size == old(active.size) + DiskSize(record)
      ensures Log() == old(Log()) + records && held == Grown(old(held), record, active.marks)
    {
      hide Layered, Position, Count, Carries, Numbered, LengthMatches, Sound, AfterAppend, MarksAfter, WithRecords,
        Written, Follows, Grown, Chained, Stored, Indexed, SegmentView.Valid, Shows, LogSegment.Valid;
      ActiveIsLast(snapshot.segments, snapshot.logEndOffset);
      FollowsHere(record, records, active.baseOffset, active.batches);
      ghost var before := Contents(dir.files);
      var current := active.AppendAndPublish(record);
      segments := snapshot.segments[..|snapshot.segments| - 1] + [current];
      assert Contents(dir.files) == before[active.baseOffset := SegmentBytes(active.log.bytes, active.index[..])];
      NoteRecords(record, records, current, before);
    }

    /** Brings what the actor is known to hold up to date with its active segment. */
    ghost method NoteRecords(record: RecordBatch, records: seq<Record>, current: SegmentView,
                             before: map<nat, SegmentBytes>)
      requires Layered(snapshot.segments, held, parts, snapshot.logEndOffset, dir.files, before, segmentBytes)
      requires |snapshot.segments| == |held| == |parts| >= 1
      requires Carries(record, records) && Numbered(records, 0) && record.baseOffset == snapshot.logEndOffset
      requires active.Valid() && active.segment == current && active.baseOffset == Last(held).base
      requires active.batches == Last(held).batches + [record]
      requires current.baseOffset == active.baseOffset && current.log == active.log && current.index == active.index
      requires current.batches == active.batches && current.marks == active.marks
      requires current.indexCount == active.indexCount && current.size == active.size
      requires active.baseOffset in dir.files && dir.files[active.baseOffset] == SegmentFiles(active.log, active.index)
      requires active.baseOffset in before && |before[active.baseOffset].index| == active.index.Length
      requires Contents(dir.files) == before[active.baseOffset := SegmentBytes(active.log.bytes, active.index[..])]
      modifies this`held, this`parts
      ensures Shows(snapshot.segments[..|snapshot.segments| - 1] + [current], snapshot.logEndOffset + |records|)
      ensures Log() == old(Log()) + records && held == Grown(old(held), record, active.marks) && Last(held).batches == active.batches
    {
      hide Layered, Position, Count, Carries, Numbered, LengthMatches, Sound, WithRecords, Written;
      ghost var contents := Contents(dir.files);
      active.Totals();
      GrownLayers(snapshot.segments, held, parts, snapshot.logEndOffset, dir.files, before, segmentBytes, record, records, current,
                  SegmentBytes(active.log.bytes, active.index[..]));
      held := Grown(held, record, active.marks);
      parts := WithRecords(parts, records);
      assert Contents(dir.files) == contents;
    }

    method Rotate(shown: seq<SegmentView>, leo: u64) returns (segments: seq<SegmentView>)
      requires Shows(shown, leo) && Last(held).batches != []
      modifies this`held, this`parts, this`active, dir
      ensures Shows(segments, leo) && active.AtEnd() && active.size == 0 && active.baseOffset == leo
      ensures fresh(active) && fresh(active.log) && fresh(active.index)
      ensures held == old(held) + [Held(leo, [], [])] && Log() == old(Log())
    {
      hide Layered, Position, Count, Written, Shows, LogSegment.Valid, SegmentView.Valid;
      ghost var before, files := Contents(dir.files), dir.files;
      ActiveIsLast(shown, leo);
      UnusedName(shown, held, parts, leo, files, before, segmentBytes);
      active := OpenFresh(dir, leo, segmentBytes);
      segments := shown + [active.segment];
      assert Contents(dir.files) == before[leo := SegmentBytes(active.log.bytes, active.index[..])];
      NoteSegment(shown, leo, files, before);
    }

    ghost method NoteSegment(shown: seq<SegmentView>, leo: u64, files: map<nat, SegmentFiles>,
                             before: map<nat, SegmentBytes>)
      requires Layered(shown, held, parts, leo, files, before, segmentBytes)
      requires |shown| == |held| == |parts| >= 1 && Last(held).batches != []
      requires active.Valid() && active.baseOffset == leo && active.batches == [] && active.marks == []
      requires active.segment.batches == [] && active.segment.marks == []
      requires active.segment.indexCount == active.indexCount && active.segment.size == active.size
      requires leo !in files && dir.files == files[leo := SegmentFiles(active.log, active.index)]
      requires forall b :: b in files ==> files[b].log != active.log && files[b].index != active.index
      requires active.index.Length == IndexBytes(segmentBytes)
      requires Contents(dir.files) == before[leo := SegmentBytes(active.log.bytes, active.index[..])]
      modifies this`held, this`parts
      ensures Shows(shown + [active.segment], leo)
      ensures held == old(held) + [Held(leo, [], [])] && Log() == old(Log())
    {
      hide Layered, Position, Count, Sound, Written;
      ghost var contents := Contents(dir.files);
      active.Totals();
      NoneBefore([]);
      RotatedLayers(shown, held, parts, leo, files, before, segmentBytes, active.segment, SegmentBytes(active.log.bytes, active.index[..]));
      held := held + [Held(leo, [], [])];
      parts := parts + [[]];
      assert Contents(dir.files) == contents;
    }
  }

  /** What a valid partition leaves behind can be opened again. */
  lemma ValidLeavesLog(actor: PartitionActor)
    requires actor.Valid()
    ensures LeftBehind(actor.dir.files, actor.held, actor.parts, actor.snapshot.logEndOffset, Contents(actor.dir.files), actor.segmentBytes)
    ensures Linked(actor.held, actor.snapshot.logEndOffset) && actor.held != []
  {
    hide Separate, Matches, Contents, CarriesParts, ViewOf;
  }

  /** Fetches, opens the directory again as after a restart, and fetches again: the same log
      end, the same segments as last published, and the same answer. */
  method FetchAcrossRestart(actor: PartitionActor, replicas: seq<Replica>, offset: u64, maxBytes: nat)
    returns (before: FetchResponse, reopened: PartitionActor, after: FetchResponse)
    requires actor.Valid() && actor.segmentBytes >= 1 && actor.snapshot.logEndOffset < 0x1_0000_0000_0000_0000
    modifies actor.dir
    ensures reopened.Valid() && reopened.held == Rotated(old(actor.held), old(actor.snapshot.logEndOffset), actor.segmentBytes)
    ensures reopened.snapshot.logEndOffset == old(actor.snapshot.logEndOffset) && reopened.Log() == old(actor.Log())
    ensures before.records == after.records && before.logStartOffset == after.logStartOffset
  {
    hide Layered, PartitionActor.Shows, LogSegment.Valid, LeftBehind, FetchAt, Position, Linked;
    before := actor.Fetch(offset, maxBytes);
    ValidLeavesLog(actor);
    ghost var held, leo := actor.held, actor.snapshot.logEndOffset;
    reopened := new PartitionActor(actor.dir, actor.segmentBytes, replicas, held, actor.parts, leo);
    after := reopened.Fetch(offset, maxBytes);
    RotationChangesNothing(held, leo, actor.segmentBytes, offset, maxBytes);
  }

  lemma RotationChangesNothing(held: seq<Held>, leo: nat, segmentBytes: nat, offset: u64, maxBytes: nat)
    requires Linked(held, leo) && held != [] && segmentBytes >= 1
    ensures FetchAt(Rotated(held, leo, segmentBytes), offset, maxBytes) == FetchAt(held, offset, maxBytes)
  {
    hide FetchAt, Linked;
    if Position(Last(held).batches, |Last(held).batches|) >= segmentBytes {
      EmptySegmentChangesNothing(held, leo, offset, maxBytes);
    }
  }

  lemma AnsweredAre(s: AckState, id: nat, leo: nat, answered: seq<Waiting>, left: seq<Waiting>)
    requires s.waiting == answered + left
    requires |answered| == Reached(s.waiting, WatermarkOf(Raise(s.replicas, id, leo), s.highWatermark))
    ensures answered == ReplicaAcks.Answered(s, Acked(id, leo))
    ensures var replicas := Raise(s.replicas, id, leo);
            Next(s, Acked(id, leo)) == AckState(s.logEndOffset, WatermarkOf(replicas, s.highWatermark), replicas, left)
  {
    hide Reached, Raise, WatermarkOf;
  }

  lemma ReachedUnfolds(waiting: seq<Waiting>, hw: nat)
    ensures Reached(waiting, hw) == if waiting == [] || waiting[0].hw > hw then 0 else 1 + Reached(waiting[1..], hw)
  {
  }

  lemma UnusedName(views: seq<SegmentView>, held: seq<Held>, parts: seq<seq<seq<Record>>>, leo: nat,
                   files: map<nat, SegmentFiles>, contents: map<nat, SegmentBytes>, segmentBytes: nat)
    requires Layered(views, held, parts, leo, files, contents, segmentBytes) && held != [] && Last(held).batches != []
    requires contents.Keys == files.Keys
    ensures leo !in files && |views| == |held|
  {
    hide Separate, HeldIn, ViewOf, CarriesAll, Chained;
    RotatedLinks(held, leo);
  }

  /** A fresh, empty segment is added at the log end. */
  lemma RotatedLayers(views: seq<SegmentView>, held: seq<Held>, parts: seq<seq<seq<Record>>>, leo: u64,
                      files: map<nat, SegmentFiles>, contents: map<nat, SegmentBytes>, segmentBytes: nat,
                      view: SegmentView, now: SegmentBytes)
    requires Layered(views, held, parts, leo, files, contents, segmentBytes) && held != [] && Last(held).batches != []
    requires leo !in files && forall b :: b in files ==> files[b].log != view.log && files[b].index != view.index
    requires view.baseOffset == leo && view.batches == [] && view.marks == [] && view.indexCount == 0 && view.size == 0
    requires |now.index| == IndexBytes(segmentBytes) && Written(now.log, now.index, leo, [], [])
    ensures Layered(views + [view], held + [Held(leo, [], [])], parts + [[]], leo,
                    files[leo := SegmentFiles(view.log, view.index)], contents[leo := now], segmentBytes)
    ensures All(parts + [[]]) == All(parts)
  {
    hide Linked, CarriesParts, Matches, HeldIn, Written, IndexBytes;
    RotatedLinks(held, leo);
    RotatedCarries(held, parts, leo);
    RotatedMatches(contents, held, leo, segmentBytes, now);
    NoneBefore([]);
  }

  lemma CarriesAnywhere(b: RecordBatch, records: seq<Record>, offset: u64)
    requires Carries(b, records)
    ensures Carries(b.(baseOffset := offset), records) && b.recordsCount == |records| >= 1
  {
  }

  function Below<T>(m: map<nat, T>, offset: nat): map<nat, T> { map b | b in m && b < offset :: m[b] }

  lemma BelowContents(files: map<nat, SegmentFiles>, offset: nat)
    ensures Contents(Below(files, offset)) == Below(Contents(files), offset)
  {
  }

  lemma BelowNames<T>(m: map<nat, T>, offset: nat)
    ensures offset !in Below(m, offset) && forall b :: b in Below(m, offset) ==> b in m && Below(m, offset)[b] == m[b]
  {
  }

  lemma ContentsNames(files: map<nat, SegmentFiles>)
    ensures Contents(files).Keys == files.Keys
  {
  }

  lemma ViewsInOrder(views: seq<SegmentView>, held: seq<Held>, parts: seq<seq<seq<Record>>>, leo: nat,
                     files: map<nat, SegmentFiles>, contents: map<nat, SegmentBytes>, segmentBytes: nat, offset: nat)
    requires Layered(views, held, parts, leo, files, contents, segmentBytes) && contents.Keys == files.Keys
    ensures |views| == |held| >= 1 && Before(held, offset) <= |held| && views[0].baseOffset == 0
    ensures forall i :: 0 <= i < |views| ==> (views[i].baseOffset < offset <==> i < Before(held, offset))
  {
    hide CarriesParts, Separate, HeldIn, Position, Chained, Before;
    var n := Before(held, offset);
    forall i | 0 <= i < |views| ensures views[i].baseOffset < offset <==> i < n {
      assert views[i].baseOffset == held[i].base;
      if n <= i { BasesIncrease(held, leo, n, i); }
    }
  }

  /** The files are those of the views, under the offsets they start at. */
  ghost predicate Names(views: seq<SegmentView>, files: map<nat, SegmentFiles>) {
    && (forall i :: 0 <= i < |views| ==> views[i].baseOffset in files)
    && (forall b :: b in files ==> exists i :: 0 <= i < |views| && views[i].baseOffset == b)
  }

  lemma LayersNamed(views: seq<SegmentView>, held: seq<Held>, parts: seq<seq<seq<Record>>>, leo: nat,
                    files: map<nat, SegmentFiles>, contents: map<nat, SegmentBytes>, segmentBytes: nat)
    requires Layered(views, held, parts, leo, files, contents, segmentBytes) && contents.Keys == files.Keys
    ensures Names(views, files)
  {
    hide CarriesParts, Separate, HeldIn, Position, Linked;
    forall b | b in files ensures exists i :: 0 <= i < |views| && views[i].baseOffset == b {
      assert b in Bases(held);
      var j :| 0 <= j < |held| && Bases(held)[j] == b;
      assert views[j].baseOffset == b;
    }
  }

  lemma CutViews(views: seq<SegmentView>, held: seq<Held>, parts: seq<seq<seq<Record>>>, leo: nat,
                 files: map<nat, SegmentFiles>, contents: map<nat, SegmentBytes>, segmentBytes: nat, offset: nat, view: SegmentView)
    requires Layered(views, held, parts, leo, files, contents, segmentBytes)
    requires view.baseOffset == offset && view.batches == [] && view.marks == [] && view.indexCount == 0 && view.size == 0
    ensures Before(held, offset) <= |views|
    ensures ViewsOf(views[..Before(held, offset)] + [view], Cut(held, offset),
                    Below(files, offset)[offset := SegmentFiles(view.log, view.index)])
  {
    hide Linked, CarriesParts, Separate, Matches, Position, Before;
    EmptyPosition();
  }

  lemma EmptyPosition()
    ensures Position([], 0) == 0
  {
  }

  /** At the start of a segment, the cut leaves the layers of the log below the offset. */
  lemma CutLayers(views: seq<SegmentView>, held: seq<Held>, parts: seq<seq<seq<Record>>>, leo: nat,
                  files: map<nat, SegmentFiles>, contents: map<nat, SegmentBytes>, segmentBytes: nat, offset: u64,
                  view: SegmentView, now: SegmentBytes)
    requires Layered(views, held, parts, leo, files, contents, segmentBytes) && offset < leo && offset in Bases(held)
    requires forall b :: b in files ==> files[b].log != view.log && files[b].index != view.index
    requires view.baseOffset == offset && view.batches == [] && view.marks == [] && view.indexCount == 0 && view.size == 0
    requires |now.index| == IndexBytes(segmentBytes) && Written(now.log, now.index, offset, [], [])
    ensures |parts| == |held| && Before(held, offset) <= |views|
    ensures Layered(views[..Before(held, offset)] + [view], Cut(held, offset), CutParts(held, parts, offset), offset,
                    Below(files, offset)[offset := SegmentFiles(view.log, view.index)], Below(contents, offset)[offset := now], segmentBytes)
    ensures offset <= |All(parts)| && All(CutParts(held, parts, offset)) == All(parts)[..offset]
  {
    hide Linked, CarriesParts, HeldIn, Written, Cut, CutParts, Before, ViewsOf, Matches, IndexBytes, Bases;
    SameLength(held, parts);
    CleanCut(held, parts, leo, offset);
    CutViews(views, held, parts, leo, files, contents, segmentBytes, offset, view);
    CutMatches(contents, held, leo, segmentBytes, offset, now);
  }

  lemma CutMatches(contents: map<nat, SegmentBytes>, held: seq<Held>, leo: nat, segmentBytes: nat, offset: u64,
                   now: SegmentBytes)
    requires Matches(contents, held, segmentBytes) && Linked(held, leo) && offset in Bases(held)
    requires |now.index| == IndexBytes(segmentBytes) && Written(now.log, now.index, offset, [], [])
    ensures Matches(Below(contents, offset)[offset := now], Cut(held, offset), segmentBytes)
  {
    hide Linked, HeldIn, Before;
    CutAtStart(held, leo, offset);
    var n, cut, after := Before(held, offset), Cut(held, offset), Below(contents, offset)[offset := now];
    assert HeldIn(after, Held(offset, [], []), segmentBytes) by { JustHeld(after, Held(offset, [], []), segmentBytes); }
    forall i | 0 <= i < |cut| ensures HeldIn(after, cut[i], segmentBytes) {
      if i < n {
        assert HeldIn(contents, held[i], segmentBytes);
        assert Bases(held)[i] == held[i].base;
        SameHeld(contents, after, held[i], segmentBytes);
      }
    }
    forall b ensures b in after <==> b in Bases(cut) {
      if b in after && b != offset {
        var i :| 0 <= i < |held| && Bases(held)[i] == b;
        if n <= i { BasesIncrease(held, leo, n, i); }
        assert Bases(cut)[i] == b;
      }
      if b in Bases(cut) {
        var i :| 0 <= i < |cut| && Bases(cut)[i] == b;
        if i < n { assert Bases(held)[i] == b; }
      }
      assert Bases(cut)[n] == offset;
    }
  }

  lemma LastOfCut(held: seq<Held>, offset: nat)
    ensures Cut(held, offset) != [] && Last(Cut(held, offset)) == Held(offset, [], [])
  {
  }

  lemma JustHeld(contents: map<nat, SegmentBytes>, h: Held, segmentBytes: nat)
    requires h.base in contents && |contents[h.base].index| == IndexBytes(segmentBytes)
    requires Written(contents[h.base].log, contents[h.base].index, h.base, h.batches, h.marks)
    ensures HeldIn(contents, h, segmentBytes)
  {
  }

  lemma SameHeld(contents: map<nat, SegmentBytes>, after: map<nat, SegmentBytes>, h: Held, segmentBytes: nat)
    requires HeldIn(contents, h, segmentBytes) && h.base in after && (h.base in contents ==> after[h.base] == contents[h.base])
    ensures HeldIn(after, h, segmentBytes)
  {
  }

  lemma FollowsHere(b: RecordBatch, records: seq<Record>, base: nat, bs: seq<RecordBatch>)
    requires Carries(b, records)
    ensures b.recordsCount == |records| >= 1 && LengthMatches(b)
    ensures
      && b.baseOffset == End(bs, base) && b.baseOffset + |records| < 0x1_0000_0000_0000_0000
      && Position(bs, |bs|) + DiskSize(b) < 0x1_0000_0000_0000_0000
      ==> Follows(b, base, bs)
  {
    CarriedCount(b, records);
  }

  lemma GrownViews(views: seq<SegmentView>, held: seq<Held>, files: map<nat, SegmentFiles>, b: RecordBatch,
                   current: SegmentView)
    requires held != [] && ViewsOf(views, held, files)
    requires ViewOf(current, Held(Last(held).base, Last(held).batches + [b], current.marks), files)
    ensures ViewsOf(views[..|views| - 1] + [current], Grown(held, b, current.marks), files)
  {
    hide ViewOf;
  }

  /** The names of the log files, in order. */
  method SortedNames(names: set<nat>) returns (sorted: seq<nat>)
    ensures forall b :: b in sorted <==> b in names
    ensures forall i, j :: 0 <= i < j < |sorted| ==> sorted[i] < sorted[j]
  {
    sorted := [];
    var left := names;
    while left != {}
      invariant left <= names
      invariant forall b :: b in sorted <==> b in names - left
      invariant forall i, j :: 0 <= i < j < |sorted| ==> sorted[i] < sorted[j]
      decreases |left|
    {
      var b :| b in left;
      var at := 0;
      while at < |sorted| && sorted[at] < b
        invariant 0 <= at <= |sorted|
        invariant forall i :: 0 <= i < at ==> sorted[i] < b
      {
        at := at + 1;
      }
      Inserted(sorted, at, b);
      sorted := sorted[..at] + [b] + sorted[at..];
      left := left - {b};
    }
  }

  lemma Inserted(s: seq<nat>, at: nat, b: nat)
    requires at <= |s| && b !in s && forall i, j :: 0 <= i < j < |s| ==> s[i] < s[j]
    requires (forall i :: 0 <= i < at ==> s[i] < b) && (at < |s| ==> s[at] >= b)
    ensures var r := s[..at] + [b] + s[at..];
            && (forall i, j :: 0 <= i < j < |r| ==> r[i] < r[j])
            && forall x :: x in r <==> x == b || x in s
  {
    var r := s[..at] + [b] + s[at..];
    if at < |s| { assert s[at] != b; }
    assert s == s[..at] + s[at..];
  }

  lemma FirstIn(s: seq<nat>)
    requires s != []
    ensures s[0] in s
  {
  }

  lemma {:induction false} SameElementsSameSequence(a: seq<nat>, b: seq<nat>)
    requires forall x :: x in a <==> x in b
    requires forall i, j :: 0 <= i < j < |a| ==> a[i] < a[j]
    requires forall i, j :: 0 <= i < j < |b| ==> b[i] < b[j]
    ensures a == b
    decreases |a|
  {
    if a == [] {
      if b != [] {
        FirstIn(b);
        assert false;
      }
    } else {
      var m, n := |a| - 1, |b| - 1;
      assert a[m] in b && b[n] in a;
      assert a[m] == b[n];
      forall x | x in a[..m] ensures x in b[..n] { assert x in b; }
      forall x | x in b[..n] ensures x in a[..m] { assert x in a; }
      SameElementsSameSequence(a[..m], b[..n]);
    }
  }

  function ViewBases(views: seq<SegmentView>): seq<nat> {
    seq(|views|, i requires 0 <= i < |views| => views[i].baseOffset)
  }

  /** The view the partition point picks reads the segment it should. */
  lemma SegmentFor(views: seq<SegmentView>, held: seq<Held>, parts: seq<seq<seq<Record>>>, leo: nat,
                   files: map<nat, SegmentFiles>, segmentBytes: nat, offset: nat)
    returns (i: nat)
    requires Layered(views, held, parts, leo, files, Contents(files), segmentBytes)
    ensures i < |views| == |held| && i + 1 == PartitionPoint(ViewBases(views), offset) == PartitionPoint(Bases(held), offset)
    ensures views[i].Valid() && views[i].batches == held[i].batches && views[i].baseOffset == held[i].base
  {
    hide CarriesParts, Separate, HeldIn, Linked, Matches, Position, Contents, SegmentView.Valid;
    assert ViewBases(views) == Bases(held);
    FirstBase(held, leo);
    i := PartitionPoint(Bases(held), offset) - 1;
    SegmentHeld(Contents(files), held, segmentBytes, i);
    ViewReads(views[i], held[i], files, segmentBytes);
  }

  lemma FirstBase(held: seq<Held>, leo: nat)
    requires Linked(held, leo)
    ensures held != [] && |Bases(held)| > 0 && Bases(held)[0] == 0
  {
  }

  lemma SegmentHeld(contents: map<nat, SegmentBytes>, held: seq<Held>, segmentBytes: nat, i: nat)
    requires Matches(contents, held, segmentBytes) && i < |held|
    ensures HeldIn(contents, held[i], segmentBytes)
  {
  }
}
