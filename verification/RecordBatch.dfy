/** The record batch: its 61-byte header, building one from records, reading one back from a
    file or from the wire, and slicing one at an offset inside it. */
module RecordBatches {
  import opened Bytes
  import opened Crc
  import opened Records

  const HeaderSize := 61
  const HeaderPrefix := 12
  const PayloadHeader := 49

  datatype RecordBatch = RecordBatch(
    baseOffset: u64,
    batchLength: u32,
    partitionLeaderEpoch: i32,
    magic: byte,
    crc: u32,
    attributes: u16,
    lastOffsetDelta: i32,
    baseTimestamp: u64,
    maxTimestamp: u64,
    producerId: i64,
    producerEpoch: i16,
    baseSequence: i32,
    recordsCount: u32,
    records: seq<byte>)

  /** Bytes a batch takes on disk. */
  function DiskSize(b: RecordBatch): nat { HeaderPrefix + b.batchLength }

  /** The length field tells the truth. */
  ghost predicate LengthMatches(b: RecordBatch) { b.batchLength == PayloadHeader + |b.records| }

  // ---- encoding ------------------------------------------------------------

  function EncodePayload(b: RecordBatch): seq<byte> {
    PutI32(b.partitionLeaderEpoch) + ([b.magic] + (PutU32(b.crc) + (PutU16(b.attributes) + (PutI32(b.lastOffsetDelta)
    + (PutU64(b.baseTimestamp) + (PutU64(b.maxTimestamp) + (PutI64(b.producerId) + (PutI16(b.producerEpoch)
    + (PutI32(b.baseSequence) + (PutU32(b.recordsCount) + b.records))))))))))
  }

  /** Header and records, as appended to a log file or put on the wire. */
  function EncodeBatch(b: RecordBatch): (s: seq<byte>)
    ensures |s| == HeaderSize + |b.records|
  {
    PutU64(b.baseOffset) + (PutU32(b.batchLength) + EncodePayload(b))
  }

  // ---- decoding ------------------------------------------------------------

  function DecodePayload(baseOffset: u64, batchLength: u32, payload: seq<byte>): RecordBatch
    requires |payload| >= PayloadHeader
  {
    RecordBatch(
      baseOffset, batchLength,
      AsI32(payload[0..4]), payload[4], AsU32(payload[5..9]), AsU16(payload[9..11]), AsI32(payload[11..15]),
      AsU64(payload[15..23]), AsU64(payload[23..31]), AsI64(payload[31..39]), AsI16(payload[39..41]),
      AsI32(payload[41..45]), AsU32(payload[45..49]), payload[49..])
  }

  /** A positioned read: what is past the end of the file reads as zero. */
  function ReadAt(file: seq<byte>, pos: nat, n: nat): (s: seq<byte>)
    ensures |s| == n
  {
    seq(n, i requires 0 <= i < n => if pos + i < |file| then file[pos + i] else 0)
  }

  /** Reads the batch whose first byte is at `pos`; None stands for the panic of a length
      field too small for the fixed fields. */
  function DecodeFile(file: seq<byte>, pos: nat): Parsed<RecordBatch> {
    var baseOffset, batchLength := AsU64(ReadAt(file, pos, 8)), AsU32(ReadAt(file, pos + 8, 4));
    if batchLength < PayloadHeader then Short
    else Parsed(DecodePayload(baseOffset, batchLength, ReadAt(file, pos + HeaderPrefix, batchLength)), [])
  }

  datatype WireResult = Good(batch: RecordBatch) | BadCrc | TooShort

  /** Reads a batch off the wire: everything after the header is records, and must match the
      checksum. */
  function DecodeWire(buf: seq<byte>): WireResult {
    if |buf| < HeaderSize then TooShort
    else
      var b := DecodePayload(AsU64(buf[0..8]), AsU32(buf[8..12]), buf[12..]);
      if Crc32c(b.records) != b.crc then BadCrc else Good(b)
  }

  lemma Field(s: seq<byte>, at: nat, part: seq<byte>, rest: seq<byte>)
    requires at <= |s| && s[at..] == part + rest
    ensures at + |part| <= |s| && s[at..at + |part|] == part && s[at + |part|..] == rest
  {
    assert s[at..][..|part|] == part && s[at..][|part|..] == rest;
  }

  /** Decoding the payload undoes encoding it. */
  lemma DecodesPayload(b: RecordBatch)
    ensures |EncodePayload(b)| == PayloadHeader + |b.records|
    ensures DecodePayload(b.baseOffset, b.batchLength, EncodePayload(b)) == b
  {
    var s := EncodePayload(b);
    PayloadFields(b, s);
    hide EncodePayload, PutI32, PutU32, PutU16, PutU64, PutI64, PutI16, AsI32, AsU32, AsU16, AsU64, AsI64, AsI16;
    RoundI32(b.partitionLeaderEpoch);
    RoundU32(b.crc);
    RoundU16(b.attributes);
    RoundI32(b.lastOffsetDelta);
    RoundU64(b.baseTimestamp);
    RoundU64(b.maxTimestamp);
    RoundI64(b.producerId);
    RoundI16(b.producerEpoch);
    RoundI32(b.baseSequence);
    RoundU32(b.recordsCount);
  }

  lemma PayloadFields(b: RecordBatch, s: seq<byte>)
    requires s == EncodePayload(b)
    ensures |s| == PayloadHeader + |b.records|
    ensures s[0..4] == PutI32(b.partitionLeaderEpoch) && s[4] == b.magic && s[5..9] == PutU32(b.crc)
    ensures s[9..11] == PutU16(b.attributes) && s[11..15] == PutI32(b.lastOffsetDelta)
    ensures s[15..23] == PutU64(b.baseTimestamp) && s[23..31] == PutU64(b.maxTimestamp)
    ensures s[31..39] == PutI64(b.producerId) && s[39..41] == PutI16(b.producerEpoch)
    ensures s[41..45] == PutI32(b.baseSequence) && s[45..49] == PutU32(b.recordsCount) && s[49..] == b.records
  {
    PartWidths(b);
    hide PutI32, PutU32, PutU16, PutU64, PutI64, PutI16;
    var r5 := FromTimes(b);
    var r4 := PutI32(b.lastOffsetDelta) + r5;
    var r3 := PutU16(b.attributes) + r4;
    var r2 := PutU32(b.crc) + r3;
    var r1 := [b.magic] + r2;
    assert s[0..] == s;
    Field(s, 0, PutI32(b.partitionLeaderEpoch), r1);
    Field(s, 4, [b.magic], r2);
    Field(s, 5, PutU32(b.crc), r3);
    Field(s, 9, PutU16(b.attributes), r4);
    Field(s, 11, PutI32(b.lastOffsetDelta), r5);
    FieldsFromTimes(b, s);
  }

  /** The payload from the base timestamp on. */
  function FromTimes(b: RecordBatch): seq<byte> {
    PutU64(b.baseTimestamp) + (PutU64(b.maxTimestamp) + (PutI64(b.producerId) + (PutI16(b.producerEpoch)
    + (PutI32(b.baseSequence) + (PutU32(b.recordsCount) + b.records)))))
  }

  lemma FieldsFromTimes(b: RecordBatch, s: seq<byte>)
    requires |s| >= 15 && s[15..] == FromTimes(b)
    ensures |s| == PayloadHeader + |b.records|
    ensures s[15..23] == PutU64(b.baseTimestamp) && s[23..31] == PutU64(b.maxTimestamp)
    ensures s[31..39] == PutI64(b.producerId) && s[39..41] == PutI16(b.producerEpoch)
    ensures s[41..45] == PutI32(b.baseSequence) && s[45..49] == PutU32(b.recordsCount) && s[49..] == b.records
  {
    PartWidths(b);
    hide PutI32, PutU32, PutU16, PutU64, PutI64, PutI16;
    var r10 := PutU32(b.recordsCount) + b.records;
    var r9 := PutI32(b.baseSequence) + r10;
    var r8 := PutI16(b.producerEpoch) + r9;
    var r7 := PutI64(b.producerId) + r8;
    var r6 := PutU64(b.maxTimestamp) + r7;
    Field(s, 15, PutU64(b.baseTimestamp), r6);
    Field(s, 23, PutU64(b.maxTimestamp), r7);
    Field(s, 31, PutI64(b.producerId), r8);
    Field(s, 39, PutI16(b.producerEpoch), r9);
    Field(s, 41, PutI32(b.baseSequence), r10);
    Field(s, 45, PutU32(b.recordsCount), b.records);
  }

  lemma PartWidths(b: RecordBatch)
    ensures |PutI32(b.partitionLeaderEpoch)| == 4 && |PutU32(b.crc)| == 4 && |PutU16(b.attributes)| == 2
    ensures |PutI32(b.lastOffsetDelta)| == 4 && |PutU64(b.baseTimestamp)| == 8 && |PutU64(b.maxTimestamp)| == 8
    ensures |PutI64(b.producerId)| == 8 && |PutI16(b.producerEpoch)| == 2 && |PutI32(b.baseSequence)| == 4
    ensures |PutU32(b.recordsCount)| == 4 && |PutU64(b.baseOffset)| == 8 && |PutU32(b.batchLength)| == 4
  {
  }

  /** The prefix of an encoded batch, and its payload. */
  lemma EncodedPrefix(b: RecordBatch)
    ensures var s := EncodeBatch(b);
            && s[0..8] == PutU64(b.baseOffset) && s[8..12] == PutU32(b.batchLength) && s[12..] == EncodePayload(b)
  {
    PartWidths(b);
    hide PutU64, PutU32, EncodePayload;
    var s := EncodeBatch(b);
    assert s[0..] == s;
    Field(s, 0, PutU64(b.baseOffset), PutU32(b.batchLength) + EncodePayload(b));
    Field(s, 8, PutU32(b.batchLength), EncodePayload(b));
  }

  /** The records count sits in the last four bytes of the header, where the scan reads it. */
  lemma EncodedCount(b: RecordBatch)
    ensures EncodeBatch(b)[57..61] == PutU32(b.recordsCount)
  {
    hide EncodeBatch, EncodePayload, PutU32, PutI32, PutU16, PutU64, PutI64, PutI16;
    EncodedPrefix(b);
    PayloadFields(b, EncodePayload(b));
    SliceOfSlice(EncodeBatch(b), 12, |EncodeBatch(b)|, 45, 49);
    assert EncodeBatch(b)[12..|EncodeBatch(b)|] == EncodeBatch(b)[12..];
  }

  lemma ReadInside(file: seq<byte>, pos: nat, n: nat)
    requires pos + n <= |file|
    ensures ReadAt(file, pos, n) == file[pos..pos + n]
  {
  }

  /** `file` holds an encoded batch at `pos`. */
  ghost predicate HoldsAt(file: seq<byte>, pos: nat, b: RecordBatch) {
    pos + |EncodeBatch(b)| <= |file| && file[pos..pos + |EncodeBatch(b)|] == EncodeBatch(b)
  }

  lemma PartOfHeld(file: seq<byte>, pos: nat, b: RecordBatch, from: nat, to: nat)
    requires HoldsAt(file, pos, b) && from <= to <= |EncodeBatch(b)|
    ensures ReadAt(file, pos + from, to - from) == EncodeBatch(b)[from..to]
  {
    hide EncodeBatch;
    ReadInside(file, pos + from, to - from);
    SliceOfSlice(file, pos, pos + |EncodeBatch(b)|, from, to);
  }

  /** Reading a file where a batch was appended gives the batch back. */
  lemma DecodesFile(file: seq<byte>, pos: nat, b: RecordBatch)
    requires HoldsAt(file, pos, b) && LengthMatches(b)
    ensures AsU64(ReadAt(file, pos, 8)) == b.baseOffset && AsU32(ReadAt(file, pos + 8, 4)) == b.batchLength
    ensures AsU32(ReadAt(file, pos + 57, 4)) == b.recordsCount
    ensures DecodeFile(file, pos) == Parsed(b, [])
  {
    hide EncodeBatch, EncodePayload, DecodePayload, ReadAt, AsU64, AsU32, PutU64, PutU32;
    EncodedPrefix(b);
    EncodedCount(b);
    DecodesPayload(b);
    PartOfHeld(file, pos, b, 0, 8);
    PartOfHeld(file, pos, b, 8, 12);
    PartOfHeld(file, pos, b, 57, 61);
    PartOfHeld(file, pos, b, 12, |EncodeBatch(b)|);
    assert EncodeBatch(b)[12..|EncodeBatch(b)|] == EncodeBatch(b)[12..];
    RoundU64(b.baseOffset);
    RoundU32(b.batchLength);
    RoundU32(b.recordsCount);
  }

  /** Reading a batch off the wire undoes encoding it, provided its checksum is right. */
  lemma DecodesWire(b: RecordBatch)
    ensures DecodeWire(EncodeBatch(b)) == if b.crc == Crc32c(b.records) then Good(b) else BadCrc
  {
    hide EncodeBatch, EncodePayload, DecodePayload, AsU64, AsU32, PutU64, PutU32, Crc32c;
    EncodedPrefix(b);
    DecodesPayload(b);
    RoundU64(b.baseOffset);
    RoundU32(b.batchLength);
  }

  // ---- batches of records --------------------------------------------------

  /** The batch's records are these, and every header field that depends on them agrees. */
  ghost predicate Carries(b: RecordBatch, records: seq<Record>) {
    && AllWellFormed(records) && |records| >= 1
    && b.records == EncodeAll(records)
    && b.recordsCount == |records|
    && LengthMatches(b)
    && b.crc == Crc32c(b.records)
    && b.lastOffsetDelta == |records| - 1
  }

  /** Record i carries offset delta `first + i`. */
  ghost predicate Numbered(records: seq<Record>, first: nat) {
    forall i :: 0 <= i < |records| ==> records[i].offsetDelta == first + i
  }

  /** The records of a batch, decoded one after the other. */
  function Decoded(b: RecordBatch): Parsed<seq<Record>> { DecodeMany(b.recordsCount, b.records) }

  lemma DecodesCarried(b: RecordBatch, records: seq<Record>)
    requires Carries(b, records)
    ensures Decoded(b) == Parsed(records, [])
  {
    DecodesMany(records, []);
    assert EncodeAll(records) + [] == EncodeAll(records);
  }

  lemma {:induction false} RecordsTakeSpace(records: seq<Record>)
    requires AllWellFormed(records)
    ensures |EncodeAll(records)| >= 33 * |records|
    decreases |records|
  {
    hide EncodeRecord, Size;
    if records != [] {
      SizeAtLeast(records[0]);
      RecordsTakeSpace(records[1..]);
    }
  }

  lemma SizeAtLeast(r: Record)
    requires WellFormed(r)
    ensures |EncodeRecord(r)| >= 33
  {
  }

  // ---- building a batch ----------------------------------------------------

  lemma {:induction false} EncodeAllAppend(records: seq<Record>, r: Record)
    requires AllWellFormed(records) && WellFormed(r)
    ensures AllWellFormed(records + [r]) && EncodeAll(records + [r]) == EncodeAll(records) + EncodeRecord(r)
  {
    hide EncodeRecord, WellFormed;
    var all := records + [r];
    assert AllWellFormed(all);
    EncodeAllSplits(all, |records|);
    assert all[..|records|] == records && all[|records|..] == [r];
    EncodeOne(r);
  }

  lemma EncodeOne(r: Record)
    requires WellFormed(r)
    ensures AllWellFormed([r]) && EncodeAll([r]) == EncodeRecord(r)
  {
    hide EncodeRecord, WellFormed;
    assert [r][1..] == [] && EncodeAll([]) == [];
  }

  /** Earliest and latest timestamp of a list of records. */
  method TimeRange(records: seq<Record>) returns (earliest: u64, latest: u64)
    ensures forall k :: 0 <= k < |records| ==> earliest <= records[k].timestampDelta <= latest
    ensures records != [] ==> exists k :: 0 <= k < |records| && records[k].timestampDelta == earliest
    ensures records != [] ==> exists k :: 0 <= k < |records| && records[k].timestampDelta == latest
    ensures records == [] ==> earliest == 0xFFFF_FFFF_FFFF_FFFF && latest == 0
  {
    earliest := 0xFFFF_FFFF_FFFF_FFFF;
    latest := 0;
    var i := 0;
    while i < |records|
      invariant 0 <= i <= |records|
      invariant i == 0 ==> earliest == 0xFFFF_FFFF_FFFF_FFFF && latest == 0
      invariant forall k :: 0 <= k < i ==> earliest <= records[k].timestampDelta <= latest
      invariant i > 0 ==> exists k :: 0 <= k < i && records[k].timestampDelta == earliest
      invariant i > 0 ==> exists k :: 0 <= k < i && records[k].timestampDelta == latest
    {
      if records[i].timestampDelta < earliest { earliest := records[i].timestampDelta; }
      if records[i].timestampDelta > latest { latest := records[i].timestampDelta; }
      i := i + 1;
    }
  }

  /** A record as a batch holds it. */
  function Placed(r: Record, i: nat, baseTimestamp: u64): Record
    requires i < 0x1_0000_0000 && baseTimestamp <= r.timestampDelta
  {
    r.(offsetDelta := i, timestampDelta := r.timestampDelta - baseTimestamp)
  }

  lemma PlacedKeepsSize(r: Record, i: nat, baseTimestamp: u64)
    requires WellFormed(r) && i < 0x1_0000_0000 && baseTimestamp <= r.timestampDelta
    ensures WellFormed(Placed(r, i, baseTimestamp))
    ensures |EncodeRecord(Placed(r, i, baseTimestamp))| == |EncodeRecord(r)|
  {
  }

  /** Builds a batch from records as the producer does, in the two loops of the conversion:
      the result carries the records renumbered from zero, with relative timestamps, and its
      time range is that of the records. */
  method FromRecords(records: seq<Record>) returns (b: RecordBatch, ghost held: seq<Record>)
    requires AllWellFormed(records)
    requires |EncodeAll(records)| + PayloadHeader < 0x1_0000_0000
    ensures records != [] ==> Carries(b, held)
    ensures records == [] ==>
              b == RecordBatch(0, PayloadHeader, 0, 2, Crc32c([]), 0, -1, 0xFFFF_FFFF_FFFF_FFFF, 0, 0, 0, 0, 0, [])
    ensures Numbered(held, 0) && |held| == |records| && b.baseOffset == 0 && b.magic == 2
    ensures b.partitionLeaderEpoch == 0 && b.attributes == 0
    ensures b.producerId == 0 && b.producerEpoch == 0 && b.baseSequence == 0
    ensures forall i :: 0 <= i < |records| ==>
              b.baseTimestamp <= records[i].timestampDelta <= b.maxTimestamp
              && held[i] == records[i].(offsetDelta := i, timestampDelta := records[i].timestampDelta - b.baseTimestamp)
    ensures records != [] ==> exists i :: 0 <= i < |records| && records[i].timestampDelta == b.baseTimestamp
    ensures records != [] ==> exists i :: 0 <= i < |records| && records[i].timestampDelta == b.maxTimestamp
    ensures forall i :: 0 <= i < |records| ==> Times(b, held)[i] == records[i].timestampDelta
  {
    hide EncodeAll, EncodeRecord, Crc32c, WellFormed;
    var baseTimestamp, maxTimestamp := TimeRange(records);
    RecordsTakeSpace(records);
    var buf: seq<byte> := [];
    held := [];
    EmptyEncoding();
    assert records[..0] == [];
    var i := 0;
    while i < |records|
      invariant 0 <= i <= |records|
      invariant |held| == i && AllWellFormed(held) && buf == EncodeAll(held)
      invariant forall k :: 0 <= k < i ==> held[k] == Placed(records[k], k, baseTimestamp)
      invariant |buf| == |EncodeAll(records[..i])|
    {
      var r := Placed(records[i], i, baseTimestamp);
      PlacedKeepsSize(records[i], i, baseTimestamp);
      EncodeAllAppend(held, r);
      EncodeAllAppend(records[..i], records[i]);
      assert records[..i] + [records[i]] == records[..i + 1];
      buf := buf + EncodeRecord(r);
      held := held + [r];
      i := i + 1;
    }
    assert records[..i] == records;
    b := RecordBatch(0, PayloadHeader + |buf|, 0, 2, Crc32c(buf), 0, |records| - 1, baseTimestamp, maxTimestamp, 0, 0, 0, |records|, buf);
  }

  lemma EmptyEncoding()
    ensures EncodeAll([]) == []
  {
  }

  // ---- slicing -------------------------------------------------------------

  /** A slice, a refusal, or the panic of an arithmetic overflow or a broken buffer. */
  datatype SliceResult = Sliced(batch: RecordBatch) | InvalidOffset | Panicked

  function SliceFromOffset(b: RecordBatch, offset: u64): SliceResult {
    if offset == b.baseOffset then Sliced(b)
    else if offset < b.baseOffset then Panicked
    else
      var delta := offset - b.baseOffset;
      match Find(b.records, |b.records|, 0, 0, delta)
      case Absent => InvalidOffset
      case Stuck => Panicked
      case Found(byteOffset, index) =>
        if byteOffset > |b.records| || index > b.recordsCount
           || PayloadHeader + |b.records| - byteOffset >= 0x1_0000_0000
           || b.lastOffsetDelta - delta < -0x8000_0000 then Panicked
        else
          var records := b.records[byteOffset..];
          Sliced(b.(baseOffset := offset, batchLength := PayloadHeader + |records|, crc := Crc32c(records),
                    lastOffsetDelta := b.lastOffsetDelta - delta, recordsCount := b.recordsCount - index, records := records))
  }

  /** What a batch says about where its records come from and when they were made. */
  ghost predicate SameOrigin(a: RecordBatch, b: RecordBatch) {
    && a.partitionLeaderEpoch == b.partitionLeaderEpoch && a.magic == b.magic && a.attributes == b.attributes
    && a.baseTimestamp == b.baseTimestamp && a.maxTimestamp == b.maxTimestamp
    && a.producerId == b.producerId && a.producerEpoch == b.producerEpoch && a.baseSequence == b.baseSequence
  }

  /** When each record was made: its own timestamp counts from the batch's. */
  function Times(b: RecordBatch, records: seq<Record>): (times: seq<nat>)
    ensures |times| == |records|
    ensures forall i :: 0 <= i < |records| ==> times[i] == b.baseTimestamp + records[i].timestampDelta
  {
    seq(|records|, i requires 0 <= i < |records| => b.baseTimestamp + records[i].timestampDelta)
  }

  /** Slicing at base offset plus k gives exactly the records from k on, made when they were,
      with count, length, last delta and checksum to match, at that base offset. */
  ghost predicate ExactSlice(b: RecordBatch, records: seq<Record>, k: nat)
    requires b.baseOffset + k < 0x1_0000_0000_0000_0000 && k <= |records|
  {
    var s := SliceFromOffset(b, b.baseOffset + k);
    && s.Sliced? && Carries(s.batch, records[k..]) && s.batch.baseOffset == b.baseOffset + k
    && Decoded(s.batch) == Parsed(records[k..], [])
    && SameOrigin(s.batch, b) && Times(s.batch, records[k..]) == Times(b, records)[k..]
    && s.batch.batchLength <= b.batchLength
  }

  lemma SlicedTimes(a: RecordBatch, b: RecordBatch, records: seq<Record>, k: nat)
    requires SameOrigin(a, b) && k <= |records|
    ensures Times(a, records[k..]) == Times(b, records)[k..]
  {
  }

  /** A batch whose records are numbered from zero slices exactly at each of them, and refuses
      any later offset. */
  lemma SliceCarriesRest(b: RecordBatch, records: seq<Record>, k: nat)
    requires Carries(b, records) && Numbered(records, 0) && b.baseOffset + k < 0x1_0000_0000_0000_0000
    ensures k >= |records| ==> SliceFromOffset(b, b.baseOffset + k) == InvalidOffset
    ensures k < |records| ==> ExactSlice(b, records, k)
  {
    hide SliceFromOffset, EncodeAll, Crc32c, Decoded, AllWellFormed, Numbered, FirstWith;
    FirstNumbered(records, 0, k);
    SliceAt(b, records, 0, k);
    if k < |records| {
      SuffixWellFormed(records, k);
      var sliced := SliceFromOffset(b, b.baseOffset + k).batch;
      DecodesCarried(sliced, records[k..]);
      SlicedTimes(sliced, b, records, k);
    }
  }

  lemma SliceAtBase(b: RecordBatch)
    ensures SliceFromOffset(b, b.baseOffset) == Sliced(b)
  {
  }

  lemma SuffixWellFormed(records: seq<Record>, k: nat)
    requires AllWellFormed(records) && k <= |records|
    ensures AllWellFormed(records[k..])
  {
  }

  lemma {:induction false} FirstNumbered(records: seq<Record>, first: nat, offsetDelta: nat)
    requires Numbered(records, first)
    ensures FirstWith(records, offsetDelta) ==
            if first <= offsetDelta < first + |records| then offsetDelta - first else |records|
    decreases |records|
  {
    if records != [] && records[0].offsetDelta != offsetDelta {
      FirstNumbered(records[1..], first + 1, offsetDelta);
    }
  }

  /** What slicing does to any numbering: the rest from the record found by delta. */
  lemma SliceAt(b: RecordBatch, records: seq<Record>, first: nat, k: nat)
    requires Carries(b, records) && Numbered(records, first) && b.baseOffset + k < 0x1_0000_0000_0000_0000
    requires k < 0x8000_0000 || FirstWith(records, k) == |records| || k == 0
    ensures var at := if k == 0 then 0 else FirstWith(records, k);
            var s := SliceFromOffset(b, b.baseOffset + k);
            if at == |records| then s == InvalidOffset
            else
              && s.Sliced? && s.batch.baseOffset == b.baseOffset + k
              && s.batch.records == EncodeAll(records[at..]) && s.batch.recordsCount == |records| - at
              && LengthMatches(s.batch) && s.batch.crc == Crc32c(s.batch.records)
              && s.batch.lastOffsetDelta == |records| - 1 - k
              && SameOrigin(s.batch, b) && s.batch.batchLength <= b.batchLength
  {
    hide EncodeAll, Find, Crc32c, FirstWith, WellFormed;
    if k == 0 {
      assert records[0..] == records;
    } else {
      var at := FirstWith(records, k);
      FindsFirst(records, |b.records|, 0, k);
      EncodeAllSplits(records, at);
      RecordsTakeSpace(records);
      if at < |records| {
        Split(EncodeAll(records[..at]), EncodeAll(records[at..]));
      }
    }
  }

  /** Slicing is exact for every k exactly when the numbering starts at zero, or there is only
      one record: a slice keeps the old deltas, so slicing it again goes wrong. */
  lemma SliceExactIffFromZero(b: RecordBatch, records: seq<Record>, first: nat)
    requires Carries(b, records) && Numbered(records, first)
    requires b.baseOffset + |records| < 0x1_0000_0000_0000_0000
    ensures (forall k: nat :: k < |records| ==> ExactSlice(b, records, k)) <==> (first == 0 || |records| == 1)
  {
    hide SliceFromOffset, EncodeAll, Crc32c, WellFormed, Decoded;
    if first == 0 {
      forall k: nat | k < |records| ensures ExactSlice(b, records, k) {
        SliceCarriesRest(b, records, k);
      }
    } else if |records| == 1 {
      assert records[0..] == records;
      SliceAtBase(b);
      DecodesCarried(b, records);
      SlicedTimes(b, b, records, 0);
      assert ExactSlice(b, records, 0);
    } else {
      SliceAt(b, records, first, 1);
      FirstNumbered(records, first, 1);
      assert |records[1..]| == |records| - 1;
      assert !ExactSlice(b, records, 1);
    }
  }
}
