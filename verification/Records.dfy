/** One record: its fixed-width layout, and the two ways a sequence of encoded records is
    read back, decoding in full and skipping by the length field. */
module Records {
  import opened Bytes

  datatype RecordHeader = RecordHeader(key: seq<byte>, value: seq<byte>)

  datatype Record = Record(
    length: u32,
    attributes: byte,
    timestampDelta: u64,
    offsetDelta: u64,
    key: seq<byte>,
    value: seq<byte>,
    headers: seq<RecordHeader>)

  /** A value read off the front of a buffer, or a buffer too short to hold it. */
  datatype Parsed<+T> = Short | Parsed(value: T, rest: seq<byte>)

  // ---- sizes and encoding --------------------------------------------------

  function HeadersSize(headers: seq<RecordHeader>): nat {
    if headers == [] then 0
    else 4 + |headers[0].key| + 4 + |headers[0].value| + HeadersSize(headers[1..])
  }

  function Size(r: Record): nat {
    4 + 1 + 8 + 8 + 4 + |r.key| + 4 + |r.value| + 4 + HeadersSize(r.headers)
  }

  /** Every length fits its field, and the length field is the record's size. */
  ghost predicate WellFormed(r: Record) {
    && r.length == Size(r)
    && |r.headers| < 0x1_0000_0000
  }

  function PutBytes(data: seq<byte>): seq<byte>
    requires |data| < 0x1_0000_0000
  {
    PutU32(|data|) + data
  }

  function EncodeHeaders(headers: seq<RecordHeader>): (s: seq<byte>)
    requires HeadersSize(headers) < 0x1_0000_0000
    ensures |s| == HeadersSize(headers)
  {
    if headers == [] then []
    else PutBytes(headers[0].key) + (PutBytes(headers[0].value) + EncodeHeaders(headers[1..]))
  }

  function EncodeRecord(r: Record): (s: seq<byte>)
    requires WellFormed(r)
    ensures |s| == Size(r)
  {
    PutU32(r.length) + (ToBE(r.attributes, 1) + (PutU64(r.timestampDelta) + (PutU64(r.offsetDelta)
    + (PutBytes(r.key) + (PutBytes(r.value) + (PutU32(|r.headers|) + EncodeHeaders(r.headers)))))))
  }

  // ---- decoding in full ----------------------------------------------------

  function GetU32(buf: seq<byte>): Parsed<u32> {
    if |buf| < 4 then Short else Parsed(AsU32(buf[..4]), buf[4..])
  }

  function GetU64(buf: seq<byte>): Parsed<u64> {
    if |buf| < 8 then Short else Parsed(AsU64(buf[..8]), buf[8..])
  }

  function GetByte(buf: seq<byte>): Parsed<byte> {
    if |buf| < 1 then Short else Parsed(buf[0], buf[1..])
  }

  /** A length-prefixed run of bytes. */
  function GetBytes(buf: seq<byte>): Parsed<seq<byte>> {
    match GetU32(buf)
    case Short => Short
    case Parsed(n, rest) => if |rest| < n then Short else Parsed(rest[..n], rest[n..])
  }

  function DecodeHeaders(n: nat, buf: seq<byte>): Parsed<seq<RecordHeader>> {
    if n == 0 then Parsed([], buf)
    else
      match GetBytes(buf)
      case Short => Short
      case Parsed(key, afterKey) =>
        match GetBytes(afterKey)
        case Short => Short
        case Parsed(value, rest) =>
          match DecodeHeaders(n - 1, rest)
          case Short => Short
          case Parsed(headers, end) => Parsed([RecordHeader(key, value)] + headers, end)
  }

  function DecodeRecord(buf: seq<byte>): Parsed<Record> {
    match GetU32(buf) case Short => Short
    case Parsed(length, b1) =>
      match GetByte(b1) case Short => Short
      case Parsed(attributes, b2) =>
        match GetU64(b2) case Short => Short
        case Parsed(timestampDelta, b3) =>
          match GetU64(b3) case Short => Short
          case Parsed(offsetDelta, b4) =>
            match GetBytes(b4) case Short => Short
            case Parsed(key, b5) =>
              match GetBytes(b5) case Short => Short
              case Parsed(value, b6) =>
                match GetU32(b6) case Short => Short
                case Parsed(n, b7) =>
                  match DecodeHeaders(n, b7) case Short => Short
                  case Parsed(headers, rest) =>
                    Parsed(Record(length, attributes, timestampDelta, offsetDelta, key, value, headers), rest)
  }

  lemma GetsU32(x: u32, rest: seq<byte>)
    ensures GetU32(PutU32(x) + rest) == Parsed(x, rest)
  {
    Split(PutU32(x), rest);
    RoundU32(x);
  }

  lemma GetsU64(x: u64, rest: seq<byte>)
    ensures GetU64(PutU64(x) + rest) == Parsed(x, rest)
  {
    Split(PutU64(x), rest);
    RoundU64(x);
  }

  lemma GetsByte(x: byte, rest: seq<byte>)
    ensures GetByte(ToBE(x, 1) + rest) == Parsed(x, rest)
  {
    Split(ToBE(x, 1), rest);
    assert ToBE(x, 1) == ToBE(x / 256, 0) + [x % 256];
  }

  lemma GetsBytes(data: seq<byte>, rest: seq<byte>)
    requires |data| < 0x1_0000_0000
    ensures GetBytes(PutBytes(data) + rest) == Parsed(data, rest)
  {
    assert PutBytes(data) + rest == PutU32(|data|) + (data + rest);
    GetsU32(|data|, data + rest);
    Split(data, rest);
  }

  lemma {:induction false} DecodesHeaders(headers: seq<RecordHeader>, rest: seq<byte>)
    requires HeadersSize(headers) < 0x1_0000_0000
    ensures DecodeHeaders(|headers|, EncodeHeaders(headers) + rest) == Parsed(headers, rest)
    decreases |headers|
  {
    hide PutBytes, GetBytes;
    if headers == [] {
      assert EncodeHeaders(headers) + rest == rest;
    } else {
      var h, more := headers[0], EncodeHeaders(headers[1..]);
      var tail := more + rest;
      assert EncodeHeaders(headers) == PutBytes(h.key) + (PutBytes(h.value) + more);
      assert EncodeHeaders(headers) + rest == PutBytes(h.key) + (PutBytes(h.value) + tail);
      GetsBytes(h.key, PutBytes(h.value) + tail);
      GetsBytes(h.value, tail);
      DecodesHeaders(headers[1..], rest);
      assert headers == [RecordHeader(h.key, h.value)] + headers[1..];
    }
  }

  /** Decoding undoes encoding and leaves what follows untouched. */
  lemma DecodesEncoded(r: Record, rest: seq<byte>)
    requires WellFormed(r)
    ensures DecodeRecord(EncodeRecord(r) + rest) == Parsed(r, rest)
  {
    hide ToBE, GetU32, GetU64, GetByte, GetBytes, EncodeHeaders, DecodeHeaders, PutBytes, PutU32, PutU64;
    var t7 := EncodeHeaders(r.headers) + rest;
    var t6 := PutU32(|r.headers|) + t7;
    var t5 := PutBytes(r.value) + t6;
    var t4 := PutBytes(r.key) + t5;
    var t3 := PutU64(r.offsetDelta) + t4;
    var t2 := PutU64(r.timestampDelta) + t3;
    var t1 := ToBE(r.attributes, 1) + t2;
    assert EncodeRecord(r) + rest == PutU32(r.length) + t1;
    GetsU32(r.length, t1);
    GetsByte(r.attributes, t2);
    GetsU64(r.timestampDelta, t3);
    GetsU64(r.offsetDelta, t4);
    GetsBytes(r.key, t5);
    GetsBytes(r.value, t6);
    GetsU32(|r.headers|, t7);
    DecodesHeaders(r.headers, rest);
  }

  // ---- sequences of records ------------------------------------------------

  ghost predicate AllWellFormed(records: seq<Record>) {
    forall i :: 0 <= i < |records| ==> WellFormed(records[i])
  }

  function EncodeAll(records: seq<Record>): seq<byte>
    requires AllWellFormed(records)
  {
    if records == [] then [] else EncodeRecord(records[0]) + EncodeAll(records[1..])
  }

  function DecodeMany(n: nat, buf: seq<byte>): Parsed<seq<Record>> {
    if n == 0 then Parsed([], buf)
    else
      match DecodeRecord(buf)
      case Short => Short
      case Parsed(record, rest) =>
        match DecodeMany(n - 1, rest)
        case Short => Short
        case Parsed(records, end) => Parsed([record] + records, end)
  }

  lemma {:induction false} DecodesMany(records: seq<Record>, rest: seq<byte>)
    requires AllWellFormed(records)
    ensures DecodeMany(|records|, EncodeAll(records) + rest) == Parsed(records, rest)
    decreases |records|
  {
    hide EncodeRecord, DecodeRecord;
    if records == [] {
      assert EncodeAll(records) + rest == rest;
    } else {
      var tail := EncodeAll(records[1..]) + rest;
      assert EncodeAll(records) + rest == EncodeRecord(records[0]) + tail;
      DecodesEncoded(records[0], tail);
      DecodesMany(records[1..], rest);
      assert records == [records[0]] + records[1..];
    }
  }

  lemma Associative(a: seq<byte>, b: seq<byte>, c: seq<byte>)
    ensures (a + b) + c == a + (b + c)
  {
  }

  lemma {:induction false} EncodeAllSplits(records: seq<Record>, k: nat)
    requires AllWellFormed(records) && k <= |records|
    ensures EncodeAll(records) == EncodeAll(records[..k]) + EncodeAll(records[k..])
    decreases k
  {
    hide EncodeRecord, WellFormed;
    if k > 0 {
      var tail := records[1..];
      EncodeAllSplits(tail, k - 1);
      assert records[..k][1..] == tail[..k - 1] && tail[k - 1..] == records[k..];
      var head := EncodeRecord(records[0]);
      assert EncodeAll(records[..k]) == head + EncodeAll(tail[..k - 1]);
      Associative(head, EncodeAll(tail[..k - 1]), EncodeAll(records[k..]));
    } else {
      assert records[..0] == [] && records[0..] == records;
    }
  }

  // ---- skipping by the length field ----------------------------------------

  /** What the skipping iterator reports for a record. `byteLen` is four more than the record
      takes, since the length field counts itself. */
  datatype RecordRef = RecordRef(offsetDelta: u64, byteOffset: nat, byteLen: nat, index: nat)

  /** One call of the iterator: the end, a record, an error that consumed part of the buffer
      or nothing of it, or an arithmetic or buffer panic. */
  datatype Skipped =
    | Finished
    | Item(ref: RecordRef, rest: seq<byte>)
    | Truncated(rest: seq<byte>)
    | NoLength
    | Panic

  function Skip(buf: seq<byte>, pos: nat, index: nat): Skipped {
    if buf == [] then Finished
    else if |buf| < 4 then NoLength
    else
      var length := AsU32(buf[..4]);
      var body := buf[4..];
      if length < 4 then Panic
      else if |body| < length - 4 then Truncated(body)
      else if |body| < 17 || length - 4 < 17 then Panic
      else Item(RecordRef(AsU64(body[9..17]), pos, 4 + length, index), body[length - 4..])
  }

  /** Where the first record with a given offset delta lies; `Stuck` when the search would
      panic or see the same error for ever. */
  datatype Lookup = Found(byteOffset: nat, index: nat) | Absent | Stuck

  function Find(buf: seq<byte>, total: nat, pos: nat, index: nat, offsetDelta: nat): Lookup
    requires |buf| <= total
    decreases |buf|
  {
    match Skip(buf, pos, index)
    case Finished => Absent
    case NoLength => Stuck
    case Panic => Stuck
    case Truncated(rest) => Find(rest, total, pos, index, offsetDelta)
    case Item(ref, rest) =>
      if ref.offsetDelta == offsetDelta then Found(ref.byteOffset, ref.index)
      else Find(rest, total, total - |rest|, index + 1, offsetDelta)
  }

  /** Skipping an encoded record lands where decoding it does, and reads its delta. */
  lemma SkipsEncoded(r: Record, rest: seq<byte>, pos: nat, index: nat)
    requires WellFormed(r)
    ensures Skip(EncodeRecord(r) + rest, pos, index) == Item(RecordRef(r.offsetDelta, pos, Size(r) + 4, index), rest)
  {
    hide ToBE, EncodeHeaders, PutBytes, PutU32, PutU64;
    var buf := EncodeRecord(r) + rest;
    var t5 := PutBytes(r.key) + (PutBytes(r.value) + (PutU32(|r.headers|) + EncodeHeaders(r.headers))) + rest;
    WidthsOfParts(r);
    var body := ToBE(r.attributes, 1) + PutU64(r.timestampDelta) + PutU64(r.offsetDelta) + t5;
    assert buf == PutU32(r.length) + body;
    Split(PutU32(r.length), body);
    RoundU32(r.length);
    assert body[9..17] == PutU64(r.offsetDelta);
    RoundU64(r.offsetDelta);
    assert buf[4..] == body;
    assert body[r.length - 4..] == rest by {
      assert buf[|EncodeRecord(r)|..] == rest;
      assert buf[4..][r.length - 4..] == buf[r.length..];
    }
  }

  lemma WidthsOfParts(r: Record)
    ensures |PutU32(r.length)| == 4 && |ToBE(r.attributes, 1)| == 1
    ensures |PutU64(r.timestampDelta)| == 8 && |PutU64(r.offsetDelta)| == 8
  {
  }

  /** Index of the first record with a given delta, or the number of records. */
  function FirstWith(records: seq<Record>, offsetDelta: nat): (k: nat)
    ensures k <= |records|
    ensures k < |records| ==> records[k].offsetDelta == offsetDelta
    ensures forall i :: 0 <= i < k ==> records[i].offsetDelta != offsetDelta
  {
    if records == [] || records[0].offsetDelta == offsetDelta then 0 else 1 + FirstWith(records[1..], offsetDelta)
  }

  /** What searching encoded records should give. */
  function Expected(records: seq<Record>, total: nat, index: nat, offsetDelta: nat): Lookup
    requires AllWellFormed(records) && |EncodeAll(records)| <= total
  {
    var k := FirstWith(records, offsetDelta);
    EncodeAllSplits(records, k);
    if k < |records| then Found(total - |EncodeAll(records[k..])|, index + k) else Absent
  }

  /** Searching encoded records for the first with a given delta finds its index and the byte
      position where its encoding starts; if none has it, the search ends empty-handed. */
  lemma {:induction false} FindsFirst(records: seq<Record>, total: nat, index: nat, offsetDelta: nat)
    requires AllWellFormed(records) && |EncodeAll(records)| <= total
    ensures Find(EncodeAll(records), total, total - |EncodeAll(records)|, index, offsetDelta)
         == Expected(records, total, index, offsetDelta)
    decreases |records|
  {
    hide EncodeRecord, Skip, Find, Expected, WellFormed;
    if records == [] {
      FindsNothing(total, index, offsetDelta);
    } else {
      FindsFirst(records[1..], total, index + 1, offsetDelta);
      FindsOneMore(records[0], records[1..], total, index, offsetDelta);
      assert [records[0]] + records[1..] == records;
    }
  }

  lemma FindsOneMore(r: Record, tail: seq<Record>, total: nat, index: nat, offsetDelta: nat)
    requires WellFormed(r) && AllWellFormed(tail)
    requires |EncodeRecord(r) + EncodeAll(tail)| <= total
    requires Find(EncodeAll(tail), total, total - |EncodeAll(tail)|, index + 1, offsetDelta)
          == Expected(tail, total, index + 1, offsetDelta)
    ensures AllWellFormed([r] + tail) && EncodeAll([r] + tail) == EncodeRecord(r) + EncodeAll(tail)
    ensures Find(EncodeRecord(r) + EncodeAll(tail), total, total - |EncodeRecord(r) + EncodeAll(tail)|, index, offsetDelta)
         == Expected([r] + tail, total, index, offsetDelta)
  {
    hide EncodeRecord, Skip, WellFormed, Find;
    var buf, pos := EncodeRecord(r) + EncodeAll(tail), total - |EncodeRecord(r) + EncodeAll(tail)|;
    assert ([r] + tail)[1..] == tail && ([r] + tail)[0] == r && ([r] + tail)[0..] == [r] + tail;
    SkipsEncoded(r, EncodeAll(tail), pos, index);
    FindUnfold(buf, total, pos, index, offsetDelta);
    var k := FirstWith(tail, offsetDelta);
    assert ([r] + tail)[1 + k..] == tail[k..];
  }

  lemma FindUnfold(buf: seq<byte>, total: nat, pos: nat, index: nat, offsetDelta: nat)
    requires |buf| <= total && Skip(buf, pos, index).Item?
    ensures var item := Skip(buf, pos, index);
            && |item.rest| <= total
            && Find(buf, total, pos, index, offsetDelta) ==
               if item.ref.offsetDelta == offsetDelta then Found(item.ref.byteOffset, item.ref.index)
               else Find(item.rest, total, total - |item.rest|, index + 1, offsetDelta)
  {
  }

  lemma FindsNothing(total: nat, index: nat, offsetDelta: nat)
    ensures Find(EncodeAll([]), total, total, index, offsetDelta) == Expected([], total, index, offsetDelta) == Absent
  {
  }

  // ---- the readers and writers themselves ----------------------------------

  /** A buffer consumed from the front. */
  class ByteBuf {
    var bytes: seq<byte>

    constructor (bytes: seq<byte>)
      ensures this.bytes == bytes
    {
      this.bytes := bytes;
    }
  }

  /** Reads one record off the buffer; false when the buffer is too short. */
  method DecodeFrom(buf: ByteBuf) returns (ok: bool, record: Record)
    modifies buf
    ensures ok <==> DecodeRecord(old(buf.bytes)).Parsed?
    ensures ok ==> DecodeRecord(old(buf.bytes)) == Parsed(record, buf.bytes)
  {
    ok, record := false, Record(0, 0, 0, 0, [], [], []);
    var length := GetU32(buf.bytes);
    if length.Short? { return; }
    buf.bytes := length.rest;
    var attributes := GetByte(buf.bytes);
    if attributes.Short? { return; }
    buf.bytes := attributes.rest;
    var timestampDelta := GetU64(buf.bytes);
    if timestampDelta.Short? { return; }
    buf.bytes := timestampDelta.rest;
    var offsetDelta := GetU64(buf.bytes);
    if offsetDelta.Short? { return; }
    buf.bytes := offsetDelta.rest;
    var key := GetBytes(buf.bytes);
    if key.Short? { return; }
    buf.bytes := key.rest;
    var value := GetBytes(buf.bytes);
    if value.Short? { return; }
    buf.bytes := value.rest;
    var count := GetU32(buf.bytes);
    if count.Short? { return; }
    buf.bytes := count.rest;
    var enough, headers := DecodeHeadersFrom(buf, count.value);
    if !enough { return; }
    ok, record := true, Record(length.value, attributes.value, timestampDelta.value, offsetDelta.value, key.value, value.value, headers);
  }

  method DecodeHeadersFrom(buf: ByteBuf, n: nat) returns (ok: bool, headers: seq<RecordHeader>)
    modifies buf
    ensures ok <==> DecodeHeaders(n, old(buf.bytes)).Parsed?
    ensures ok ==> DecodeHeaders(n, old(buf.bytes)) == Parsed(headers, buf.bytes)
  {
    hide GetBytes, DecodeHeaders;
    ok, headers := true, [];
    var i := 0;
    ghost var all := DecodeHeaders(n, buf.bytes);
    if all.Parsed? { assert [] + all.value == all.value; }
    while i < n
      invariant 0 <= i <= n
      invariant all == After(headers, DecodeHeaders(n - i, buf.bytes))
    {
      AfterOneMore(headers, n - i, buf.bytes);
      var key := GetBytes(buf.bytes);
      if key.Short? { return false, headers; }
      var value := GetBytes(key.rest);
      if value.Short? { return false, headers; }
      headers := headers + [RecordHeader(key.value, value.value)];
      buf.bytes := value.rest;
      i := i + 1;
    }
    NoHeadersLeft(headers, buf.bytes);
  }

  lemma NoHeadersLeft(headers: seq<RecordHeader>, buf: seq<byte>)
    ensures After(headers, DecodeHeaders(0, buf)) == Parsed(headers, buf)
  {
    assert headers + [] == headers;
  }

  function After(headers: seq<RecordHeader>, parsed: Parsed<seq<RecordHeader>>): Parsed<seq<RecordHeader>> {
    match parsed
    case Short => Short
    case Parsed(more, rest) => Parsed(headers + more, rest)
  }

  lemma AfterOneMore(headers: seq<RecordHeader>, n: nat, buf: seq<byte>)
    requires n > 0
    ensures var key := GetBytes(buf);
            After(headers, DecodeHeaders(n, buf)) ==
            if key.Short? || GetBytes(key.rest).Short? then Short
            else After(headers + [RecordHeader(key.value, GetBytes(key.rest).value)], DecodeHeaders(n - 1, GetBytes(key.rest).rest))
  {
    var key := GetBytes(buf);
    if key.Parsed? && GetBytes(key.rest).Parsed? {
      var h := RecordHeader(key.value, GetBytes(key.rest).value);
      var tail := DecodeHeaders(n - 1, GetBytes(key.rest).rest);
      if tail.Parsed? {
        assert headers + ([h] + tail.value) == (headers + [h]) + tail.value;
      }
    }
  }

  /** The skipping iterator. */
  class RecordRefIter {
    var buf: seq<byte>
    var pos: nat
    const totalLen: nat
    var index: nat

    constructor (buf: seq<byte>)
      ensures this.buf == buf && pos == 0 && totalLen == |buf| && index == 0
    {
      this.buf := buf;
      pos := 0;
      totalLen := |buf|;
      index := 0;
    }

    /** One step: reads the length and the fixed fields, and skips the rest of the record. */
    method Next() returns (result: Skipped)
      requires |buf| <= totalLen
      modifies this
      ensures result == Skip(old(buf), old(pos), old(index))
      ensures match result
              case Item(_, rest) => buf == rest && pos == totalLen - |rest| && index == old(index) + 1
              case Truncated(rest) => buf == rest && pos == old(pos) && index == old(index)
              case Panic => true
              case _ => buf == old(buf) && pos == old(pos) && index == old(index)
      ensures |buf| <= totalLen
    {
      if |buf| == 0 { return Finished; }
      var start := pos;
      if |buf| < 4 { return NoLength; }
      var length: nat := AsU32(buf[..4]);
      buf := buf[4..];
      if length < 4 { return Panic; }
      var dataLen := length - 4;
      if |buf| < dataLen { return Truncated(buf); }
      if |buf| < 17 { return Panic; }
      var offsetDelta := AsU64(buf[9..17]);
      buf := buf[17..];
      if dataLen < 17 { return Panic; }
      buf := buf[dataLen - 17..];
      pos := totalLen - |buf|;
      var idx := index;
      index := index + 1;
      return Item(RecordRef(offsetDelta, start, 4 + length, idx), buf);
    }
  }
}
