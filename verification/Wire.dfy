/** The wire format: numbers, texts and lists, written in front of what follows and read off the
    front of what is left. */
module Wire {
  import opened Bytes
  import opened Records
  import opened RecordBatches
  import Crc

  datatype ParseError = InvalidApiKey | InvalidAck | InvalidClientId | InvalidBatch

  /** What reading gives: a value and the bytes after it, an error, or the panic of a buffer
      that is too short. */
  datatype Read<+T> = Read(value: T, rest: seq<byte>) | Failed(error: ParseError) | Overrun
  {
    predicate IsFailure() { !Read? }

    function PropagateFailure<U>(): Read<U>
      requires IsFailure()
    {
      if Failed? then Failed(error) else Overrun
    }

    function Extract(): (T, seq<byte>)
      requires !IsFailure()
    {
      (value, rest)
    }
  }

  // ---- numbers -------------------------------------------------------------

  function ReadByte(buf: seq<byte>): Read<byte> { if |buf| < 1 then Overrun else Read(buf[0], buf[1..]) }

  function ReadU16(buf: seq<byte>): Read<u16> { if |buf| < 2 then Overrun else Read(AsU16(buf[..2]), buf[2..]) }

  function ReadU32(buf: seq<byte>): Read<u32> { if |buf| < 4 then Overrun else Read(AsU32(buf[..4]), buf[4..]) }

  function ReadU64(buf: seq<byte>): Read<u64> { if |buf| < 8 then Overrun else Read(AsU64(buf[..8]), buf[8..]) }

  function ReadI16(buf: seq<byte>): Read<i16> { if |buf| < 2 then Overrun else Read(AsI16(buf[..2]), buf[2..]) }

  function ReadI32(buf: seq<byte>): Read<i32> { if |buf| < 4 then Overrun else Read(AsI32(buf[..4]), buf[4..]) }

  lemma ReadsU16(x: u16, tail: seq<byte>)
    ensures ReadU16(PutU16(x) + tail) == Read(x, tail) && |PutU16(x) + tail| == 2 + |tail|
  {
    Split(PutU16(x), tail);
    RoundU16(x);
  }

  lemma ReadsU32(x: u32, tail: seq<byte>)
    ensures ReadU32(PutU32(x) + tail) == Read(x, tail) && |PutU32(x) + tail| == 4 + |tail|
  {
    Split(PutU32(x), tail);
    RoundU32(x);
  }

  lemma ReadsU64(x: u64, tail: seq<byte>)
    ensures ReadU64(PutU64(x) + tail) == Read(x, tail) && |PutU64(x) + tail| == 8 + |tail|
  {
    Split(PutU64(x), tail);
    RoundU64(x);
  }

  lemma ReadsI16(x: i16, tail: seq<byte>)
    ensures ReadI16(PutI16(x) + tail) == Read(x, tail) && |PutI16(x) + tail| == 2 + |tail|
  {
    Split(PutI16(x), tail);
    RoundI16(x);
  }

  lemma ReadsI32(x: i32, tail: seq<byte>)
    ensures ReadI32(PutI32(x) + tail) == Read(x, tail) && |PutI32(x) + tail| == 4 + |tail|
  {
    Split(PutI32(x), tail);
    RoundI32(x);
  }

  lemma ReadsByte(x: byte, tail: seq<byte>)
    ensures ReadByte([x] + tail) == Read(x, tail) && |[x] + tail| == 1 + |tail|
  {
    Split([x], tail);
  }

  // ---- truncating casts ----------------------------------------------------

  function CastU16(n: nat): u16 { n % 0x1_0000 }

  function CastU32(n: nat): u32 { n % 0x1_0000_0000 }

  function CastI16(n: nat): i16 { Signed(n % 0x1_0000, 0x1_0000) }

  // ---- texts ---------------------------------------------------------------

  function Take(buf: seq<byte>, n: nat): Read<seq<byte>> { if |buf| < n then Overrun else Read(buf[..n], buf[n..]) }

  lemma Takes(data: seq<byte>, tail: seq<byte>)
    ensures Take(data + tail, |data|) == Read(data, tail) && |data + tail| == |data| + |tail|
  {
    Split(data, tail);
  }

  function PutText(text: seq<byte>, tail: seq<byte>): seq<byte> { PutU16(CastU16(|text|)) + (text + tail) }

  function ReadText(buf: seq<byte>): Read<seq<byte>> {
    var (n, rest) :- ReadU16(buf);
    Take(rest, n)
  }

  lemma ReadsText(text: seq<byte>, tail: seq<byte>)
    requires |text| < 0x1_0000
    ensures ReadText(PutText(text, tail)) == Read(text, tail) && |PutText(text, tail)| == 2 + |text| + |tail|
  {
    ReadsU16(CastU16(|text|), text + tail);
    Takes(text, tail);
  }

  /** A text with a signed length, as client ids, metadata topics and partition error messages have. */
  function PutSignedText(text: seq<byte>, tail: seq<byte>): seq<byte> { PutI16(CastI16(|text|)) + (text + tail) }

  /** A negative length becomes a huge one, which no buffer holds. */
  function ReadSignedText(buf: seq<byte>): Read<seq<byte>> {
    var (n, rest) :- ReadI16(buf);
    if n < 0 then Overrun else Take(rest, n)
  }

  lemma ReadsSignedText(text: seq<byte>, tail: seq<byte>)
    requires |text| < 0x8000
    ensures ReadSignedText(PutSignedText(text, tail)) == Read(text, tail)
    ensures |PutSignedText(text, tail)| == 2 + |text| + |tail|
  {
    ReadsI16(CastI16(|text|), text + tail);
    Takes(text, tail);
  }

  /** A partition's error message: a length of zero or less reads as no message. */
  function ReadMessage(buf: seq<byte>): Read<seq<byte>> {
    var (n, rest) :- ReadI16(buf);
    if n > 0 then Take(rest, n) else Read([], rest)
  }

  lemma ReadsMessage(text: seq<byte>, tail: seq<byte>)
    requires |text| < 0x8000
    ensures ReadMessage(PutSignedText(text, tail)) == Read(text, tail)
    ensures |PutSignedText(text, tail)| == 2 + |text| + |tail|
  {
    ReadsI16(CastI16(|text|), text + tail);
    Takes(text, tail);
    assert [] + tail == tail;
  }

  predicate Continues(b: byte) { 0x80 <= b <= 0xBF }

  /** How many bytes the first character takes, by table 3-7 of the Unicode Standard (well-formed
      UTF-8 byte sequences); 0 if these bytes start none. */
  function CharLength(s: seq<byte>): (n: nat)
    requires s != []
    ensures n <= |s|
  {
    if s[0] <= 0x7F then 1
    else if |s| >= 2 && 0xC2 <= s[0] <= 0xDF && Continues(s[1]) then 2
    else if |s| >= 3 && 0xE0 <= s[0] <= 0xEF && Continues(s[1]) && Continues(s[2])
            && (s[0] == 0xE0 ==> s[1] >= 0xA0) && (s[0] == 0xED ==> s[1] <= 0x9F) then 3
    else if |s| >= 4 && 0xF0 <= s[0] <= 0xF4 && Continues(s[1]) && Continues(s[2]) && Continues(s[3])
            && (s[0] == 0xF0 ==> s[1] >= 0x90) && (s[0] == 0xF4 ==> s[1] <= 0x8F) then 4
    else 0
  }

  predicate ValidUtf8(s: seq<byte>) {
    s == [] || (CharLength(s) > 0 && ValidUtf8(s[CharLength(s)..]))
  }

  // ---- lists ---------------------------------------------------------------

  /** Writes the elements one after the other in front of the tail. */
  function PutEach<T>(put: (T, seq<byte>) -> seq<byte>, xs: seq<T>, tail: seq<byte>): seq<byte> {
    if xs == [] then tail else put(xs[0], PutEach(put, xs[1..], tail))
  }

  /** Reads n elements one after the other. */
  function ReadEach<T>(read: seq<byte> -> Read<T>, n: nat, buf: seq<byte>): Read<seq<T>> {
    if n == 0 then Read([], buf)
    else
      var (x, rest) :- read(buf);
      var (xs, end) :- ReadEach(read, n - 1, rest);
      Read([x] + xs, end)
  }

  function SizeOfEach<T>(size: T -> nat, xs: seq<T>): nat {
    if xs == [] then 0 else size(xs[0]) + SizeOfEach(size, xs[1..])
  }

  /** Reading an element undoes writing it, and its size is what it takes. */
  ghost predicate Reads<T(!new)>(put: (T, seq<byte>) -> seq<byte>, read: seq<byte> -> Read<T>, size: T -> nat,
                          ok: T -> bool) {
    forall x, tail :: ok(x) ==> read(put(x, tail)) == Read(x, tail) && |put(x, tail)| == size(x) + |tail|
  }

  /** Then the same goes for lists of them. */
  lemma {:induction false} ReadsEach<T(!new)>(put: (T, seq<byte>) -> seq<byte>, read: seq<byte> -> Read<T>,
                                       size: T -> nat, ok: T -> bool,
                                              xs: seq<T>, tail: seq<byte>)
    requires Reads(put, read, size, ok) && forall i :: 0 <= i < |xs| ==> ok(xs[i])
    ensures ReadEach(read, |xs|, PutEach(put, xs, tail)) == Read(xs, tail)
    ensures |PutEach(put, xs, tail)| == SizeOfEach(size, xs) + |tail|
    decreases |xs|
  {
    if xs != [] {
      ReadsEach(put, read, size, ok, xs[1..], tail);
      var rest := PutEach(put, xs[1..], tail);
      assert ok(xs[0]) && read(put(xs[0], rest)) == Read(xs[0], rest);
      assert [xs[0]] + xs[1..] == xs;
    }
  }

  // ---- batches -------------------------------------------------------------

  ghost predicate SoundBatch(b: RecordBatch) { LengthMatches(b) && b.crc == Crc.Crc32c(b.records) }

  /** A batch shorter than its own header overruns like any other field. */
  function ReadBatch(bytes: seq<byte>): Read<RecordBatch> {
    match DecodeWire(bytes)
    case Good(b) => Read(b, [])
    case BadCrc => Failed(InvalidBatch)
    case TooShort => Overrun
  }

  lemma ReadsBatch(b: RecordBatch)
    requires SoundBatch(b)
    ensures ReadBatch(EncodeBatch(b)) == Read(b, []) && |EncodeBatch(b)| == DiskSize(b)
  {
    DecodesWire(b);
  }
}
