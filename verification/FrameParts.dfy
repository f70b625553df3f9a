/** The frame header and the parts that bodies share: error codes, flags, acks, leaders and
    batches, each with its layout and the proof that reading undoes writing. */
module FrameParts {
  import opened Bytes
  import opened RecordBatches
  import opened Wire

  // ---- header --------------------------------------------------------------

  datatype ApiKey = Produce | Fetch | Metadata | CreateTopics

  function ApiKeyNumber(key: ApiKey): u32 {
    match key
    case Produce => 0
    case Fetch => 1
    case Metadata => 3
    case CreateTopics => 19
  }

  function ReadApiKey(buf: seq<byte>): Read<ApiKey> {
    var (n, rest) :- ReadU32(buf);
    if n == 0 then Read(Produce, rest)
    else if n == 1 then Read(Fetch, rest)
    else if n == 3 then Read(Metadata, rest)
    else if n == 19 then Read(CreateTopics, rest)
    else Failed(InvalidApiKey)
  }

  datatype ClientId = Anonymous | Named(name: seq<byte>)

  datatype Header = Header(apiKey: ApiKey, apiVersion: u32, correlationId: u32, clientId: ClientId)

  function PutClientId(id: ClientId, tail: seq<byte>): seq<byte> {
    match id
    case Anonymous => PutI16(-1) + tail
    case Named(name) => PutSignedText(name, tail)
  }

  function ReadClientId(buf: seq<byte>): Read<ClientId> {
    var (n, rest) :- ReadI16(buf);
    if n < 0 then Read(Anonymous, rest)
    else
      var (name, end) :- Take(rest, n);
      if ValidUtf8(name) then Read(Named(name), end) else Failed(InvalidClientId)
  }

  function PutHeader(h: Header, tail: seq<byte>): seq<byte> {
    PutU32(ApiKeyNumber(h.apiKey)) + (PutU32(h.apiVersion) + (PutU32(h.correlationId) + PutClientId(h.clientId, tail)))
  }

  /** The key is looked at only after everything else in the header was read. */
  function ReadHeader(buf: seq<byte>): Read<Header> {
    var (_, b1) :- ReadU32(buf);
    var (apiVersion, b2) :- ReadU32(b1);
    var (correlationId, b3) :- ReadU32(b2);
    var (clientId, rest) :- ReadClientId(b3);
    var (apiKey, _) :- ReadApiKey(buf);
    Read(Header(apiKey, apiVersion, correlationId, clientId), rest)
  }

  function HeaderSize(h: Header): nat { 4 + 4 + 4 + 2 + if h.clientId.Named? then |h.clientId.name| else 0 }

  /** A client id is a string, so it is valid UTF-8, and its length must fit its field. */
  predicate SoundHeader(h: Header) {
    h.clientId.Named? ==> |h.clientId.name| < 0x8000 && ValidUtf8(h.clientId.name)
  }

  lemma ReadsHeader(h: Header, tail: seq<byte>)
    requires SoundHeader(h)
    ensures ReadHeader(PutHeader(h, tail)) == Read(h, tail) && |PutHeader(h, tail)| == HeaderSize(h) + |tail|
  {
    hide PutU32, ReadU32, PutI16, ReadI16, ValidUtf8;
    var b3 := PutClientId(h.clientId, tail);
    var b2 := PutU32(h.correlationId) + b3;
    var b1 := PutU32(h.apiVersion) + b2;
    ReadsU32(ApiKeyNumber(h.apiKey), b1);
    ReadsU32(h.apiVersion, b2);
    ReadsU32(h.correlationId, b3);
    if h.clientId.Named? {
      ReadsI16(CastI16(|h.clientId.name|), h.clientId.name + tail);
      Takes(h.clientId.name, tail);
    } else {
      ReadsI16(-1, tail);
    }
  }

  // ---- small parts ---------------------------------------------------------

  /** Error codes run from -1, the unknown server error, to 133. */
  type ErrorCode = x: int | -1 <= x <= 133

  /** A number that is no error code reads as the unknown server error. */
  function ReadErrorCode(buf: seq<byte>): Read<ErrorCode> {
    var (n, rest) :- ReadI16(buf);
    Read(if -1 <= n <= 133 then n else -1, rest)
  }

  lemma ReadsErrorCode(code: ErrorCode, tail: seq<byte>)
    ensures ReadErrorCode(PutI16(code) + tail) == Read(code, tail) && |PutI16(code) + tail| == 2 + |tail|
  {
    hide PutI16, ReadI16;
    ReadsI16(code, tail);
  }

  function ReadFlag(buf: seq<byte>): Read<bool> {
    var (n, rest) :- ReadByte(buf);
    Read(n != 0, rest)
  }

  lemma ReadsFlag(flag: bool, tail: seq<byte>)
    ensures var buf := [if flag then 1 else 0] + tail; ReadFlag(buf) == Read(flag, tail) && |buf| == 1 + |tail|
  {
    ReadsByte(if flag then 1 else 0, tail);
  }

  datatype Acks = AcksNone | AcksLeader | AcksAll

  function AcksNumber(acks: Acks): u32 {
    match acks
    case AcksNone => 0
    case AcksLeader => 1
    case AcksAll => 2
  }

  function ReadAcks(buf: seq<byte>): Read<Acks> {
    var (n, rest) :- ReadU32(buf);
    if n == 0 then Read(AcksNone, rest)
    else if n == 1 then Read(AcksLeader, rest)
    else if n == 2 then Read(AcksAll, rest)
    else Failed(InvalidAck)
  }

  lemma ReadsAcks(acks: Acks, tail: seq<byte>)
    ensures ReadAcks(PutU32(AcksNumber(acks)) + tail) == Read(acks, tail)
    ensures |PutU32(AcksNumber(acks)) + tail| == 4 + |tail|
  {
    hide PutU32, ReadU32;
    ReadsU32(AcksNumber(acks), tail);
  }

  datatype Leader = NoLeader | Leader(id: i32, epoch: u32)

  function PutLeader(leader: Leader, tail: seq<byte>): seq<byte> {
    match leader
    case NoLeader => [0] + tail
    case Leader(id, epoch) => [1] + (PutI32(id) + (PutU32(epoch) + tail))
  }

  function ReadLeader(buf: seq<byte>): Read<Leader> {
    var (has, b1) :- ReadFlag(buf);
    if !has then Read(NoLeader, b1)
    else
      var (id, b2) :- ReadI32(b1);
      var (epoch, rest) :- ReadU32(b2);
      Read(Leader(id, epoch), rest)
  }

  function LeaderSize(leader: Leader): nat { if leader.NoLeader? then 1 else 1 + 8 }

  lemma ReadsLeader(leader: Leader, tail: seq<byte>)
    ensures ReadLeader(PutLeader(leader, tail)) == Read(leader, tail)
    ensures |PutLeader(leader, tail)| == LeaderSize(leader) + |tail|
  {
    hide PutI32, ReadI32, PutU32, ReadU32, ReadFlag;
    match leader
    case NoLeader => ReadsFlag(false, tail);
    case Leader(id, epoch) =>
      ReadsFlag(true, PutI32(id) + (PutU32(epoch) + tail));
      ReadsI32(id, PutU32(epoch) + tail);
      ReadsU32(epoch, tail);
  }

  /** A batch in a produce request comes after its size in bytes. */
  function PutBatch(b: RecordBatch, tail: seq<byte>): seq<byte> {
    PutU32(CastU32(|EncodeBatch(b)|)) + (EncodeBatch(b) + tail)
  }

  function ReadSizedBatch(buf: seq<byte>): Read<RecordBatch> {
    var (n, b1) :- ReadU32(buf);
    var (bytes, rest) :- Take(b1, n);
    var (b, _) :- ReadBatch(bytes);
    Read(b, rest)
  }

  ghost predicate SoundSizedBatch(b: RecordBatch) { SoundBatch(b) && DiskSize(b) < 0x1_0000_0000 }

  lemma ReadsSizedBatch(b: RecordBatch, tail: seq<byte>)
    requires SoundSizedBatch(b)
    ensures ReadSizedBatch(PutBatch(b, tail)) == Read(b, tail)
    ensures |PutBatch(b, tail)| == 4 + DiskSize(b) + |tail|
  {
    hide EncodeBatch, ReadBatch, PutU32, ReadU32, SoundBatch;
    ReadsBatch(b);
    ReadsU32(CastU32(|EncodeBatch(b)|), EncodeBatch(b) + tail);
    Takes(EncodeBatch(b), tail);
  }

  /** In a fetch response it comes as it is: its own length field says where it ends. */
  function PutRecordBatch(b: RecordBatch, tail: seq<byte>): seq<byte> { EncodeBatch(b) + tail }

  function ReadRecordBatch(buf: seq<byte>): Read<RecordBatch> {
    var (_, b1) :- ReadU64(buf);
    var (n, b2) :- ReadU32(b1);
    var (_, rest) :- Take(b2, n);
    var (b, _) :- ReadBatch(buf[..12 + n]);
    Read(b, rest)
  }

  function SizeRecordBatch(b: RecordBatch): nat { DiskSize(b) }

  ghost predicate SoundRecordBatch(b: RecordBatch) { SoundBatch(b) }

  lemma ReadsRecordBatch(b: RecordBatch, tail: seq<byte>)
    requires SoundRecordBatch(b)
    ensures ReadRecordBatch(PutRecordBatch(b, tail)) == Read(b, tail)
    ensures |PutRecordBatch(b, tail)| == SizeRecordBatch(b) + |tail|
  {
    BatchLayout(b, tail);
    hide EncodeBatch, ReadBatch, PutU32, ReadU32, PutU64, ReadU64, EncodePayload;
    ReadsBatch(b);
    var rest := EncodePayload(b) + tail;
    ReadsU64(b.baseOffset, PutU32(b.batchLength) + rest);
    ReadsU32(b.batchLength, rest);
    DecodesPayload(b);
    Takes(EncodePayload(b), tail);
    Split(EncodeBatch(b), tail);
  }

  lemma BatchLayout(b: RecordBatch, tail: seq<byte>)
    ensures EncodeBatch(b) + tail == PutU64(b.baseOffset) + (PutU32(b.batchLength) + (EncodePayload(b) + tail))
  {
    hide PutU64, PutU32, EncodePayload;
    var a, c, d := PutU64(b.baseOffset), PutU32(b.batchLength), EncodePayload(b);
    assert (a + (c + d)) + tail == a + (c + (d + tail));
  }

  lemma EveryRecordBatch()
    ensures Reads(PutRecordBatch, ReadRecordBatch, SizeRecordBatch, SoundRecordBatch)
  {
    hide PutRecordBatch, ReadRecordBatch, SizeRecordBatch, SoundRecordBatch;
    forall x: RecordBatch, tail | SoundRecordBatch(x)
      ensures ReadRecordBatch(PutRecordBatch(x, tail)) == Read(x, tail)
      ensures |PutRecordBatch(x, tail)| == SizeRecordBatch(x) + |tail|
    {
      ReadsRecordBatch(x, tail);
    }
  }
}
