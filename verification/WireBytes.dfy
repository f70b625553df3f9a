/** The bytes on the wire and on disk, one by one: every field of a record, a batch header and
    each of the eight bodies in its place, for all values of one byte and lists of one element.
    Since reading undoes writing, this fixes what is read too. */
module WireBytes {
  import opened Bytes
  import opened Records
  import opened RecordBatches
  import opened Wire
  import opened FrameParts
  import opened Requests
  import opened Responses

  // ---- numbers -------------------------------------------------------------

  /** The first byte counts most. */
  lemma BigEndian(a: byte, b: byte, c: byte, d: byte)
    ensures AsU16([a, b]) == 256 * a + b
    ensures AsU32([a, b, c, d]) == 256 * (256 * (256 * a + b) + c) + d
  {
    assert [a, b][..1] == [a] && [a][..0] == [];
    assert [a, b, c, d][..3] == [a, b, c] && [a, b, c][..2] == [a, b];
    assert FromBE([a]) == a && FromBE([a, b]) == 256 * a + b && FromBE([a, b, c]) == 256 * (256 * a + b) + c;
  }

  lemma BigEndianLong(s: seq<byte>)
    requires |s| == 8
    ensures AsU64(s) == 0x1_0000_0000 * AsU32(s[..4]) + AsU32(s[4..])
  {
    BigEndian(s[0], s[1], s[2], s[3]);
    BigEndian(s[4], s[5], s[6], s[7]);
    assert s[..4] == [s[0], s[1], s[2], s[3]] && s[4..] == [s[4], s[5], s[6], s[7]];
    assert s[..7][..6][..5][..4] == s[..4];
    assert FromBE(s[..5]) == 256 * FromBE(s[..4]) + s[4] by { assert s[..5][..4] == s[..4]; }
    assert FromBE(s[..6]) == 256 * FromBE(s[..5]) + s[5] by { assert s[..6][..5] == s[..5]; }
    assert FromBE(s[..7]) == 256 * FromBE(s[..6]) + s[6] by { assert s[..7][..6] == s[..6]; }
  }

  /** Negative numbers are in two's complement. */
  lemma Negative(x: int)
    requires -0x8000 <= x < 0
    ensures PutI16(x) == PutU16(0x1_0000 + x) && PutI32(x) == PutU32(0x1_0000_0000 + x)
    ensures PutI64(x) == PutU64(0x1_0000_0000_0000_0000 + x)
  {
  }

  lemma Small(x: byte)
    ensures PutU16(x) == PutI16(x) == [0, x] && PutU32(x) == PutI32(x) == [0, 0, 0, x]
    ensures PutU64(x) == PutI64(x) == [0, 0, 0, 0, 0, 0, 0, x]
  {
    hide ToBE;
    LastByte(x, 1);
    LastByte(x, 3);
    LastByte(x, 7);
  }

  lemma LastByte(x: byte, width: nat)
    ensures ToBE(x, width + 1) == seq(width, i => 0) + [x]
  {
    assert x / 256 == 0 && x % 256 == x;
    Zeros(width);
  }

  lemma {:induction false} Zeros(width: nat)
    ensures ToBE(0, width) == seq(width, i => 0)
    decreases width
  {
    if width > 0 { Zeros(width - 1); }
  }

  lemma OneByte(x: byte)
    ensures ToBE(x, 1) == [x]
  {
    assert ToBE(x, 1) == ToBE(x / 256, 0) + [x % 256];
  }

  lemma MinusOne()
    ensures PutI16(-1) == [255, 255]
  {
    assert ToBE(65535, 2) == ToBE(255, 1) + [255];
    OneByte(255);
  }

  lemma OnePut<T>(put: (T, seq<byte>) -> seq<byte>, x: T, tail: seq<byte>)
    ensures PutEach(put, [x], tail) == put(x, tail)
  {
    assert [x][1..] == [];
  }

  // ---- records and batches -------------------------------------------------

  lemma HeaderListBytes(k: byte, v: byte)
    ensures EncodeHeaders([RecordHeader([k], [v])]) ==
            ([0, 0, 0, 1] + [k]) + (([0, 0, 0, 1] + [v]) + [])
  {
    hide PutU16, PutU32, PutU64, PutI16, PutI32, PutI64;
    Small(1);
    assert [RecordHeader([k], [v])][1..] == [];
  }

  /** A record with a key, a value and one header, of a byte each: 45 bytes in all. */
  lemma RecordBytes(a: byte, t: byte, o: byte, k: byte, v: byte, hk: byte, hv: byte)
    ensures WellFormed(Record(45, a, t, o, [k], [v], [RecordHeader([hk], [hv])]))
    ensures EncodeRecord(Record(45, a, t, o, [k], [v], [RecordHeader([hk], [hv])])) ==
            [0, 0, 0, 45] + ([a] + ([0, 0, 0, 0, 0, 0, 0, t] + ([0, 0, 0, 0, 0, 0, 0, o] + (([0, 0, 0, 1] +
            [k]) + (([0, 0, 0, 1] + [v]) + ([0, 0, 0, 1] + (([0, 0, 0, 1] + [hk]) + (([0, 0, 0, 1]
            + [hv]) + []))))))))
  {
    hide PutU16, PutU32, PutU64, PutI16, PutI32, PutI64, EncodeHeaders;
    assert [RecordHeader([hk], [hv])][1..] == [] && HeadersSize([RecordHeader([hk], [hv])]) == 10;
    OneByte(a);
    HeaderListBytes(hk, hv);
    Small(45);
    Small(t);
    Small(o);
    Small(1);
  }

  /** The thirteen header fields of a batch, 61 bytes, and then its records. */
  lemma BatchBytes(base: byte, length: byte, epoch: byte, magic: byte, crc: byte, attributes: byte, last: byte,
          first: byte, latest: byte, producer: byte, era: byte, sequence: byte, count: byte, records: seq<byte>)
    ensures EncodeBatch(RecordBatch(base, length, epoch, magic, crc, attributes, last, first, latest, producer, era,
              sequence, count, records)) ==
            [0, 0, 0, 0, 0, 0, 0, base] + ([0, 0, 0, length] + ([0, 0, 0, epoch] + ([magic] +
            ([0, 0, 0, crc] + ([0, attributes] + ([0, 0, 0, last] + ([0, 0, 0, 0, 0, 0, 0, first] +
            ([0, 0, 0, 0, 0, 0, 0, latest] + ([0, 0, 0, 0, 0, 0, 0, producer] + ([0, era] +
            ([0, 0, 0, sequence] + ([0, 0, 0, count] + records))))))))))))
  {
    hide PutU16, PutU32, PutU64, PutI16, PutI32, PutI64;
    Small(base);
    Small(length);
    Small(epoch);
    Small(crc);
    Small(attributes);
    Small(last);
    Small(first);
    Small(latest);
    Small(producer);
    Small(era);
    Small(sequence);
    Small(count);
  }

  // ---- the frame header ----------------------------------------------------

  /** A header with a client id, and one without. */
  lemma HeaderBytes(version: byte, correlation: byte, name: byte, tail: seq<byte>)
    ensures PutHeader(Header(CreateTopics, version, correlation, Named([name])), tail) ==
            [0, 0, 0, 19] + ([0, 0, 0, version] + ([0, 0, 0, correlation] + ([0, 1] + ([name] +
            tail))))
  {
    hide PutU16, PutU32, PutU64, PutI16, PutI32, PutI64;
    Small(19);
    Small(version);
    Small(correlation);
    Small(1);
  }

  lemma AnonymousBytes(version: byte, correlation: byte, tail: seq<byte>)
    ensures PutHeader(Header(Metadata, version, correlation, Anonymous), tail) ==
            [0, 0, 0, 3] + ([0, 0, 0, version] + ([0, 0, 0, correlation] + ([255, 255] + tail)))
  {
    hide PutU16, PutU32, PutU64, PutI16, PutI32, PutI64;
    Small(3);
    Small(version);
    Small(correlation);
    MinusOne();
  }

  /** Which four bytes are read as which key and level, and that any others are refused. */
  lemma NumbersRead(buf: seq<byte>)
    requires |buf| >= 4
    ensures ReadApiKey(buf) ==
            if buf[..4] == [0, 0, 0, 0] then Read(Produce, buf[4..])
            else if buf[..4] == [0, 0, 0, 1] then Read(Fetch, buf[4..])
            else if buf[..4] == [0, 0, 0, 3] then Read(Metadata, buf[4..])
            else if buf[..4] == [0, 0, 0, 19] then Read(CreateTopics, buf[4..])
            else Failed(InvalidApiKey)
    ensures ReadAcks(buf) ==
            if buf[..4] == [0, 0, 0, 0] then Read(AcksNone, buf[4..])
            else if buf[..4] == [0, 0, 0, 1] then Read(AcksLeader, buf[4..])
            else if buf[..4] == [0, 0, 0, 2] then Read(AcksAll, buf[4..])
            else Failed(InvalidAck)
  {
    hide AsU32;
    BigEndian(buf[0], buf[1], buf[2], buf[3]);
    assert buf[..4] == [buf[0], buf[1], buf[2], buf[3]];
  }

  // ---- requests ------------------------------------------------------------

  lemma MetadataRequestBytes(name: byte, tail: seq<byte>)
    ensures PutMetadataRequest(MetadataRequest([TopicName([name])], true), tail) ==
            [0, 0, 0, 1] + ([0, 1] + ([name] + ([1] + tail)))
  {
    hide PutU16, PutU32, PutU64, PutI16, PutI32, PutI64;
    Small(1);
    OnePut(PutTopicName, TopicName([name]), [1] + tail);
  }

  lemma FetchRequestBytes(replica: byte, limit: byte, name: byte, p: byte, o: byte, most: byte, h: byte, tail:
          seq<byte>)
    ensures PutFetchRequest(FetchRequest(replica, limit, [FetchTopic([name], [FetchPartition(p, o, most, h)])]),
              tail) ==
            [0, 0, 0, replica] + ([0, 0, 0, limit] + ([0, 0, 0, 1] + ([0, 1] + ([name] +
            ([0, 0, 0, 1] + ([0, 0, 0, p] + ([0, 0, 0, 0, 0, 0, 0, o] + ([0, 0, 0, most] +
            ([0, 0, 0, 0, 0, 0, 0, h] + tail)))))))))
  {
    hide PutU16, PutU32, PutU64, PutI16, PutI32, PutI64;
    Small(replica);
    Small(limit);
    Small(1);
    Small(p);
    Small(o);
    Small(most);
    Small(h);
    var x := FetchPartition(p, o, most, h);
    OnePut(PutFetchPartition, x, tail);
    OnePut(PutFetchTopic, FetchTopic([name], [x]), tail);
  }

  /** A produce request holds each batch after its size in bytes. */
  lemma ProduceRequestBytes(id: byte, timeout: byte, name: byte, p: byte, b: RecordBatch, tail: seq<byte>)
    requires |EncodeBatch(b)| < 256
    ensures PutProduceRequest(ProduceRequest(id, AcksAll, timeout, [ProduceTopic([name], [ProducePartition(p, b)])]),
              tail) ==
            [0, 0, 0, 0, 0, 0, 0, id] + ([0, 0, 0, 2] + ([0, 0, 0, 0, 0, 0, 0, timeout] + ([0, 1] +
            ([0, 1] + ([name] + ([0, 0, 0, 1] + ([0, p] + ([0, 0, 0, |EncodeBatch(b)|] +
            (EncodeBatch(b) + tail)))))))))
  {
    hide PutU16, PutU32, PutU64, PutI16, PutI32, PutI64, EncodeBatch;
    Small(id);
    Small(2);
    Small(timeout);
    Small(1);
    Small(p);
    Small(|EncodeBatch(b)|);
    var x := ProducePartition(p, b);
    OnePut(PutProducePartition, x, tail);
    OnePut(PutProduceTopic, ProduceTopic([name], [x]), tail);
  }

  lemma CreateTopicRequestBytes(name: byte, parts: byte, factor: byte, p: byte, broker: byte, timeout: byte, tail:
          seq<byte>)
    ensures PutCreateTopicRequest(CreateTopicRequest([TopicRequest([name], parts, factor, [Assignment(p, broker)])],
              timeout, false), tail) ==
            [0, 1] + ([0, 1] + ([name] + ([0, 0, 0, parts] + ([0, factor] + ([0, 1] +
            ([0, 0, 0, p] + ([0, 0, 0, broker] + ([0, 0, 0, timeout] + ([0] + tail)))))))))
  {
    hide PutU16, PutU32, PutU64, PutI16, PutI32, PutI64;
    Small(1);
    Small(parts);
    Small(factor);
    Small(p);
    Small(broker);
    Small(timeout);
    var rest := [0, 0, 0, timeout] + ([0] + tail);
    OnePut(PutAssignment, Assignment(p, broker), rest);
    OnePut(PutTopicRequest, TopicRequest([name], parts, factor, [Assignment(p, broker)]), rest);
  }

  // ---- responses -----------------------------------------------------------

  /** A fetch response holds each batch as it is. */
  lemma FetchResponseBytes(throttle: byte, name: byte, p: byte, code: byte, h: byte, start: byte, b: RecordBatch,
          tail: seq<byte>)
    requires code <= 133
    ensures PutFetchResponse(FetchResponse(throttle, [TopicResponse([name], [PartitionResponse(p, code, h, start,
              [b])])]), tail) ==
            [0, 0, 0, throttle] + ([0, 0, 0, 1] + ([0, 1] + ([name] + ([0, 0, 0, 1] + ([0, 0, 0, p]
            + ([0, code] + ([0, 0, 0, 0, 0, 0, 0, h] + ([0, 0, 0, 0, 0, 0, 0, start] + ([0, 0, 0, 1] +
            (EncodeBatch(b) + tail))))))))))
  {
    hide PutU16, PutU32, PutU64, PutI16, PutI32, PutI64, EncodeBatch;
    Small(throttle);
    Small(1);
    Small(p);
    Small(code);
    Small(h);
    Small(start);
    var x := PartitionResponse(p, code, h, start, [b]);
    OnePut(PutRecordBatch, b, tail);
    OnePut(PutPartitionResponse, x, tail);
    OnePut(PutTopicResponse, TopicResponse([name], [x]), tail);
  }

  lemma ProduceResponseBytes(throttle: byte, name: byte, p: byte, code: byte, base: byte, time: byte, start: byte,
          text: byte, leader: byte, epoch: byte, tail: seq<byte>)
    requires code <= 133
    ensures PutProduceResponse(ProduceResponse(throttle, [ProduceTopicResponse([name], [ProducePartitionResponse(p,
              code, base, time, start, [text], Leader(leader, epoch))])]), tail) ==
            [0, 0, 0, throttle] + ([0, 0, 0, 1] + ([0, 1] + ([name] + ([0, 0, 0, 1] + ([0, 0, 0, p]
            + ([0, code] + ([0, 0, 0, 0, 0, 0, 0, base] + ([0, 0, 0, 0, 0, 0, 0, time] +
            ([0, 0, 0, 0, 0, 0, 0, start] + ([0, 1] + ([text] + ([1] + ([0, 0, 0, leader] +
            ([0, 0, 0, epoch] + tail))))))))))))))
  {
    hide PutU16, PutU32, PutU64, PutI16, PutI32, PutI64;
    Small(throttle);
    Small(1);
    Small(p);
    Small(code);
    Small(base);
    Small(time);
    Small(start);
    Small(leader);
    Small(epoch);
    var x := ProducePartitionResponse(p, code, base, time, start, [text], Leader(leader, epoch));
    OnePut(PutProducePartitionResponse, x, tail);
    OnePut(PutProduceTopicResponse, ProduceTopicResponse([name], [x]), tail);
  }

  lemma CreateTopicResponseBytes(throttle: byte, name: byte, code: byte, text: byte, parts: byte, factor: byte, tail:
          seq<byte>)
    requires code <= 133
    ensures PutCreateTopicResponse(CreateTopicResponse(throttle, [CreatedTopic([name], code, [text], parts,
              factor)]), tail) ==
            [0, 0, 0, throttle] + ([0, 1] + ([0, 1] + ([name] + ([0, code] + ([0, 1] + ([text]
            + ([0, 0, 0, parts] + ([0, factor] + tail))))))))
  {
    hide PutU16, PutU32, PutU64, PutI16, PutI32, PutI64;
    Small(throttle);
    Small(1);
    Small(code);
    Small(parts);
    Small(factor);
    OnePut(PutCreatedTopic, CreatedTopic([name], code, [text], parts, factor), tail);
  }

  lemma TopicMetadataBytes(tcode: byte, name: byte, pcode: byte, p: byte, leader: byte, replicas: byte, isr: byte,
          offline: byte, tail: seq<byte>)
    requires tcode <= 133 && pcode <= 133
    ensures PutTopicMetadata(TopicMetadata(tcode, [name], [PartitionMetadata(pcode, p, leader, replicas, isr,
              offline)]), tail) ==
            [0, tcode] + ([0, 1] + ([name] + ([0, 0, 0, 1] + ([0, pcode] + ([0, 0, 0, p] +
            ([0, 0, 0, leader] + ([0, 0, 0, replicas] + ([0, 0, 0, isr] + ([0, 0, 0, offline] +
            tail)))))))))
  {
    hide PutU16, PutU32, PutU64, PutI16, PutI32, PutI64;
    Small(tcode);
    Small(1);
    Small(pcode);
    Small(p);
    Small(leader);
    Small(replicas);
    Small(isr);
    Small(offline);
    OnePut(PutPartitionMetadata, PartitionMetadata(pcode, p, leader, replicas, isr, offline), tail);
  }

  lemma MetadataResponseBytes(throttle: byte, node: byte, host: byte, port: byte, controller: byte, code: byte,
          topic: TopicMetadata, tail: seq<byte>)
    requires code <= 133
    ensures PutMetadataResponse(MetadataResponse(throttle, [BrokerMetadata(node, [host], port)], controller, [topic],
              code), tail) ==
            [0, 0, 0, throttle] + ([0, 0, 0, 1] + ([0, 0, 0, node] + ([0, 1] + ([host] +
            ([0, 0, 0, port] + ([0, 0, 0, controller] + ([0, 0, 0, 1] + PutTopicMetadata(topic,
            [0, code] + tail))))))))
  {
    hide PutU16, PutU32, PutU64, PutI16, PutI32, PutI64, PutTopicMetadata;
    Small(throttle);
    Small(1);
    Small(node);
    Small(port);
    Small(controller);
    Small(code);
    OnePut(PutTopicMetadata, topic, [0, code] + tail);
    OnePut(PutBrokerMetadata, BrokerMetadata(node, [host], port),
           [0, 0, 0, controller] + ([0, 0, 0, 1] + PutTopicMetadata(topic, [0, code] + tail)));
  }
}
