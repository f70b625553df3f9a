/** The four response bodies: how each is laid out, what its decoder reads, and its size. */
module Responses {
  import opened Bytes
  import opened RecordBatches
  import opened Wire
  import opened FrameParts

  // ---- fetch response ------------------------------------------------------

  datatype PartitionResponse = PartitionResponse(partitionIndex: u32, errorCode: ErrorCode, highWatermark: u64,
    logStartOffset: u64, records: seq<RecordBatch>)

  function PutPartitionResponse(x: PartitionResponse, tail: seq<byte>): seq<byte> {
    PutU32(x.partitionIndex) + (PutI16(x.errorCode) + (PutU64(x.highWatermark) + (PutU64(x.logStartOffset)
    + (PutU32(CastU32(|x.records|)) + PutEach(PutRecordBatch, x.records, tail)))))
  }

  function ReadPartitionResponse(buf: seq<byte>): Read<PartitionResponse> {
    var (partitionIndex, b1) :- ReadU32(buf);
    var (errorCode, b2) :- ReadErrorCode(b1);
    var (highWatermark, b3) :- ReadU64(b2);
    var (logStartOffset, b4) :- ReadU64(b3);
    var (n5, b5) :- ReadU32(b4);
    var (records, rest) :- ReadEach(ReadRecordBatch, n5, b5);
    Read(PartitionResponse(partitionIndex, errorCode, highWatermark, logStartOffset, records), rest)
  }

  function SizePartitionResponse(x: PartitionResponse): nat {
    4 + 2 + 8 + 8 + 4 + SizeOfEach(SizeRecordBatch, x.records)
  }

  ghost predicate SoundPartitionResponse(x: PartitionResponse) {
    && |x.records| < 0x1_0000_0000 && (forall i :: 0 <= i < |x.records| ==> SoundRecordBatch(x.records[i]))
  }

  lemma ReadsPartitionResponse(x: PartitionResponse, tail: seq<byte>)
    requires SoundPartitionResponse(x)
    ensures ReadPartitionResponse(PutPartitionResponse(x, tail)) == Read(x, tail)
    ensures |PutPartitionResponse(x, tail)| == SizePartitionResponse(x) + |tail|
  {
    hide PutEach, PutI16, PutRecordBatch, PutU32, PutU64, ReadEach, ReadErrorCode, ReadRecordBatch, ReadU32, ReadU64,
      SizeOfEach, SizeRecordBatch, SoundRecordBatch;
    ReadsU32(CastU32(|x.records|), PutEach(PutRecordBatch, x.records, tail));
    EveryRecordBatch();
    ReadsEach(PutRecordBatch, ReadRecordBatch, SizeRecordBatch, SoundRecordBatch, x.records, tail);
    var t4 := PutU32(CastU32(|x.records|)) + PutEach(PutRecordBatch, x.records, tail);
    ReadsU64(x.logStartOffset, t4);
    var t3 := PutU64(x.logStartOffset) + t4;
    ReadsU64(x.highWatermark, t3);
    var t2 := PutU64(x.highWatermark) + t3;
    ReadsErrorCode(x.errorCode, t2);
    var t1 := PutI16(x.errorCode) + t2;
    ReadsU32(x.partitionIndex, t1);
  }

  lemma EveryPartitionResponse()
    ensures Reads(PutPartitionResponse, ReadPartitionResponse, SizePartitionResponse, SoundPartitionResponse)
  {
    hide PutPartitionResponse, ReadPartitionResponse, SizePartitionResponse, SoundPartitionResponse;
    forall x: PartitionResponse, tail | SoundPartitionResponse(x)
      ensures ReadPartitionResponse(PutPartitionResponse(x, tail)) == Read(x, tail)
      ensures |PutPartitionResponse(x, tail)| == SizePartitionResponse(x) + |tail|
    {
      ReadsPartitionResponse(x, tail);
    }
  }

  // ---- fetch response, topics ----------------------------------------------

  datatype TopicResponse = TopicResponse(topic: seq<byte>, partitions: seq<PartitionResponse>)

  function PutTopicResponse(x: TopicResponse, tail: seq<byte>): seq<byte> {
    PutText(x.topic, PutU32(CastU32(|x.partitions|)) + PutEach(PutPartitionResponse, x.partitions, tail))
  }

  function ReadTopicResponse(buf: seq<byte>): Read<TopicResponse> {
    var (topic, b1) :- ReadText(buf);
    var (n2, b2) :- ReadU32(b1);
    var (partitions, rest) :- ReadEach(ReadPartitionResponse, n2, b2);
    Read(TopicResponse(topic, partitions), rest)
  }

  function SizeTopicResponse(x: TopicResponse): nat {
    2 + |x.topic| + 4 + SizeOfEach(SizePartitionResponse, x.partitions)
  }

  ghost predicate SoundTopicResponse(x: TopicResponse) {
    && |x.topic| < 0x1_0000
    && |x.partitions| < 0x1_0000_0000 && (forall i :: 0 <= i < |x.partitions| ==> SoundPartitionResponse(x.partitions[i]))
  }

  lemma ReadsTopicResponse(x: TopicResponse, tail: seq<byte>)
    requires SoundTopicResponse(x)
    ensures ReadTopicResponse(PutTopicResponse(x, tail)) == Read(x, tail)
    ensures |PutTopicResponse(x, tail)| == SizeTopicResponse(x) + |tail|
  {
    hide PutEach, PutPartitionResponse, PutText, PutU32, ReadEach, ReadPartitionResponse, ReadText, ReadU32,
      SizeOfEach, SizePartitionResponse, SoundPartitionResponse;
    ReadsU32(CastU32(|x.partitions|), PutEach(PutPartitionResponse, x.partitions, tail));
    EveryPartitionResponse();
    ReadsEach(PutPartitionResponse, ReadPartitionResponse, SizePartitionResponse, SoundPartitionResponse,
      x.partitions, tail);
    var t1 := PutU32(CastU32(|x.partitions|)) + PutEach(PutPartitionResponse, x.partitions, tail);
    ReadsText(x.topic, t1);
  }

  lemma EveryTopicResponse()
    ensures Reads(PutTopicResponse, ReadTopicResponse, SizeTopicResponse, SoundTopicResponse)
  {
    hide PutTopicResponse, ReadTopicResponse, SizeTopicResponse, SoundTopicResponse;
    forall x: TopicResponse, tail | SoundTopicResponse(x)
      ensures ReadTopicResponse(PutTopicResponse(x, tail)) == Read(x, tail)
      ensures |PutTopicResponse(x, tail)| == SizeTopicResponse(x) + |tail|
    {
      ReadsTopicResponse(x, tail);
    }
  }

  // ---- fetch response, whole -----------------------------------------------

  datatype FetchResponse = FetchResponse(throttleTimeMs: u32, responses: seq<TopicResponse>)

  function PutFetchResponse(x: FetchResponse, tail: seq<byte>): seq<byte> {
    PutU32(x.throttleTimeMs) + (PutU32(CastU32(|x.responses|)) + PutEach(PutTopicResponse, x.responses, tail))
  }

  function ReadFetchResponse(buf: seq<byte>): Read<FetchResponse> {
    var (throttleTimeMs, b1) :- ReadU32(buf);
    var (n2, b2) :- ReadU32(b1);
    var (responses, rest) :- ReadEach(ReadTopicResponse, n2, b2);
    Read(FetchResponse(throttleTimeMs, responses), rest)
  }

  function SizeFetchResponse(x: FetchResponse): nat { 4 + 4 + SizeOfEach(SizeTopicResponse, x.responses) }

  ghost predicate SoundFetchResponse(x: FetchResponse) {
    && |x.responses| < 0x1_0000_0000 && (forall i :: 0 <= i < |x.responses| ==> SoundTopicResponse(x.responses[i]))
  }

  lemma ReadsFetchResponse(x: FetchResponse, tail: seq<byte>)
    requires SoundFetchResponse(x)
    ensures ReadFetchResponse(PutFetchResponse(x, tail)) == Read(x, tail)
    ensures |PutFetchResponse(x, tail)| == SizeFetchResponse(x) + |tail|
  {
    hide PutEach, PutTopicResponse, PutU32, ReadEach, ReadTopicResponse, ReadU32, SizeOfEach, SizeTopicResponse,
      SoundTopicResponse;
    ReadsU32(CastU32(|x.responses|), PutEach(PutTopicResponse, x.responses, tail));
    EveryTopicResponse();
    ReadsEach(PutTopicResponse, ReadTopicResponse, SizeTopicResponse, SoundTopicResponse, x.responses, tail);
    var t1 := PutU32(CastU32(|x.responses|)) + PutEach(PutTopicResponse, x.responses, tail);
    ReadsU32(x.throttleTimeMs, t1);
  }

  // ---- produce response ----------------------------------------------------

  datatype ProducePartitionResponse = ProducePartitionResponse(index: u32, errorCode: ErrorCode, baseOffset: u64,
    logAppendTimeMs: u64, logStartOffset: u64, errorMessage: seq<byte>, currentLeader: Leader)

  function PutProducePartitionResponse(x: ProducePartitionResponse, tail: seq<byte>): seq<byte> {
    PutU32(x.index) + (PutI16(x.errorCode) + (PutU64(x.baseOffset) + (PutU64(x.logAppendTimeMs)
    + (PutU64(x.logStartOffset) + PutSignedText(x.errorMessage, PutLeader(x.currentLeader, tail))))))
  }

  function ReadProducePartitionResponse(buf: seq<byte>): Read<ProducePartitionResponse> {
    var (index, b1) :- ReadU32(buf);
    var (errorCode, b2) :- ReadErrorCode(b1);
    var (baseOffset, b3) :- ReadU64(b2);
    var (logAppendTimeMs, b4) :- ReadU64(b3);
    var (logStartOffset, b5) :- ReadU64(b4);
    var (errorMessage, b6) :- ReadMessage(b5);
    var (currentLeader, rest) :- ReadLeader(b6);
    Read(ProducePartitionResponse(index, errorCode, baseOffset, logAppendTimeMs, logStartOffset, errorMessage, currentLeader), rest)
  }

  function SizeProducePartitionResponse(x: ProducePartitionResponse): nat {
    4 + 2 + 8 + 8 + 8 + 2 + |x.errorMessage| + LeaderSize(x.currentLeader)
  }

  ghost predicate SoundProducePartitionResponse(x: ProducePartitionResponse) { |x.errorMessage| < 0x8000 }

  lemma ReadsProducePartitionResponse(x: ProducePartitionResponse, tail: seq<byte>)
    requires SoundProducePartitionResponse(x)
    ensures ReadProducePartitionResponse(PutProducePartitionResponse(x, tail)) == Read(x, tail)
    ensures |PutProducePartitionResponse(x, tail)| == SizeProducePartitionResponse(x) + |tail|
  {
    hide LeaderSize, PutI16, PutLeader, PutSignedText, PutU32, PutU64, ReadErrorCode, ReadLeader, ReadMessage,
      ReadU32, ReadU64;
    ReadsLeader(x.currentLeader, tail);
    var t6 := PutLeader(x.currentLeader, tail);
    ReadsMessage(x.errorMessage, t6);
    var t5 := PutSignedText(x.errorMessage, t6);
    ReadsU64(x.logStartOffset, t5);
    var t4 := PutU64(x.logStartOffset) + t5;
    ReadsU64(x.logAppendTimeMs, t4);
    var t3 := PutU64(x.logAppendTimeMs) + t4;
    ReadsU64(x.baseOffset, t3);
    var t2 := PutU64(x.baseOffset) + t3;
    ReadsErrorCode(x.errorCode, t2);
    var t1 := PutI16(x.errorCode) + t2;
    ReadsU32(x.index, t1);
  }

  lemma EveryProducePartitionResponse()
    ensures Reads(PutProducePartitionResponse, ReadProducePartitionResponse, SizeProducePartitionResponse, SoundProducePartitionResponse)
  {
    hide PutProducePartitionResponse, ReadProducePartitionResponse, SizeProducePartitionResponse,
      SoundProducePartitionResponse;
    forall x: ProducePartitionResponse, tail | SoundProducePartitionResponse(x)
      ensures ReadProducePartitionResponse(PutProducePartitionResponse(x, tail)) == Read(x, tail)
      ensures |PutProducePartitionResponse(x, tail)| == SizeProducePartitionResponse(x) + |tail|
    {
      ReadsProducePartitionResponse(x, tail);
    }
  }

  // ---- produce response, topics --------------------------------------------

  datatype ProduceTopicResponse = ProduceTopicResponse(topic: seq<byte>,
    partitionResponses: seq<ProducePartitionResponse>)

  function PutProduceTopicResponse(x: ProduceTopicResponse, tail: seq<byte>): seq<byte> {
    PutText(x.topic, PutU32(CastU32(|x.partitionResponses|)) + PutEach(PutProducePartitionResponse,
    x.partitionResponses, tail))
  }

  function ReadProduceTopicResponse(buf: seq<byte>): Read<ProduceTopicResponse> {
    var (topic, b1) :- ReadText(buf);
    var (n2, b2) :- ReadU32(b1);
    var (partitionResponses, rest) :- ReadEach(ReadProducePartitionResponse, n2, b2);
    Read(ProduceTopicResponse(topic, partitionResponses), rest)
  }

  function SizeProduceTopicResponse(x: ProduceTopicResponse): nat {
    2 + |x.topic| + 4 + SizeOfEach(SizeProducePartitionResponse, x.partitionResponses)
  }

  ghost predicate SoundProduceTopicResponse(x: ProduceTopicResponse) {
    && |x.topic| < 0x1_0000
    && |x.partitionResponses| < 0x1_0000_0000 && (forall i :: 0 <= i < |x.partitionResponses| ==> SoundProducePartitionResponse(x.partitionResponses[i]))
  }

  lemma ReadsProduceTopicResponse(x: ProduceTopicResponse, tail: seq<byte>)
    requires SoundProduceTopicResponse(x)
    ensures ReadProduceTopicResponse(PutProduceTopicResponse(x, tail)) == Read(x, tail)
    ensures |PutProduceTopicResponse(x, tail)| == SizeProduceTopicResponse(x) + |tail|
  {
    hide PutEach, PutProducePartitionResponse, PutText, PutU32, ReadEach, ReadProducePartitionResponse, ReadText,
      ReadU32, SizeOfEach, SizeProducePartitionResponse, SoundProducePartitionResponse;
    ReadsU32(CastU32(|x.partitionResponses|), PutEach(PutProducePartitionResponse, x.partitionResponses, tail));
    EveryProducePartitionResponse();
    ReadsEach(PutProducePartitionResponse, ReadProducePartitionResponse, SizeProducePartitionResponse,
      SoundProducePartitionResponse, x.partitionResponses, tail);
    var t1 := PutU32(CastU32(|x.partitionResponses|)) + PutEach(PutProducePartitionResponse, x.partitionResponses,
      tail);
    ReadsText(x.topic, t1);
  }

  lemma EveryProduceTopicResponse()
    ensures Reads(PutProduceTopicResponse, ReadProduceTopicResponse, SizeProduceTopicResponse, SoundProduceTopicResponse)
  {
    hide PutProduceTopicResponse, ReadProduceTopicResponse, SizeProduceTopicResponse, SoundProduceTopicResponse;
    forall x: ProduceTopicResponse, tail | SoundProduceTopicResponse(x)
      ensures ReadProduceTopicResponse(PutProduceTopicResponse(x, tail)) == Read(x, tail)
      ensures |PutProduceTopicResponse(x, tail)| == SizeProduceTopicResponse(x) + |tail|
    {
      ReadsProduceTopicResponse(x, tail);
    }
  }

  // ---- produce response, whole ---------------------------------------------

  datatype ProduceResponse = ProduceResponse(throttleTimeMs: u32, responses: seq<ProduceTopicResponse>)

  function PutProduceResponse(x: ProduceResponse, tail: seq<byte>): seq<byte> {
    PutU32(x.throttleTimeMs) + (PutU32(CastU32(|x.responses|)) + PutEach(PutProduceTopicResponse, x.responses, tail))
  }

  function ReadProduceResponse(buf: seq<byte>): Read<ProduceResponse> {
    var (throttleTimeMs, b1) :- ReadU32(buf);
    var (n2, b2) :- ReadU32(b1);
    var (responses, rest) :- ReadEach(ReadProduceTopicResponse, n2, b2);
    Read(ProduceResponse(throttleTimeMs, responses), rest)
  }

  function SizeProduceResponse(x: ProduceResponse): nat { 4 + 4 + SizeOfEach(SizeProduceTopicResponse, x.responses) }

  ghost predicate SoundProduceResponse(x: ProduceResponse) {
    && |x.responses| < 0x1_0000_0000 && (forall i :: 0 <= i < |x.responses| ==> SoundProduceTopicResponse(x.responses[i]))
  }

  lemma ReadsProduceResponse(x: ProduceResponse, tail: seq<byte>)
    requires SoundProduceResponse(x)
    ensures ReadProduceResponse(PutProduceResponse(x, tail)) == Read(x, tail)
    ensures |PutProduceResponse(x, tail)| == SizeProduceResponse(x) + |tail|
  {
    hide PutEach, PutProduceTopicResponse, PutU32, ReadEach, ReadProduceTopicResponse, ReadU32, SizeOfEach,
      SizeProduceTopicResponse, SoundProduceTopicResponse;
    ReadsU32(CastU32(|x.responses|), PutEach(PutProduceTopicResponse, x.responses, tail));
    EveryProduceTopicResponse();
    ReadsEach(PutProduceTopicResponse, ReadProduceTopicResponse, SizeProduceTopicResponse, SoundProduceTopicResponse,
      x.responses, tail);
    var t1 := PutU32(CastU32(|x.responses|)) + PutEach(PutProduceTopicResponse, x.responses, tail);
    ReadsU32(x.throttleTimeMs, t1);
  }

  // ---- create topics response ----------------------------------------------

  datatype CreatedTopic = CreatedTopic(name: seq<byte>, errorCode: ErrorCode, errorMessage: seq<byte>,
    numPartitions: i32, replicationFactor: u16)

  function PutCreatedTopic(x: CreatedTopic, tail: seq<byte>): seq<byte> {
    PutText(x.name, PutI16(x.errorCode) + (PutText(x.errorMessage, PutI32(x.numPartitions)
    + (PutU16(x.replicationFactor) + tail))))
  }

  function ReadCreatedTopic(buf: seq<byte>): Read<CreatedTopic> {
    var (name, b1) :- ReadText(buf);
    var (errorCode, b2) :- ReadErrorCode(b1);
    var (errorMessage, b3) :- ReadText(b2);
    var (numPartitions, b4) :- ReadI32(b3);
    var (replicationFactor, rest) :- ReadU16(b4);
    Read(CreatedTopic(name, errorCode, errorMessage, numPartitions, replicationFactor), rest)
  }

  function SizeCreatedTopic(x: CreatedTopic): nat { 2 + |x.name| + 2 + 2 + |x.errorMessage| + 4 + 2 }

  ghost predicate SoundCreatedTopic(x: CreatedTopic) {
    && |x.name| < 0x1_0000
    && |x.errorMessage| < 0x1_0000
  }

  lemma ReadsCreatedTopic(x: CreatedTopic, tail: seq<byte>)
    requires SoundCreatedTopic(x)
    ensures ReadCreatedTopic(PutCreatedTopic(x, tail)) == Read(x, tail)
    ensures |PutCreatedTopic(x, tail)| == SizeCreatedTopic(x) + |tail|
  {
    hide PutI16, PutI32, PutText, PutU16, ReadErrorCode, ReadI32, ReadText, ReadU16;
    ReadsU16(x.replicationFactor, tail);
    var t4 := PutU16(x.replicationFactor) + tail;
    ReadsI32(x.numPartitions, t4);
    var t3 := PutI32(x.numPartitions) + t4;
    ReadsText(x.errorMessage, t3);
    var t2 := PutText(x.errorMessage, t3);
    ReadsErrorCode(x.errorCode, t2);
    var t1 := PutI16(x.errorCode) + t2;
    ReadsText(x.name, t1);
  }

  lemma EveryCreatedTopic()
    ensures Reads(PutCreatedTopic, ReadCreatedTopic, SizeCreatedTopic, SoundCreatedTopic)
  {
    hide PutCreatedTopic, ReadCreatedTopic, SizeCreatedTopic, SoundCreatedTopic;
    forall x: CreatedTopic, tail | SoundCreatedTopic(x)
      ensures ReadCreatedTopic(PutCreatedTopic(x, tail)) == Read(x, tail)
      ensures |PutCreatedTopic(x, tail)| == SizeCreatedTopic(x) + |tail|
    {
      ReadsCreatedTopic(x, tail);
    }
  }

  // ---- create topics response, whole ---------------------------------------

  datatype CreateTopicResponse = CreateTopicResponse(throttleTimeMs: u32, topics: seq<CreatedTopic>)

  function PutCreateTopicResponse(x: CreateTopicResponse, tail: seq<byte>): seq<byte> {
    PutU32(x.throttleTimeMs) + (PutU16(CastU16(|x.topics|)) + PutEach(PutCreatedTopic, x.topics, tail))
  }

  function ReadCreateTopicResponse(buf: seq<byte>): Read<CreateTopicResponse> {
    var (throttleTimeMs, b1) :- ReadU32(buf);
    var (n2, b2) :- ReadU16(b1);
    var (topics, rest) :- ReadEach(ReadCreatedTopic, n2, b2);
    Read(CreateTopicResponse(throttleTimeMs, topics), rest)
  }

  function SizeCreateTopicResponse(x: CreateTopicResponse): nat { 4 + 2 + SizeOfEach(SizeCreatedTopic, x.topics) }

  ghost predicate SoundCreateTopicResponse(x: CreateTopicResponse) {
    && |x.topics| < 0x1_0000 && (forall i :: 0 <= i < |x.topics| ==> SoundCreatedTopic(x.topics[i]))
  }

  lemma ReadsCreateTopicResponse(x: CreateTopicResponse, tail: seq<byte>)
    requires SoundCreateTopicResponse(x)
    ensures ReadCreateTopicResponse(PutCreateTopicResponse(x, tail)) == Read(x, tail)
    ensures |PutCreateTopicResponse(x, tail)| == SizeCreateTopicResponse(x) + |tail|
  {
    hide PutCreatedTopic, PutEach, PutU16, PutU32, ReadCreatedTopic, ReadEach, ReadU16, ReadU32, SizeCreatedTopic,
      SizeOfEach, SoundCreatedTopic;
    ReadsU16(CastU16(|x.topics|), PutEach(PutCreatedTopic, x.topics, tail));
    EveryCreatedTopic();
    ReadsEach(PutCreatedTopic, ReadCreatedTopic, SizeCreatedTopic, SoundCreatedTopic, x.topics, tail);
    var t1 := PutU16(CastU16(|x.topics|)) + PutEach(PutCreatedTopic, x.topics, tail);
    ReadsU32(x.throttleTimeMs, t1);
  }

  // ---- metadata response ---------------------------------------------------

  datatype BrokerMetadata = BrokerMetadata(nodeId: i32, host: seq<byte>, port: i32)

  function PutBrokerMetadata(x: BrokerMetadata, tail: seq<byte>): seq<byte> {
    PutI32(x.nodeId) + (PutText(x.host, PutI32(x.port) + tail))
  }

  function ReadBrokerMetadata(buf: seq<byte>): Read<BrokerMetadata> {
    var (nodeId, b1) :- ReadI32(buf);
    var (host, b2) :- ReadText(b1);
    var (port, rest) :- ReadI32(b2);
    Read(BrokerMetadata(nodeId, host, port), rest)
  }

  function SizeBrokerMetadata(x: BrokerMetadata): nat { 4 + 2 + |x.host| + 4 }

  ghost predicate SoundBrokerMetadata(x: BrokerMetadata) { |x.host| < 0x1_0000 }

  lemma ReadsBrokerMetadata(x: BrokerMetadata, tail: seq<byte>)
    requires SoundBrokerMetadata(x)
    ensures ReadBrokerMetadata(PutBrokerMetadata(x, tail)) == Read(x, tail)
    ensures |PutBrokerMetadata(x, tail)| == SizeBrokerMetadata(x) + |tail|
  {
    hide PutI32, PutText, ReadI32, ReadText;
    ReadsI32(x.port, tail);
    var t2 := PutI32(x.port) + tail;
    ReadsText(x.host, t2);
    var t1 := PutText(x.host, t2);
    ReadsI32(x.nodeId, t1);
  }

  lemma EveryBrokerMetadata()
    ensures Reads(PutBrokerMetadata, ReadBrokerMetadata, SizeBrokerMetadata, SoundBrokerMetadata)
  {
    hide PutBrokerMetadata, ReadBrokerMetadata, SizeBrokerMetadata, SoundBrokerMetadata;
    forall x: BrokerMetadata, tail | SoundBrokerMetadata(x)
      ensures ReadBrokerMetadata(PutBrokerMetadata(x, tail)) == Read(x, tail)
      ensures |PutBrokerMetadata(x, tail)| == SizeBrokerMetadata(x) + |tail|
    {
      ReadsBrokerMetadata(x, tail);
    }
  }

  // ---- metadata response, partitions ---------------------------------------

  datatype PartitionMetadata = PartitionMetadata(errorCode: ErrorCode, partitionIndex: i32, leaderId: i32,
    replicaNodes: u32, isrNodes: u32, offlineReplicas: u32)

  function PutPartitionMetadata(x: PartitionMetadata, tail: seq<byte>): seq<byte> {
    PutI16(x.errorCode) + (PutI32(x.partitionIndex) + (PutI32(x.leaderId) + (PutU32(x.replicaNodes)
    + (PutU32(x.isrNodes) + (PutU32(x.offlineReplicas) + tail)))))
  }

  function ReadPartitionMetadata(buf: seq<byte>): Read<PartitionMetadata> {
    var (errorCode, b1) :- ReadErrorCode(buf);
    var (partitionIndex, b2) :- ReadI32(b1);
    var (leaderId, b3) :- ReadI32(b2);
    var (replicaNodes, b4) :- ReadU32(b3);
    var (isrNodes, b5) :- ReadU32(b4);
    var (offlineReplicas, rest) :- ReadU32(b5);
    Read(PartitionMetadata(errorCode, partitionIndex, leaderId, replicaNodes, isrNodes, offlineReplicas), rest)
  }

  function SizePartitionMetadata(x: PartitionMetadata): nat { 2 + 4 + 4 + 4 + 4 + 4 }

  ghost predicate SoundPartitionMetadata(x: PartitionMetadata) { true }

  lemma ReadsPartitionMetadata(x: PartitionMetadata, tail: seq<byte>)
    requires SoundPartitionMetadata(x)
    ensures ReadPartitionMetadata(PutPartitionMetadata(x, tail)) == Read(x, tail)
    ensures |PutPartitionMetadata(x, tail)| == SizePartitionMetadata(x) + |tail|
  {
    hide PutI16, PutI32, PutU32, ReadErrorCode, ReadI32, ReadU32;
    ReadsU32(x.offlineReplicas, tail);
    var t5 := PutU32(x.offlineReplicas) + tail;
    ReadsU32(x.isrNodes, t5);
    var t4 := PutU32(x.isrNodes) + t5;
    ReadsU32(x.replicaNodes, t4);
    var t3 := PutU32(x.replicaNodes) + t4;
    ReadsI32(x.leaderId, t3);
    var t2 := PutI32(x.leaderId) + t3;
    ReadsI32(x.partitionIndex, t2);
    var t1 := PutI32(x.partitionIndex) + t2;
    ReadsErrorCode(x.errorCode, t1);
  }

  lemma EveryPartitionMetadata()
    ensures Reads(PutPartitionMetadata, ReadPartitionMetadata, SizePartitionMetadata, SoundPartitionMetadata)
  {
    hide PutPartitionMetadata, ReadPartitionMetadata, SizePartitionMetadata, SoundPartitionMetadata;
    forall x: PartitionMetadata, tail | SoundPartitionMetadata(x)
      ensures ReadPartitionMetadata(PutPartitionMetadata(x, tail)) == Read(x, tail)
      ensures |PutPartitionMetadata(x, tail)| == SizePartitionMetadata(x) + |tail|
    {
      ReadsPartitionMetadata(x, tail);
    }
  }

  // ---- metadata response, topics -------------------------------------------

  datatype TopicMetadata = TopicMetadata(errorCode: ErrorCode, name: seq<byte>, partitions: seq<PartitionMetadata>)

  function PutTopicMetadata(x: TopicMetadata, tail: seq<byte>): seq<byte> {
    PutI16(x.errorCode) + (PutText(x.name, PutU32(CastU32(|x.partitions|)) + PutEach(PutPartitionMetadata,
    x.partitions, tail)))
  }

  function ReadTopicMetadata(buf: seq<byte>): Read<TopicMetadata> {
    var (errorCode, b1) :- ReadErrorCode(buf);
    var (name, b2) :- ReadText(b1);
    var (n3, b3) :- ReadU32(b2);
    var (partitions, rest) :- ReadEach(ReadPartitionMetadata, n3, b3);
    Read(TopicMetadata(errorCode, name, partitions), rest)
  }

  function SizeTopicMetadata(x: TopicMetadata): nat {
    2 + 2 + |x.name| + 4 + SizeOfEach(SizePartitionMetadata, x.partitions)
  }

  ghost predicate SoundTopicMetadata(x: TopicMetadata) {
    && |x.name| < 0x1_0000
    && |x.partitions| < 0x1_0000_0000 && (forall i :: 0 <= i < |x.partitions| ==> SoundPartitionMetadata(x.partitions[i]))
  }

  lemma ReadsTopicMetadata(x: TopicMetadata, tail: seq<byte>)
    requires SoundTopicMetadata(x)
    ensures ReadTopicMetadata(PutTopicMetadata(x, tail)) == Read(x, tail)
    ensures |PutTopicMetadata(x, tail)| == SizeTopicMetadata(x) + |tail|
  {
    hide PutEach, PutI16, PutPartitionMetadata, PutText, PutU32, ReadEach, ReadErrorCode, ReadPartitionMetadata,
      ReadText, ReadU32, SizeOfEach, SizePartitionMetadata, SoundPartitionMetadata;
    ReadsU32(CastU32(|x.partitions|), PutEach(PutPartitionMetadata, x.partitions, tail));
    EveryPartitionMetadata();
    ReadsEach(PutPartitionMetadata, ReadPartitionMetadata, SizePartitionMetadata, SoundPartitionMetadata,
      x.partitions, tail);
    var t2 := PutU32(CastU32(|x.partitions|)) + PutEach(PutPartitionMetadata, x.partitions, tail);
    ReadsText(x.name, t2);
    var t1 := PutText(x.name, t2);
    ReadsErrorCode(x.errorCode, t1);
  }

  lemma EveryTopicMetadata()
    ensures Reads(PutTopicMetadata, ReadTopicMetadata, SizeTopicMetadata, SoundTopicMetadata)
  {
    hide PutTopicMetadata, ReadTopicMetadata, SizeTopicMetadata, SoundTopicMetadata;
    forall x: TopicMetadata, tail | SoundTopicMetadata(x)
      ensures ReadTopicMetadata(PutTopicMetadata(x, tail)) == Read(x, tail)
      ensures |PutTopicMetadata(x, tail)| == SizeTopicMetadata(x) + |tail|
    {
      ReadsTopicMetadata(x, tail);
    }
  }

  // ---- metadata response, whole --------------------------------------------

  datatype MetadataResponse = MetadataResponse(throttleTimeMs: u32, brokers: seq<BrokerMetadata>, controllerId: i32,
    topics: seq<TopicMetadata>, errorCode: ErrorCode)

  function PutMetadataResponse(x: MetadataResponse, tail: seq<byte>): seq<byte> {
    PutU32(x.throttleTimeMs)
    + (PutU32(CastU32(|x.brokers|)) + PutEach(PutBrokerMetadata, x.brokers, PutI32(x.controllerId)
    + (PutU32(CastU32(|x.topics|)) + PutEach(PutTopicMetadata, x.topics, PutI16(x.errorCode) + tail))))
  }

  function ReadMetadataResponse(buf: seq<byte>): Read<MetadataResponse> {
    var (throttleTimeMs, b1) :- ReadU32(buf);
    var (n2, b2) :- ReadU32(b1);
    var (brokers, b3) :- ReadEach(ReadBrokerMetadata, n2, b2);
    var (controllerId, b4) :- ReadI32(b3);
    var (n5, b5) :- ReadU32(b4);
    var (topics, b6) :- ReadEach(ReadTopicMetadata, n5, b5);
    var (errorCode, rest) :- ReadErrorCode(b6);
    Read(MetadataResponse(throttleTimeMs, brokers, controllerId, topics, errorCode), rest)
  }

  function SizeMetadataResponse(x: MetadataResponse): nat {
    4 + 4 + SizeOfEach(SizeBrokerMetadata, x.brokers) + 4 + 4 + SizeOfEach(SizeTopicMetadata, x.topics) + 2
  }

  ghost predicate SoundMetadataResponse(x: MetadataResponse) {
    && |x.brokers| < 0x1_0000_0000 && (forall i :: 0 <= i < |x.brokers| ==> SoundBrokerMetadata(x.brokers[i]))
    && |x.topics| < 0x1_0000_0000 && (forall i :: 0 <= i < |x.topics| ==> SoundTopicMetadata(x.topics[i]))
  }

  lemma ReadsMetadataResponse(x: MetadataResponse, tail: seq<byte>)
    requires SoundMetadataResponse(x)
    ensures ReadMetadataResponse(PutMetadataResponse(x, tail)) == Read(x, tail)
    ensures |PutMetadataResponse(x, tail)| == SizeMetadataResponse(x) + |tail|
  {
    hide PutBrokerMetadata, PutEach, PutI16, PutI32, PutTopicMetadata, PutU32, ReadBrokerMetadata, ReadEach,
      ReadErrorCode, ReadI32, ReadTopicMetadata, ReadU32, SizeBrokerMetadata, SizeOfEach, SizeTopicMetadata,
      SoundBrokerMetadata, SoundTopicMetadata;
    ReadsErrorCode(x.errorCode, tail);
    var t4 := PutI16(x.errorCode) + tail;
    ReadsU32(CastU32(|x.topics|), PutEach(PutTopicMetadata, x.topics, t4));
    EveryTopicMetadata();
    ReadsEach(PutTopicMetadata, ReadTopicMetadata, SizeTopicMetadata, SoundTopicMetadata, x.topics, t4);
    var t3 := PutU32(CastU32(|x.topics|)) + PutEach(PutTopicMetadata, x.topics, t4);
    ReadsI32(x.controllerId, t3);
    var t2 := PutI32(x.controllerId) + t3;
    ReadsU32(CastU32(|x.brokers|), PutEach(PutBrokerMetadata, x.brokers, t2));
    EveryBrokerMetadata();
    ReadsEach(PutBrokerMetadata, ReadBrokerMetadata, SizeBrokerMetadata, SoundBrokerMetadata, x.brokers, t2);
    var t1 := PutU32(CastU32(|x.brokers|)) + PutEach(PutBrokerMetadata, x.brokers, t2);
    ReadsU32(x.throttleTimeMs, t1);
  }
}
