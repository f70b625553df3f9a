/** The four request bodies: how each is laid out, what its decoder reads, and its size. */
module Requests {
  import opened Bytes
  import opened RecordBatches
  import opened Wire
  import opened FrameParts

  // ---- metadata request ----------------------------------------------------

  datatype TopicName = TopicName(text: seq<byte>)

  function PutTopicName(x: TopicName, tail: seq<byte>): seq<byte> { PutSignedText(x.text, tail) }

  function ReadTopicName(buf: seq<byte>): Read<TopicName> {
    var (text, rest) :- ReadSignedText(buf);
    Read(TopicName(text), rest)
  }

  function SizeTopicName(x: TopicName): nat { 2 + |x.text| }

  ghost predicate SoundTopicName(x: TopicName) { |x.text| < 0x8000 }

  lemma ReadsTopicName(x: TopicName, tail: seq<byte>)
    requires SoundTopicName(x)
    ensures ReadTopicName(PutTopicName(x, tail)) == Read(x, tail) && |PutTopicName(x, tail)| == SizeTopicName(x) + |tail|
  {
    ReadsSignedText(x.text, tail);
  }

  lemma EveryTopicName()
    ensures Reads(PutTopicName, ReadTopicName, SizeTopicName, SoundTopicName)
  {
    hide PutTopicName, ReadTopicName, SizeTopicName, SoundTopicName;
    forall x: TopicName, tail | SoundTopicName(x)
      ensures ReadTopicName(PutTopicName(x, tail)) == Read(x, tail)
      ensures |PutTopicName(x, tail)| == SizeTopicName(x) + |tail|
    {
      ReadsTopicName(x, tail);
    }
  }

  // ---- metadata request, whole ---------------------------------------------

  datatype MetadataRequest = MetadataRequest(topics: seq<TopicName>, allowAutoTopicCreation: bool)

  function PutMetadataRequest(x: MetadataRequest, tail: seq<byte>): seq<byte> {
    PutU32(CastU32(|x.topics|)) + PutEach(PutTopicName, x.topics, [if x.allowAutoTopicCreation then 1 else 0] + tail)
  }

  function ReadMetadataRequest(buf: seq<byte>): Read<MetadataRequest> {
    var (n1, b1) :- ReadU32(buf);
    var (topics, b2) :- ReadEach(ReadTopicName, n1, b1);
    var (allowAutoTopicCreation, rest) :- ReadFlag(b2);
    Read(MetadataRequest(topics, allowAutoTopicCreation), rest)
  }

  function SizeMetadataRequest(x: MetadataRequest): nat { 4 + SizeOfEach(SizeTopicName, x.topics) + 1 }

  ghost predicate SoundMetadataRequest(x: MetadataRequest) {
    && |x.topics| < 0x1_0000_0000 && (forall i :: 0 <= i < |x.topics| ==> SoundTopicName(x.topics[i]))
  }

  lemma ReadsMetadataRequest(x: MetadataRequest, tail: seq<byte>)
    requires SoundMetadataRequest(x)
    ensures ReadMetadataRequest(PutMetadataRequest(x, tail)) == Read(x, tail)
    ensures |PutMetadataRequest(x, tail)| == SizeMetadataRequest(x) + |tail|
  {
    hide PutEach, PutTopicName, PutU32, ReadEach, ReadFlag, ReadTopicName, ReadU32, SizeOfEach, SizeTopicName,
      SoundTopicName;
    ReadsFlag(x.allowAutoTopicCreation, tail);
    var t1 := [if x.allowAutoTopicCreation then 1 else 0] + tail;
    ReadsU32(CastU32(|x.topics|), PutEach(PutTopicName, x.topics, t1));
    EveryTopicName();
    ReadsEach(PutTopicName, ReadTopicName, SizeTopicName, SoundTopicName, x.topics, t1);
  }

  // ---- produce request -----------------------------------------------------

  datatype ProducePartition = ProducePartition(index: u16, records: RecordBatch)

  function PutProducePartition(x: ProducePartition, tail: seq<byte>): seq<byte> {
    PutU16(x.index) + PutBatch(x.records, tail)
  }

  function ReadProducePartition(buf: seq<byte>): Read<ProducePartition> {
    var (index, b1) :- ReadU16(buf);
    var (records, rest) :- ReadSizedBatch(b1);
    Read(ProducePartition(index, records), rest)
  }

  function SizeProducePartition(x: ProducePartition): nat { 2 + 4 + DiskSize(x.records) }

  ghost predicate SoundProducePartition(x: ProducePartition) { SoundSizedBatch(x.records) }

  lemma ReadsProducePartition(x: ProducePartition, tail: seq<byte>)
    requires SoundProducePartition(x)
    ensures ReadProducePartition(PutProducePartition(x, tail)) == Read(x, tail)
    ensures |PutProducePartition(x, tail)| == SizeProducePartition(x) + |tail|
  {
    hide PutBatch, PutU16, ReadSizedBatch, ReadU16;
    ReadsSizedBatch(x.records, tail);
    var t1 := PutBatch(x.records, tail);
    ReadsU16(x.index, t1);
  }

  lemma EveryProducePartition()
    ensures Reads(PutProducePartition, ReadProducePartition, SizeProducePartition, SoundProducePartition)
  {
    hide PutProducePartition, ReadProducePartition, SizeProducePartition, SoundProducePartition;
    forall x: ProducePartition, tail | SoundProducePartition(x)
      ensures ReadProducePartition(PutProducePartition(x, tail)) == Read(x, tail)
      ensures |PutProducePartition(x, tail)| == SizeProducePartition(x) + |tail|
    {
      ReadsProducePartition(x, tail);
    }
  }

  // ---- produce request, topics ---------------------------------------------

  datatype ProduceTopic = ProduceTopic(topic: seq<byte>, partitions: seq<ProducePartition>)

  function PutProduceTopic(x: ProduceTopic, tail: seq<byte>): seq<byte> {
    PutText(x.topic, PutU32(CastU32(|x.partitions|)) + PutEach(PutProducePartition, x.partitions, tail))
  }

  function ReadProduceTopic(buf: seq<byte>): Read<ProduceTopic> {
    var (topic, b1) :- ReadText(buf);
    var (n2, b2) :- ReadU32(b1);
    var (partitions, rest) :- ReadEach(ReadProducePartition, n2, b2);
    Read(ProduceTopic(topic, partitions), rest)
  }

  function SizeProduceTopic(x: ProduceTopic): nat {
    2 + |x.topic| + 4 + SizeOfEach(SizeProducePartition, x.partitions)
  }

  ghost predicate SoundProduceTopic(x: ProduceTopic) {
    && |x.topic| < 0x1_0000
    && |x.partitions| < 0x1_0000_0000 && (forall i :: 0 <= i < |x.partitions| ==> SoundProducePartition(x.partitions[i]))
  }

  lemma ReadsProduceTopic(x: ProduceTopic, tail: seq<byte>)
    requires SoundProduceTopic(x)
    ensures ReadProduceTopic(PutProduceTopic(x, tail)) == Read(x, tail)
    ensures |PutProduceTopic(x, tail)| == SizeProduceTopic(x) + |tail|
  {
    hide PutEach, PutProducePartition, PutText, PutU32, ReadEach, ReadProducePartition, ReadText, ReadU32,
      SizeOfEach, SizeProducePartition, SoundProducePartition;
    ReadsU32(CastU32(|x.partitions|), PutEach(PutProducePartition, x.partitions, tail));
    EveryProducePartition();
    ReadsEach(PutProducePartition, ReadProducePartition, SizeProducePartition, SoundProducePartition, x.partitions,
      tail);
    var t1 := PutU32(CastU32(|x.partitions|)) + PutEach(PutProducePartition, x.partitions, tail);
    ReadsText(x.topic, t1);
  }

  lemma EveryProduceTopic()
    ensures Reads(PutProduceTopic, ReadProduceTopic, SizeProduceTopic, SoundProduceTopic)
  {
    hide PutProduceTopic, ReadProduceTopic, SizeProduceTopic, SoundProduceTopic;
    forall x: ProduceTopic, tail | SoundProduceTopic(x)
      ensures ReadProduceTopic(PutProduceTopic(x, tail)) == Read(x, tail)
      ensures |PutProduceTopic(x, tail)| == SizeProduceTopic(x) + |tail|
    {
      ReadsProduceTopic(x, tail);
    }
  }

  // ---- produce request, whole ----------------------------------------------

  datatype ProduceRequest = ProduceRequest(transactionalId: u64, acks: Acks, timeoutMs: u64,
    topics: seq<ProduceTopic>)

  function PutProduceRequest(x: ProduceRequest, tail: seq<byte>): seq<byte> {
    PutU64(x.transactionalId) + (PutU32(AcksNumber(x.acks)) + (PutU64(x.timeoutMs)
    + (PutU16(CastU16(|x.topics|)) + PutEach(PutProduceTopic, x.topics, tail))))
  }

  function ReadProduceRequest(buf: seq<byte>): Read<ProduceRequest> {
    var (transactionalId, b1) :- ReadU64(buf);
    var (acks, b2) :- ReadAcks(b1);
    var (timeoutMs, b3) :- ReadU64(b2);
    var (n4, b4) :- ReadU16(b3);
    var (topics, rest) :- ReadEach(ReadProduceTopic, n4, b4);
    Read(ProduceRequest(transactionalId, acks, timeoutMs, topics), rest)
  }

  function SizeProduceRequest(x: ProduceRequest): nat { 8 + 4 + 8 + 2 + SizeOfEach(SizeProduceTopic, x.topics) }

  ghost predicate SoundProduceRequest(x: ProduceRequest) {
    && |x.topics| < 0x1_0000 && (forall i :: 0 <= i < |x.topics| ==> SoundProduceTopic(x.topics[i]))
  }

  lemma ReadsProduceRequest(x: ProduceRequest, tail: seq<byte>)
    requires SoundProduceRequest(x)
    ensures ReadProduceRequest(PutProduceRequest(x, tail)) == Read(x, tail)
    ensures |PutProduceRequest(x, tail)| == SizeProduceRequest(x) + |tail|
  {
    hide AcksNumber, PutEach, PutProduceTopic, PutU16, PutU32, PutU64, ReadAcks, ReadEach, ReadProduceTopic, ReadU16,
      ReadU64, SizeOfEach, SizeProduceTopic, SoundProduceTopic;
    ReadsU16(CastU16(|x.topics|), PutEach(PutProduceTopic, x.topics, tail));
    EveryProduceTopic();
    ReadsEach(PutProduceTopic, ReadProduceTopic, SizeProduceTopic, SoundProduceTopic, x.topics, tail);
    var t3 := PutU16(CastU16(|x.topics|)) + PutEach(PutProduceTopic, x.topics, tail);
    ReadsU64(x.timeoutMs, t3);
    var t2 := PutU64(x.timeoutMs) + t3;
    ReadsAcks(x.acks, t2);
    var t1 := PutU32(AcksNumber(x.acks)) + t2;
    ReadsU64(x.transactionalId, t1);
  }

  // ---- fetch request -------------------------------------------------------

  datatype FetchPartition = FetchPartition(partition: u32, fetchOffset: u64, partitionMaxBytes: u32,
    highWatermark: u64)

  function PutFetchPartition(x: FetchPartition, tail: seq<byte>): seq<byte> {
    PutU32(x.partition) + (PutU64(x.fetchOffset) + (PutU32(x.partitionMaxBytes) + (PutU64(x.highWatermark) + tail)))
  }

  function ReadFetchPartition(buf: seq<byte>): Read<FetchPartition> {
    var (partition, b1) :- ReadU32(buf);
    var (fetchOffset, b2) :- ReadU64(b1);
    var (partitionMaxBytes, b3) :- ReadU32(b2);
    var (highWatermark, rest) :- ReadU64(b3);
    Read(FetchPartition(partition, fetchOffset, partitionMaxBytes, highWatermark), rest)
  }

  function SizeFetchPartition(x: FetchPartition): nat { 4 + 8 + 4 + 8 }

  ghost predicate SoundFetchPartition(x: FetchPartition) { true }

  lemma ReadsFetchPartition(x: FetchPartition, tail: seq<byte>)
    requires SoundFetchPartition(x)
    ensures ReadFetchPartition(PutFetchPartition(x, tail)) == Read(x, tail)
    ensures |PutFetchPartition(x, tail)| == SizeFetchPartition(x) + |tail|
  {
    hide PutU32, PutU64, ReadU32, ReadU64;
    ReadsU64(x.highWatermark, tail);
    var t3 := PutU64(x.highWatermark) + tail;
    ReadsU32(x.partitionMaxBytes, t3);
    var t2 := PutU32(x.partitionMaxBytes) + t3;
    ReadsU64(x.fetchOffset, t2);
    var t1 := PutU64(x.fetchOffset) + t2;
    ReadsU32(x.partition, t1);
  }

  lemma EveryFetchPartition()
    ensures Reads(PutFetchPartition, ReadFetchPartition, SizeFetchPartition, SoundFetchPartition)
  {
    hide PutFetchPartition, ReadFetchPartition, SizeFetchPartition, SoundFetchPartition;
    forall x: FetchPartition, tail | SoundFetchPartition(x)
      ensures ReadFetchPartition(PutFetchPartition(x, tail)) == Read(x, tail)
      ensures |PutFetchPartition(x, tail)| == SizeFetchPartition(x) + |tail|
    {
      ReadsFetchPartition(x, tail);
    }
  }

  // ---- fetch request, topics -----------------------------------------------

  datatype FetchTopic = FetchTopic(topic: seq<byte>, partitions: seq<FetchPartition>)

  function PutFetchTopic(x: FetchTopic, tail: seq<byte>): seq<byte> {
    PutText(x.topic, PutU32(CastU32(|x.partitions|)) + PutEach(PutFetchPartition, x.partitions, tail))
  }

  function ReadFetchTopic(buf: seq<byte>): Read<FetchTopic> {
    var (topic, b1) :- ReadText(buf);
    var (n2, b2) :- ReadU32(b1);
    var (partitions, rest) :- ReadEach(ReadFetchPartition, n2, b2);
    Read(FetchTopic(topic, partitions), rest)
  }

  function SizeFetchTopic(x: FetchTopic): nat { 2 + |x.topic| + 4 + SizeOfEach(SizeFetchPartition, x.partitions) }

  ghost predicate SoundFetchTopic(x: FetchTopic) {
    && |x.topic| < 0x1_0000
    && |x.partitions| < 0x1_0000_0000 && (forall i :: 0 <= i < |x.partitions| ==> SoundFetchPartition(x.partitions[i]))
  }

  lemma ReadsFetchTopic(x: FetchTopic, tail: seq<byte>)
    requires SoundFetchTopic(x)
    ensures ReadFetchTopic(PutFetchTopic(x, tail)) == Read(x, tail)
    ensures |PutFetchTopic(x, tail)| == SizeFetchTopic(x) + |tail|
  {
    hide PutEach, PutFetchPartition, PutText, PutU32, ReadEach, ReadFetchPartition, ReadText, ReadU32,
      SizeFetchPartition, SizeOfEach, SoundFetchPartition;
    ReadsU32(CastU32(|x.partitions|), PutEach(PutFetchPartition, x.partitions, tail));
    EveryFetchPartition();
    ReadsEach(PutFetchPartition, ReadFetchPartition, SizeFetchPartition, SoundFetchPartition, x.partitions, tail);
    var t1 := PutU32(CastU32(|x.partitions|)) + PutEach(PutFetchPartition, x.partitions, tail);
    ReadsText(x.topic, t1);
  }

  lemma EveryFetchTopic()
    ensures Reads(PutFetchTopic, ReadFetchTopic, SizeFetchTopic, SoundFetchTopic)
  {
    hide PutFetchTopic, ReadFetchTopic, SizeFetchTopic, SoundFetchTopic;
    forall x: FetchTopic, tail | SoundFetchTopic(x)
      ensures ReadFetchTopic(PutFetchTopic(x, tail)) == Read(x, tail)
      ensures |PutFetchTopic(x, tail)| == SizeFetchTopic(x) + |tail|
    {
      ReadsFetchTopic(x, tail);
    }
  }

  // ---- fetch request, whole ------------------------------------------------

  datatype FetchRequest = FetchRequest(replicaId: i32, maxBytes: u32, topics: seq<FetchTopic>)

  function PutFetchRequest(x: FetchRequest, tail: seq<byte>): seq<byte> {
    PutI32(x.replicaId) + (PutU32(x.maxBytes)
    + (PutU32(CastU32(|x.topics|)) + PutEach(PutFetchTopic, x.topics, tail)))
  }

  function ReadFetchRequest(buf: seq<byte>): Read<FetchRequest> {
    var (replicaId, b1) :- ReadI32(buf);
    var (maxBytes, b2) :- ReadU32(b1);
    var (n3, b3) :- ReadU32(b2);
    var (topics, rest) :- ReadEach(ReadFetchTopic, n3, b3);
    Read(FetchRequest(replicaId, maxBytes, topics), rest)
  }

  function SizeFetchRequest(x: FetchRequest): nat { 4 + 4 + 4 + SizeOfEach(SizeFetchTopic, x.topics) }

  ghost predicate SoundFetchRequest(x: FetchRequest) {
    && |x.topics| < 0x1_0000_0000 && (forall i :: 0 <= i < |x.topics| ==> SoundFetchTopic(x.topics[i]))
  }

  lemma ReadsFetchRequest(x: FetchRequest, tail: seq<byte>)
    requires SoundFetchRequest(x)
    ensures ReadFetchRequest(PutFetchRequest(x, tail)) == Read(x, tail)
    ensures |PutFetchRequest(x, tail)| == SizeFetchRequest(x) + |tail|
  {
    hide PutEach, PutFetchTopic, PutI32, PutU32, ReadEach, ReadFetchTopic, ReadI32, ReadU32, SizeFetchTopic,
      SizeOfEach, SoundFetchTopic;
    ReadsU32(CastU32(|x.topics|), PutEach(PutFetchTopic, x.topics, tail));
    EveryFetchTopic();
    ReadsEach(PutFetchTopic, ReadFetchTopic, SizeFetchTopic, SoundFetchTopic, x.topics, tail);
    var t2 := PutU32(CastU32(|x.topics|)) + PutEach(PutFetchTopic, x.topics, tail);
    ReadsU32(x.maxBytes, t2);
    var t1 := PutU32(x.maxBytes) + t2;
    ReadsI32(x.replicaId, t1);
  }

  // ---- create topics request -----------------------------------------------

  datatype Assignment = Assignment(partitionIndex: i32, brokerIds: i32)

  function PutAssignment(x: Assignment, tail: seq<byte>): seq<byte> {
    PutI32(x.partitionIndex) + (PutI32(x.brokerIds) + tail)
  }

  function ReadAssignment(buf: seq<byte>): Read<Assignment> {
    var (partitionIndex, b1) :- ReadI32(buf);
    var (brokerIds, rest) :- ReadI32(b1);
    Read(Assignment(partitionIndex, brokerIds), rest)
  }

  function SizeAssignment(x: Assignment): nat { 4 + 4 }

  ghost predicate SoundAssignment(x: Assignment) { true }

  lemma ReadsAssignment(x: Assignment, tail: seq<byte>)
    requires SoundAssignment(x)
    ensures ReadAssignment(PutAssignment(x, tail)) == Read(x, tail)
    ensures |PutAssignment(x, tail)| == SizeAssignment(x) + |tail|
  {
    hide PutI32, ReadI32;
    ReadsI32(x.brokerIds, tail);
    var t1 := PutI32(x.brokerIds) + tail;
    ReadsI32(x.partitionIndex, t1);
  }

  lemma EveryAssignment()
    ensures Reads(PutAssignment, ReadAssignment, SizeAssignment, SoundAssignment)
  {
    hide PutAssignment, ReadAssignment, SizeAssignment, SoundAssignment;
    forall x: Assignment, tail | SoundAssignment(x)
      ensures ReadAssignment(PutAssignment(x, tail)) == Read(x, tail)
      ensures |PutAssignment(x, tail)| == SizeAssignment(x) + |tail|
    {
      ReadsAssignment(x, tail);
    }
  }

  // ---- create topics request, topics ---------------------------------------

  datatype TopicRequest = TopicRequest(name: seq<byte>, numPartitions: i32, replicationFactor: u16,
    assignments: seq<Assignment>)

  function PutTopicRequest(x: TopicRequest, tail: seq<byte>): seq<byte> {
    PutText(x.name, PutI32(x.numPartitions) + (PutU16(x.replicationFactor)
    + (PutU16(CastU16(|x.assignments|)) + PutEach(PutAssignment, x.assignments, tail))))
  }

  function ReadTopicRequest(buf: seq<byte>): Read<TopicRequest> {
    var (name, b1) :- ReadText(buf);
    var (numPartitions, b2) :- ReadI32(b1);
    var (replicationFactor, b3) :- ReadU16(b2);
    var (n4, b4) :- ReadU16(b3);
    var (assignments, rest) :- ReadEach(ReadAssignment, n4, b4);
    Read(TopicRequest(name, numPartitions, replicationFactor, assignments), rest)
  }

  function SizeTopicRequest(x: TopicRequest): nat {
    2 + |x.name| + 4 + 2 + 2 + SizeOfEach(SizeAssignment, x.assignments)
  }

  ghost predicate SoundTopicRequest(x: TopicRequest) {
    && |x.name| < 0x1_0000
    && |x.assignments| < 0x1_0000 && (forall i :: 0 <= i < |x.assignments| ==> SoundAssignment(x.assignments[i]))
  }

  lemma ReadsTopicRequest(x: TopicRequest, tail: seq<byte>)
    requires SoundTopicRequest(x)
    ensures ReadTopicRequest(PutTopicRequest(x, tail)) == Read(x, tail)
    ensures |PutTopicRequest(x, tail)| == SizeTopicRequest(x) + |tail|
  {
    hide PutAssignment, PutEach, PutI32, PutText, PutU16, ReadAssignment, ReadEach, ReadI32, ReadText, ReadU16,
      SizeAssignment, SizeOfEach, SoundAssignment;
    ReadsU16(CastU16(|x.assignments|), PutEach(PutAssignment, x.assignments, tail));
    EveryAssignment();
    ReadsEach(PutAssignment, ReadAssignment, SizeAssignment, SoundAssignment, x.assignments, tail);
    var t3 := PutU16(CastU16(|x.assignments|)) + PutEach(PutAssignment, x.assignments, tail);
    ReadsU16(x.replicationFactor, t3);
    var t2 := PutU16(x.replicationFactor) + t3;
    ReadsI32(x.numPartitions, t2);
    var t1 := PutI32(x.numPartitions) + t2;
    ReadsText(x.name, t1);
  }

  lemma EveryTopicRequest()
    ensures Reads(PutTopicRequest, ReadTopicRequest, SizeTopicRequest, SoundTopicRequest)
  {
    hide PutTopicRequest, ReadTopicRequest, SizeTopicRequest, SoundTopicRequest;
    forall x: TopicRequest, tail | SoundTopicRequest(x)
      ensures ReadTopicRequest(PutTopicRequest(x, tail)) == Read(x, tail)
      ensures |PutTopicRequest(x, tail)| == SizeTopicRequest(x) + |tail|
    {
      ReadsTopicRequest(x, tail);
    }
  }

  // ---- create topics request, whole ----------------------------------------

  datatype CreateTopicRequest = CreateTopicRequest(topics: seq<TopicRequest>, timeoutMs: u32, validateOnly: bool)

  function PutCreateTopicRequest(x: CreateTopicRequest, tail: seq<byte>): seq<byte> {
    PutU16(CastU16(|x.topics|)) + PutEach(PutTopicRequest, x.topics, PutU32(x.timeoutMs)
    + ([if x.validateOnly then 1 else 0] + tail))
  }

  function ReadCreateTopicRequest(buf: seq<byte>): Read<CreateTopicRequest> {
    var (n1, b1) :- ReadU16(buf);
    var (topics, b2) :- ReadEach(ReadTopicRequest, n1, b1);
    var (timeoutMs, b3) :- ReadU32(b2);
    var (validateOnly, rest) :- ReadFlag(b3);
    Read(CreateTopicRequest(topics, timeoutMs, validateOnly), rest)
  }

  function SizeCreateTopicRequest(x: CreateTopicRequest): nat { 2 + SizeOfEach(SizeTopicRequest, x.topics) + 4 + 1 }

  ghost predicate SoundCreateTopicRequest(x: CreateTopicRequest) {
    && |x.topics| < 0x1_0000 && (forall i :: 0 <= i < |x.topics| ==> SoundTopicRequest(x.topics[i]))
  }

  lemma ReadsCreateTopicRequest(x: CreateTopicRequest, tail: seq<byte>)
    requires SoundCreateTopicRequest(x)
    ensures ReadCreateTopicRequest(PutCreateTopicRequest(x, tail)) == Read(x, tail)
    ensures |PutCreateTopicRequest(x, tail)| == SizeCreateTopicRequest(x) + |tail|
  {
    hide PutEach, PutTopicRequest, PutU16, PutU32, ReadEach, ReadFlag, ReadTopicRequest, ReadU16, ReadU32,
      SizeOfEach, SizeTopicRequest, SoundTopicRequest;
    ReadsFlag(x.validateOnly, tail);
    var t2 := [if x.validateOnly then 1 else 0] + tail;
    ReadsU32(x.timeoutMs, t2);
    var t1 := PutU32(x.timeoutMs) + t2;
    ReadsU16(CastU16(|x.topics|), PutEach(PutTopicRequest, x.topics, t1));
    EveryTopicRequest();
    ReadsEach(PutTopicRequest, ReadTopicRequest, SizeTopicRequest, SoundTopicRequest, x.topics, t1);
  }
}
