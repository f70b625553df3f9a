/** The decoders as the source runs them: consuming a buffer front to back and pushing onto
    vectors in loops, each proved to read what its layout says. */
module Decoder {
  import opened Bytes
  import opened Records
  import opened RecordBatches
  import opened Wire
  import opened FrameParts
  import opened Requests
  import opened Responses
  import opened Frames

  /** What a parser returns; the buffer holds the rest. */
  datatype Outcome<+T> = Done(value: T) | Bad(error: ParseError) | Exhausted
  {
    predicate IsFailure() { !Done? }

    function PropagateFailure<U>(): Outcome<U>
      requires IsFailure()
    {
      if Bad? then Bad(error) else Exhausted
    }

    function Extract(): T
      requires !IsFailure()
    {
      value
    }
  }

  /** The outcome and what is left agree with a specified reading. */
  ghost predicate Follows<T>(read: Read<T>, out: Outcome<T>, left: seq<byte>) {
    match read
    case Read(x, rest) => out == Done(x) && left == rest
    case Failed(error) => out == Bad(error)
    case Overrun => out == Exhausted
  }

  /** Elements already read, in front of a reading of the others. */
  ghost function Joined<T>(xs: seq<T>, others: Read<seq<T>>): Read<seq<T>> {
    match others
    case Read(ys, rest) => Read(xs + ys, rest)
    case Failed(error) => Failed(error)
    case Overrun => Overrun
  }

  /** Of the n elements that start at `start`, xs were read and `left` holds the others. */
  ghost predicate Reading<T>(read: seq<byte> -> Read<T>, n: nat, start: seq<byte>, xs: seq<T>, left: seq<byte>) {
    |xs| <= n && ReadEach(read, n, start) == Joined(xs, ReadEach(read, n - |xs|, left))
  }

  lemma NoneRead<T>(read: seq<byte> -> Read<T>, n: nat, start: seq<byte>)
    ensures Reading(read, n, start, [], start)
  {
    var all := ReadEach(read, n, start);
    if all.Read? { assert [] + all.value == all.value; }
  }

  lemma OneMoreRead<T>(read: seq<byte> -> Read<T>, n: nat, start: seq<byte>, xs: seq<T>, left: seq<byte>)
    requires Reading(read, n, start, xs, left) && |xs| < n
    ensures var next := read(left);
            && (next.Read? ==> Reading(read, n, start, xs + [next.value], next.rest))
            && (next.Failed? ==> ReadEach(read, n, start) == Failed(next.error))
            && (next.Overrun? ==> ReadEach(read, n, start) == Overrun)
  {
    var first := read(left);
    if first.Read? {
      var others := ReadEach(read, n - |xs| - 1, first.rest);
      if others.Read? { assert xs + ([first.value] + others.value) == (xs + [first.value]) + others.value; }
    }
  }

  lemma AllRead<T>(read: seq<byte> -> Read<T>, n: nat, start: seq<byte>, xs: seq<T>, left: seq<byte>)
    requires Reading(read, n, start, xs, left) && |xs| == n
    ensures ReadEach(read, n, start) == Read(xs, left)
  {
    assert xs + [] == xs;
  }

  // ---- parts ---------------------------------------------------------------

  /** Takes one field off the front of the buffer. */
  method Get<T>(buf: ByteBuf, read: seq<byte> -> Read<T>) returns (out: Outcome<T>)
    modifies buf
    ensures Follows(read(old(buf.bytes)), out, buf.bytes)
  {
    match read(buf.bytes)
    case Read(x, rest) =>
      buf.bytes := rest;
      return Done(x);
    case Failed(error) => return Bad(error);
    case Overrun => return Exhausted;
  }

  method GetClientId(buf: ByteBuf) returns (out: Outcome<ClientId>)
    modifies buf
    ensures Follows(ReadClientId(old(buf.bytes)), out, buf.bytes)
  {
    hide ReadI16, ValidUtf8;
    var n :- Get(buf, ReadI16);
    if n < 0 { return Done(Anonymous); }
    if |buf.bytes| < n { return Exhausted; }
    var name := buf.bytes[..n];
    buf.bytes := buf.bytes[n..];
    if !ValidUtf8(name) { return Bad(InvalidClientId); }
    return Done(Named(name));
  }

  method GetLeader(buf: ByteBuf) returns (out: Outcome<Leader>)
    modifies buf
    ensures Follows(ReadLeader(old(buf.bytes)), out, buf.bytes)
  {
    hide ReadFlag, ReadI32, ReadU32;
    var has :- Get(buf, ReadFlag);
    if !has { return Done(NoLeader); }
    var id :- Get(buf, ReadI32);
    var epoch :- Get(buf, ReadU32);
    return Done(Leader(id, epoch));
  }

  /** A batch of a produce request, after its size. */
  method GetSizedBatch(buf: ByteBuf) returns (out: Outcome<RecordBatch>)
    modifies buf
    ensures Follows(ReadSizedBatch(old(buf.bytes)), out, buf.bytes)
  {
    hide ReadU32, DecodeWire;
    var n :- Get(buf, ReadU32);
    if |buf.bytes| < n { return Exhausted; }
    var bytes := buf.bytes[..n];
    buf.bytes := buf.bytes[n..];
    match DecodeWire(bytes)
    case Good(b) => return Done(b);
    case BadCrc => return Bad(InvalidBatch);
    case TooShort => return Exhausted;
  }

  /** A batch of a fetch response: offset, length and payload put together again and decoded. */
  method ParseRecordBatch(buf: ByteBuf) returns (out: Outcome<RecordBatch>)
    modifies buf
    ensures Follows(ReadRecordBatch(old(buf.bytes)), out, buf.bytes)
  {
    ghost var all := buf.bytes;
    var baseOffset :- Get(buf, ReadU64);
    var batchLength :- Get(buf, ReadU32);
    if |buf.bytes| < batchLength { return Exhausted; }
    var payload := buf.bytes[..batchLength];
    buf.bytes := buf.bytes[batchLength..];
    PutTogether(all, baseOffset, batchLength);
    hide DecodeWire, PutU64, PutU32;
    match DecodeWire(PutU64(baseOffset) + (PutU32(batchLength) + payload))
    case Good(b) => return Done(b);
    case BadCrc => return Bad(InvalidBatch);
    case TooShort => return Exhausted;
  }

  /** Writing the two numbers again gives the bytes they were read from. */
  lemma PutTogether(all: seq<byte>, baseOffset: u64, batchLength: u32)
    requires |all| >= 12 + batchLength
    requires baseOffset == AsU64(all[..8]) && batchLength == AsU32(all[8..][..4])
    ensures PutU64(baseOffset) + (PutU32(batchLength) + all[8..][4..][..batchLength]) == all[..12 + batchLength]
  {
    ToFromBE(all[..8]);
    ToFromBE(all[8..][..4]);
    var payload := all[8..][4..][..batchLength];
    assert payload == all[12..12 + batchLength] && all[8..][..4] == all[8..12];
    assert all[..8] + (all[8..12] + all[12..12 + batchLength]) == all[..12 + batchLength];
  }

  // ---- bodies --------------------------------------------------------------

  method ParseTopicName(buf: ByteBuf) returns (out: Outcome<TopicName>)
    modifies buf
    ensures Follows(ReadTopicName(old(buf.bytes)), out, buf.bytes)
  {
    hide ReadSignedText;
    var text :- Get(buf, ReadSignedText);
    return Done(TopicName(text));
  }

  method ParseMetadataRequest(buf: ByteBuf) returns (out: Outcome<MetadataRequest>)
    modifies buf
    ensures Follows(ReadMetadataRequest(old(buf.bytes)), out, buf.bytes)
  {
    hide ReadEach, ReadFlag, ReadTopicName, ReadU32;
    var topicsCount :- Get(buf, ReadU32);
    var topics: seq<TopicName> := [];
    ghost var topicsStart := buf.bytes;
    NoneRead(ReadTopicName, topicsCount, topicsStart);
    while |topics| < topicsCount
      invariant Reading(ReadTopicName, topicsCount, topicsStart, topics, buf.bytes)
      decreases topicsCount - |topics|
    {
      OneMoreRead(ReadTopicName, topicsCount, topicsStart, topics, buf.bytes);
      var next :- ParseTopicName(buf);
      topics := topics + [next];
    }
    AllRead(ReadTopicName, topicsCount, topicsStart, topics, buf.bytes);
    var allowAutoTopicCreation :- Get(buf, ReadFlag);
    return Done(MetadataRequest(topics, allowAutoTopicCreation));
  }

  method ParseProducePartition(buf: ByteBuf) returns (out: Outcome<ProducePartition>)
    modifies buf
    ensures Follows(ReadProducePartition(old(buf.bytes)), out, buf.bytes)
  {
    hide ReadSizedBatch, ReadU16;
    var index :- Get(buf, ReadU16);
    var records :- GetSizedBatch(buf);
    return Done(ProducePartition(index, records));
  }

  method ParseProduceTopic(buf: ByteBuf) returns (out: Outcome<ProduceTopic>)
    modifies buf
    ensures Follows(ReadProduceTopic(old(buf.bytes)), out, buf.bytes)
  {
    hide ReadEach, ReadProducePartition, ReadText, ReadU32;
    var topic :- Get(buf, ReadText);
    var partitionsCount :- Get(buf, ReadU32);
    var partitions: seq<ProducePartition> := [];
    ghost var partitionsStart := buf.bytes;
    NoneRead(ReadProducePartition, partitionsCount, partitionsStart);
    while |partitions| < partitionsCount
      invariant Reading(ReadProducePartition, partitionsCount, partitionsStart, partitions, buf.bytes)
      decreases partitionsCount - |partitions|
    {
      OneMoreRead(ReadProducePartition, partitionsCount, partitionsStart, partitions, buf.bytes);
      var next :- ParseProducePartition(buf);
      partitions := partitions + [next];
    }
    AllRead(ReadProducePartition, partitionsCount, partitionsStart, partitions, buf.bytes);
    return Done(ProduceTopic(topic, partitions));
  }

  method ParseProduceRequest(buf: ByteBuf) returns (out: Outcome<ProduceRequest>)
    modifies buf
    ensures Follows(ReadProduceRequest(old(buf.bytes)), out, buf.bytes)
  {
    hide ReadAcks, ReadEach, ReadProduceTopic, ReadU16, ReadU64;
    var transactionalId :- Get(buf, ReadU64);
    var acks :- Get(buf, ReadAcks);
    var timeoutMs :- Get(buf, ReadU64);
    var topicsCount :- Get(buf, ReadU16);
    var topics: seq<ProduceTopic> := [];
    ghost var topicsStart := buf.bytes;
    NoneRead(ReadProduceTopic, topicsCount, topicsStart);
    while |topics| < topicsCount
      invariant Reading(ReadProduceTopic, topicsCount, topicsStart, topics, buf.bytes)
      decreases topicsCount - |topics|
    {
      OneMoreRead(ReadProduceTopic, topicsCount, topicsStart, topics, buf.bytes);
      var next :- ParseProduceTopic(buf);
      topics := topics + [next];
    }
    AllRead(ReadProduceTopic, topicsCount, topicsStart, topics, buf.bytes);
    return Done(ProduceRequest(transactionalId, acks, timeoutMs, topics));
  }

  method ParseFetchPartition(buf: ByteBuf) returns (out: Outcome<FetchPartition>)
    modifies buf
    ensures Follows(ReadFetchPartition(old(buf.bytes)), out, buf.bytes)
  {
    hide ReadU32, ReadU64;
    var partition :- Get(buf, ReadU32);
    var fetchOffset :- Get(buf, ReadU64);
    var partitionMaxBytes :- Get(buf, ReadU32);
    var highWatermark :- Get(buf, ReadU64);
    return Done(FetchPartition(partition, fetchOffset, partitionMaxBytes, highWatermark));
  }

  method ParseFetchTopic(buf: ByteBuf) returns (out: Outcome<FetchTopic>)
    modifies buf
    ensures Follows(ReadFetchTopic(old(buf.bytes)), out, buf.bytes)
  {
    hide ReadEach, ReadFetchPartition, ReadText, ReadU32;
    var topic :- Get(buf, ReadText);
    var partitionsCount :- Get(buf, ReadU32);
    var partitions: seq<FetchPartition> := [];
    ghost var partitionsStart := buf.bytes;
    NoneRead(ReadFetchPartition, partitionsCount, partitionsStart);
    while |partitions| < partitionsCount
      invariant Reading(ReadFetchPartition, partitionsCount, partitionsStart, partitions, buf.bytes)
      decreases partitionsCount - |partitions|
    {
      OneMoreRead(ReadFetchPartition, partitionsCount, partitionsStart, partitions, buf.bytes);
      var next :- ParseFetchPartition(buf);
      partitions := partitions + [next];
    }
    AllRead(ReadFetchPartition, partitionsCount, partitionsStart, partitions, buf.bytes);
    return Done(FetchTopic(topic, partitions));
  }

  method ParseFetchRequest(buf: ByteBuf) returns (out: Outcome<FetchRequest>)
    modifies buf
    ensures Follows(ReadFetchRequest(old(buf.bytes)), out, buf.bytes)
  {
    hide ReadEach, ReadFetchTopic, ReadI32, ReadU32;
    var replicaId :- Get(buf, ReadI32);
    var maxBytes :- Get(buf, ReadU32);
    var topicsCount :- Get(buf, ReadU32);
    var topics: seq<FetchTopic> := [];
    ghost var topicsStart := buf.bytes;
    NoneRead(ReadFetchTopic, topicsCount, topicsStart);
    while |topics| < topicsCount
      invariant Reading(ReadFetchTopic, topicsCount, topicsStart, topics, buf.bytes)
      decreases topicsCount - |topics|
    {
      OneMoreRead(ReadFetchTopic, topicsCount, topicsStart, topics, buf.bytes);
      var next :- ParseFetchTopic(buf);
      topics := topics + [next];
    }
    AllRead(ReadFetchTopic, topicsCount, topicsStart, topics, buf.bytes);
    return Done(FetchRequest(replicaId, maxBytes, topics));
  }

  method ParsePartitionResponse(buf: ByteBuf) returns (out: Outcome<PartitionResponse>)
    modifies buf
    ensures Follows(ReadPartitionResponse(old(buf.bytes)), out, buf.bytes)
  {
    hide ReadEach, ReadErrorCode, ReadRecordBatch, ReadU32, ReadU64;
    var partitionIndex :- Get(buf, ReadU32);
    var errorCode :- Get(buf, ReadErrorCode);
    var highWatermark :- Get(buf, ReadU64);
    var logStartOffset :- Get(buf, ReadU64);
    var recordsCount :- Get(buf, ReadU32);
    var records: seq<RecordBatch> := [];
    ghost var recordsStart := buf.bytes;
    NoneRead(ReadRecordBatch, recordsCount, recordsStart);
    while |records| < recordsCount
      invariant Reading(ReadRecordBatch, recordsCount, recordsStart, records, buf.bytes)
      decreases recordsCount - |records|
    {
      OneMoreRead(ReadRecordBatch, recordsCount, recordsStart, records, buf.bytes);
      var next :- ParseRecordBatch(buf);
      records := records + [next];
    }
    AllRead(ReadRecordBatch, recordsCount, recordsStart, records, buf.bytes);
    return Done(PartitionResponse(partitionIndex, errorCode, highWatermark, logStartOffset, records));
  }

  method ParseTopicResponse(buf: ByteBuf) returns (out: Outcome<TopicResponse>)
    modifies buf
    ensures Follows(ReadTopicResponse(old(buf.bytes)), out, buf.bytes)
  {
    hide ReadEach, ReadPartitionResponse, ReadText, ReadU32;
    var topic :- Get(buf, ReadText);
    var partitionsCount :- Get(buf, ReadU32);
    var partitions: seq<PartitionResponse> := [];
    ghost var partitionsStart := buf.bytes;
    NoneRead(ReadPartitionResponse, partitionsCount, partitionsStart);
    while |partitions| < partitionsCount
      invariant Reading(ReadPartitionResponse, partitionsCount, partitionsStart, partitions, buf.bytes)
      decreases partitionsCount - |partitions|
    {
      OneMoreRead(ReadPartitionResponse, partitionsCount, partitionsStart, partitions, buf.bytes);
      var next :- ParsePartitionResponse(buf);
      partitions := partitions + [next];
    }
    AllRead(ReadPartitionResponse, partitionsCount, partitionsStart, partitions, buf.bytes);
    return Done(TopicResponse(topic, partitions));
  }

  method ParseFetchResponse(buf: ByteBuf) returns (out: Outcome<FetchResponse>)
    modifies buf
    ensures Follows(ReadFetchResponse(old(buf.bytes)), out, buf.bytes)
  {
    hide ReadEach, ReadTopicResponse, ReadU32;
    var throttleTimeMs :- Get(buf, ReadU32);
    var responsesCount :- Get(buf, ReadU32);
    var responses: seq<TopicResponse> := [];
    ghost var responsesStart := buf.bytes;
    NoneRead(ReadTopicResponse, responsesCount, responsesStart);
    while |responses| < responsesCount
      invariant Reading(ReadTopicResponse, responsesCount, responsesStart, responses, buf.bytes)
      decreases responsesCount - |responses|
    {
      OneMoreRead(ReadTopicResponse, responsesCount, responsesStart, responses, buf.bytes);
      var next :- ParseTopicResponse(buf);
      responses := responses + [next];
    }
    AllRead(ReadTopicResponse, responsesCount, responsesStart, responses, buf.bytes);
    return Done(FetchResponse(throttleTimeMs, responses));
  }

  method ParseProducePartitionResponse(buf: ByteBuf) returns (out: Outcome<ProducePartitionResponse>)
    modifies buf
    ensures Follows(ReadProducePartitionResponse(old(buf.bytes)), out, buf.bytes)
  {
    hide ReadErrorCode, ReadLeader, ReadMessage, ReadU32, ReadU64;
    var index :- Get(buf, ReadU32);
    var errorCode :- Get(buf, ReadErrorCode);
    var baseOffset :- Get(buf, ReadU64);
    var logAppendTimeMs :- Get(buf, ReadU64);
    var logStartOffset :- Get(buf, ReadU64);
    var errorMessage :- Get(buf, ReadMessage);
    var currentLeader :- GetLeader(buf);
    return Done(ProducePartitionResponse(index, errorCode, baseOffset, logAppendTimeMs, logStartOffset, errorMessage,
    currentLeader));
  }

  method ParseProduceTopicResponse(buf: ByteBuf) returns (out: Outcome<ProduceTopicResponse>)
    modifies buf
    ensures Follows(ReadProduceTopicResponse(old(buf.bytes)), out, buf.bytes)
  {
    hide ReadEach, ReadProducePartitionResponse, ReadText, ReadU32;
    var topic :- Get(buf, ReadText);
    var partitionResponsesCount :- Get(buf, ReadU32);
    var partitionResponses: seq<ProducePartitionResponse> := [];
    ghost var partitionResponsesStart := buf.bytes;
    NoneRead(ReadProducePartitionResponse, partitionResponsesCount, partitionResponsesStart);
    while |partitionResponses| < partitionResponsesCount
      invariant Reading(ReadProducePartitionResponse, partitionResponsesCount, partitionResponsesStart, partitionResponses, buf.bytes)
      decreases partitionResponsesCount - |partitionResponses|
    {
      OneMoreRead(ReadProducePartitionResponse, partitionResponsesCount, partitionResponsesStart, partitionResponses,
                  buf.bytes);
      var next :- ParseProducePartitionResponse(buf);
      partitionResponses := partitionResponses + [next];
    }
    AllRead(ReadProducePartitionResponse, partitionResponsesCount, partitionResponsesStart, partitionResponses, buf.bytes);
    return Done(ProduceTopicResponse(topic, partitionResponses));
  }

  method ParseProduceResponse(buf: ByteBuf) returns (out: Outcome<ProduceResponse>)
    modifies buf
    ensures Follows(ReadProduceResponse(old(buf.bytes)), out, buf.bytes)
  {
    hide ReadEach, ReadProduceTopicResponse, ReadU32;
    var throttleTimeMs :- Get(buf, ReadU32);
    var responsesCount :- Get(buf, ReadU32);
    var responses: seq<ProduceTopicResponse> := [];
    ghost var responsesStart := buf.bytes;
    NoneRead(ReadProduceTopicResponse, responsesCount, responsesStart);
    while |responses| < responsesCount
      invariant Reading(ReadProduceTopicResponse, responsesCount, responsesStart, responses, buf.bytes)
      decreases responsesCount - |responses|
    {
      OneMoreRead(ReadProduceTopicResponse, responsesCount, responsesStart, responses, buf.bytes);
      var next :- ParseProduceTopicResponse(buf);
      responses := responses + [next];
    }
    AllRead(ReadProduceTopicResponse, responsesCount, responsesStart, responses, buf.bytes);
    return Done(ProduceResponse(throttleTimeMs, responses));
  }

  method ParseAssignment(buf: ByteBuf) returns (out: Outcome<Assignment>)
    modifies buf
    ensures Follows(ReadAssignment(old(buf.bytes)), out, buf.bytes)
  {
    hide ReadI32;
    var partitionIndex :- Get(buf, ReadI32);
    var brokerIds :- Get(buf, ReadI32);
    return Done(Assignment(partitionIndex, brokerIds));
  }

  method ParseTopicRequest(buf: ByteBuf) returns (out: Outcome<TopicRequest>)
    modifies buf
    ensures Follows(ReadTopicRequest(old(buf.bytes)), out, buf.bytes)
  {
    hide ReadAssignment, ReadEach, ReadI32, ReadText, ReadU16;
    var name :- Get(buf, ReadText);
    var numPartitions :- Get(buf, ReadI32);
    var replicationFactor :- Get(buf, ReadU16);
    var assignmentsCount :- Get(buf, ReadU16);
    var assignments: seq<Assignment> := [];
    ghost var assignmentsStart := buf.bytes;
    NoneRead(ReadAssignment, assignmentsCount, assignmentsStart);
    while |assignments| < assignmentsCount
      invariant Reading(ReadAssignment, assignmentsCount, assignmentsStart, assignments, buf.bytes)
      decreases assignmentsCount - |assignments|
    {
      OneMoreRead(ReadAssignment, assignmentsCount, assignmentsStart, assignments, buf.bytes);
      var next :- ParseAssignment(buf);
      assignments := assignments + [next];
    }
    AllRead(ReadAssignment, assignmentsCount, assignmentsStart, assignments, buf.bytes);
    return Done(TopicRequest(name, numPartitions, replicationFactor, assignments));
  }

  method ParseCreateTopicRequest(buf: ByteBuf) returns (out: Outcome<CreateTopicRequest>)
    modifies buf
    ensures Follows(ReadCreateTopicRequest(old(buf.bytes)), out, buf.bytes)
  {
    hide ReadEach, ReadFlag, ReadTopicRequest, ReadU16, ReadU32;
    var topicsCount :- Get(buf, ReadU16);
    var topics: seq<TopicRequest> := [];
    ghost var topicsStart := buf.bytes;
    NoneRead(ReadTopicRequest, topicsCount, topicsStart);
    while |topics| < topicsCount
      invariant Reading(ReadTopicRequest, topicsCount, topicsStart, topics, buf.bytes)
      decreases topicsCount - |topics|
    {
      OneMoreRead(ReadTopicRequest, topicsCount, topicsStart, topics, buf.bytes);
      var next :- ParseTopicRequest(buf);
      topics := topics + [next];
    }
    AllRead(ReadTopicRequest, topicsCount, topicsStart, topics, buf.bytes);
    var timeoutMs :- Get(buf, ReadU32);
    var validateOnly :- Get(buf, ReadFlag);
    return Done(CreateTopicRequest(topics, timeoutMs, validateOnly));
  }

  method ParseCreatedTopic(buf: ByteBuf) returns (out: Outcome<CreatedTopic>)
    modifies buf
    ensures Follows(ReadCreatedTopic(old(buf.bytes)), out, buf.bytes)
  {
    hide ReadErrorCode, ReadI32, ReadText, ReadU16;
    var name :- Get(buf, ReadText);
    var errorCode :- Get(buf, ReadErrorCode);
    var errorMessage :- Get(buf, ReadText);
    var numPartitions :- Get(buf, ReadI32);
    var replicationFactor :- Get(buf, ReadU16);
    return Done(CreatedTopic(name, errorCode, errorMessage, numPartitions, replicationFactor));
  }

  method ParseCreateTopicResponse(buf: ByteBuf) returns (out: Outcome<CreateTopicResponse>)
    modifies buf
    ensures Follows(ReadCreateTopicResponse(old(buf.bytes)), out, buf.bytes)
  {
    hide ReadCreatedTopic, ReadEach, ReadU16, ReadU32;
    var throttleTimeMs :- Get(buf, ReadU32);
    var topicsCount :- Get(buf, ReadU16);
    var topics: seq<CreatedTopic> := [];
    ghost var topicsStart := buf.bytes;
    NoneRead(ReadCreatedTopic, topicsCount, topicsStart);
    while |topics| < topicsCount
      invariant Reading(ReadCreatedTopic, topicsCount, topicsStart, topics, buf.bytes)
      decreases topicsCount - |topics|
    {
      OneMoreRead(ReadCreatedTopic, topicsCount, topicsStart, topics, buf.bytes);
      var next :- ParseCreatedTopic(buf);
      topics := topics + [next];
    }
    AllRead(ReadCreatedTopic, topicsCount, topicsStart, topics, buf.bytes);
    return Done(CreateTopicResponse(throttleTimeMs, topics));
  }

  method ParseBrokerMetadata(buf: ByteBuf) returns (out: Outcome<BrokerMetadata>)
    modifies buf
    ensures Follows(ReadBrokerMetadata(old(buf.bytes)), out, buf.bytes)
  {
    hide ReadI32, ReadText;
    var nodeId :- Get(buf, ReadI32);
    var host :- Get(buf, ReadText);
    var port :- Get(buf, ReadI32);
    return Done(BrokerMetadata(nodeId, host, port));
  }

  method ParsePartitionMetadata(buf: ByteBuf) returns (out: Outcome<PartitionMetadata>)
    modifies buf
    ensures Follows(ReadPartitionMetadata(old(buf.bytes)), out, buf.bytes)
  {
    hide ReadErrorCode, ReadI32, ReadU32;
    var errorCode :- Get(buf, ReadErrorCode);
    var partitionIndex :- Get(buf, ReadI32);
    var leaderId :- Get(buf, ReadI32);
    var replicaNodes :- Get(buf, ReadU32);
    var isrNodes :- Get(buf, ReadU32);
    var offlineReplicas :- Get(buf, ReadU32);
    return Done(PartitionMetadata(errorCode, partitionIndex, leaderId, replicaNodes, isrNodes, offlineReplicas));
  }

  method ParseTopicMetadata(buf: ByteBuf) returns (out: Outcome<TopicMetadata>)
    modifies buf
    ensures Follows(ReadTopicMetadata(old(buf.bytes)), out, buf.bytes)
  {
    hide ReadEach, ReadErrorCode, ReadPartitionMetadata, ReadText, ReadU32;
    var errorCode :- Get(buf, ReadErrorCode);
    var name :- Get(buf, ReadText);
    var partitionsCount :- Get(buf, ReadU32);
    var partitions: seq<PartitionMetadata> := [];
    ghost var partitionsStart := buf.bytes;
    NoneRead(ReadPartitionMetadata, partitionsCount, partitionsStart);
    while |partitions| < partitionsCount
      invariant Reading(ReadPartitionMetadata, partitionsCount, partitionsStart, partitions, buf.bytes)
      decreases partitionsCount - |partitions|
    {
      OneMoreRead(ReadPartitionMetadata, partitionsCount, partitionsStart, partitions, buf.bytes);
      var next :- ParsePartitionMetadata(buf);
      partitions := partitions + [next];
    }
    AllRead(ReadPartitionMetadata, partitionsCount, partitionsStart, partitions, buf.bytes);
    return Done(TopicMetadata(errorCode, name, partitions));
  }

  method ParseMetadataResponse(buf: ByteBuf) returns (out: Outcome<MetadataResponse>)
    modifies buf
    ensures Follows(ReadMetadataResponse(old(buf.bytes)), out, buf.bytes)
  {
    hide ReadBrokerMetadata, ReadEach, ReadErrorCode, ReadI32, ReadTopicMetadata, ReadU32;
    var throttleTimeMs :- Get(buf, ReadU32);
    var brokersCount :- Get(buf, ReadU32);
    var brokers: seq<BrokerMetadata> := [];
    ghost var brokersStart := buf.bytes;
    NoneRead(ReadBrokerMetadata, brokersCount, brokersStart);
    while |brokers| < brokersCount
      invariant Reading(ReadBrokerMetadata, brokersCount, brokersStart, brokers, buf.bytes)
      decreases brokersCount - |brokers|
    {
      OneMoreRead(ReadBrokerMetadata, brokersCount, brokersStart, brokers, buf.bytes);
      var next :- ParseBrokerMetadata(buf);
      brokers := brokers + [next];
    }
    AllRead(ReadBrokerMetadata, brokersCount, brokersStart, brokers, buf.bytes);
    var controllerId :- Get(buf, ReadI32);
    var topicsCount :- Get(buf, ReadU32);
    var topics: seq<TopicMetadata> := [];
    ghost var topicsStart := buf.bytes;
    NoneRead(ReadTopicMetadata, topicsCount, topicsStart);
    while |topics| < topicsCount
      invariant Reading(ReadTopicMetadata, topicsCount, topicsStart, topics, buf.bytes)
      decreases topicsCount - |topics|
    {
      OneMoreRead(ReadTopicMetadata, topicsCount, topicsStart, topics, buf.bytes);
      var next :- ParseTopicMetadata(buf);
      topics := topics + [next];
    }
    AllRead(ReadTopicMetadata, topicsCount, topicsStart, topics, buf.bytes);
    var errorCode :- Get(buf, ReadErrorCode);
    return Done(MetadataResponse(throttleTimeMs, brokers, controllerId, topics, errorCode));
  }

  // ---- frames --------------------------------------------------------------

  method ParseHeader(buf: ByteBuf) returns (out: Outcome<Header>)
    modifies buf
    ensures Follows(ReadHeader(old(buf.bytes)), out, buf.bytes)
  {
    hide ReadU32, ReadClientId;
    var apiKey :- Get(buf, ReadU32);
    var apiVersion :- Get(buf, ReadU32);
    var correlationId :- Get(buf, ReadU32);
    var clientId :- GetClientId(buf);
    if apiKey == 0 { return Done(Header(Produce, apiVersion, correlationId, clientId)); }
    if apiKey == 1 { return Done(Header(Fetch, apiVersion, correlationId, clientId)); }
    if apiKey == 3 { return Done(Header(Metadata, apiVersion, correlationId, clientId)); }
    if apiKey == 19 { return Done(Header(CreateTopics, apiVersion, correlationId, clientId)); }
    return Bad(InvalidApiKey);
  }

  /** A broker reads a request. */
  method ParseRequest(buf: ByteBuf, size: u32) returns (out: Outcome<Frame>)
    modifies buf
    ensures Follows(DecodeRequest(old(buf.bytes), size), out, buf.bytes)
  {
    hide ReadHeader, ReadProduceRequest, ReadFetchRequest, ReadMetadataRequest, ReadCreateTopicRequest;
    var header :- ParseHeader(buf);
    match header.apiKey
    case Produce =>
      var x :- ParseProduceRequest(buf);
      return Done(Frame(size, header, ProduceBody(x)));
    case Fetch =>
      var x :- ParseFetchRequest(buf);
      return Done(Frame(size, header, FetchBody(x)));
    case Metadata =>
      var x :- ParseMetadataRequest(buf);
      return Done(Frame(size, header, MetadataBody(x)));
    case CreateTopics =>
      var x :- ParseCreateTopicRequest(buf);
      return Done(Frame(size, header, CreateTopicsBody(x)));
  }

  /** A client reads a response. */
  method ParseResponse(buf: ByteBuf, size: u32) returns (out: Outcome<Frame>)
    modifies buf
    ensures Follows(DecodeResponse(old(buf.bytes), size), out, buf.bytes)
  {
    hide ReadHeader, ReadProduceResponse, ReadFetchResponse, ReadMetadataResponse, ReadCreateTopicResponse;
    var header :- ParseHeader(buf);
    match header.apiKey
    case Produce =>
      var x :- ParseProduceResponse(buf);
      return Done(Frame(size, header, ProduceResponseBody(x)));
    case Fetch =>
      var x :- ParseFetchResponse(buf);
      return Done(Frame(size, header, FetchResponseBody(x)));
    case Metadata =>
      var x :- ParseMetadataResponse(buf);
      return Done(Frame(size, header, MetadataResponseBody(x)));
    case CreateTopics =>
      var x :- ParseCreateTopicResponse(buf);
      return Done(Frame(size, header, CreateTopicsResponseBody(x)));
  }
}
