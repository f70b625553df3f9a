/** The encoder as the source runs it: appending to a growing buffer in nested loops, and
    patching the size at the front. */
module Encoder {
  import opened Bytes
  import opened Records
  import opened RecordBatches
  import opened Wire
  import opened FrameParts
  import opened Requests
  import opened Responses
  import opened Frames
  import Decoder

  lemma OneMorePut<T>(put: (T, seq<byte>) -> seq<byte>, xs: seq<T>, i: nat, tail: seq<byte>)
    requires i < |xs|
    ensures PutEach(put, xs[i..], tail) == put(xs[i], PutEach(put, xs[i + 1..], tail))
  {
    assert xs[i..][1..] == xs[i + 1..];
  }

  lemma NonePut<T>(put: (T, seq<byte>) -> seq<byte>, xs: seq<T>, tail: seq<byte>)
    ensures PutEach(put, xs[|xs|..], tail) == tail
  {
  }

  // ---- parts ---------------------------------------------------------------

  /** Appends bytes. In front of what is still to come, the buffer then holds the same. */
  method Add(buf: ByteBuf, data: seq<byte>, ghost tail: seq<byte>)
    modifies buf
    ensures buf.bytes == old(buf.bytes) + data && buf.bytes + tail == old(buf.bytes) + (data + tail)
  {
    buf.bytes := buf.bytes + data;
    assert old(buf.bytes) + (data + tail) == (old(buf.bytes) + data) + tail;
  }

  method AddU16(buf: ByteBuf, x: u16, ghost tail: seq<byte>)
    modifies buf
    ensures buf.bytes + tail == old(buf.bytes) + (PutU16(x) + tail)
  {
    Add(buf, PutU16(x), tail);
  }

  method AddU32(buf: ByteBuf, x: u32, ghost tail: seq<byte>)
    modifies buf
    ensures buf.bytes + tail == old(buf.bytes) + (PutU32(x) + tail)
  {
    Add(buf, PutU32(x), tail);
  }

  method AddU64(buf: ByteBuf, x: u64, ghost tail: seq<byte>)
    modifies buf
    ensures buf.bytes + tail == old(buf.bytes) + (PutU64(x) + tail)
  {
    Add(buf, PutU64(x), tail);
  }

  method AddI16(buf: ByteBuf, x: i16, ghost tail: seq<byte>)
    modifies buf
    ensures buf.bytes + tail == old(buf.bytes) + (PutI16(x) + tail)
  {
    Add(buf, PutI16(x), tail);
  }

  method AddI32(buf: ByteBuf, x: i32, ghost tail: seq<byte>)
    modifies buf
    ensures buf.bytes + tail == old(buf.bytes) + (PutI32(x) + tail)
  {
    Add(buf, PutI32(x), tail);
  }

  method AddFlag(buf: ByteBuf, flag: bool, ghost tail: seq<byte>)
    modifies buf
    ensures buf.bytes + tail == old(buf.bytes) + ([if flag then 1 else 0] + tail)
  {
    Add(buf, [if flag then 1 else 0], tail);
  }

  method AddText(buf: ByteBuf, text: seq<byte>, ghost tail: seq<byte>)
    modifies buf
    ensures buf.bytes + tail == old(buf.bytes) + PutText(text, tail)
  {
    AddU16(buf, CastU16(|text|), text + tail);
    Add(buf, text, tail);
  }

  method AddSignedText(buf: ByteBuf, text: seq<byte>, ghost tail: seq<byte>)
    modifies buf
    ensures buf.bytes + tail == old(buf.bytes) + PutSignedText(text, tail)
  {
    AddI16(buf, CastI16(|text|), text + tail);
    Add(buf, text, tail);
  }

  method AddLeader(buf: ByteBuf, leader: Leader, ghost tail: seq<byte>)
    modifies buf
    ensures buf.bytes + tail == old(buf.bytes) + PutLeader(leader, tail)
  {
    hide PutI32, PutU32;
    match leader
    case NoLeader => AddFlag(buf, false, tail);
    case Leader(id, epoch) =>
      AddFlag(buf, true, PutI32(id) + (PutU32(epoch) + tail));
      AddI32(buf, id, PutU32(epoch) + tail);
      AddU32(buf, epoch, tail);
  }

  method AddSizedBatch(buf: ByteBuf, b: RecordBatch, ghost tail: seq<byte>)
    modifies buf
    ensures buf.bytes + tail == old(buf.bytes) + PutBatch(b, tail)
  {
    hide EncodeBatch, PutU32;
    AddU32(buf, CastU32(|EncodeBatch(b)|), EncodeBatch(b) + tail);
    Add(buf, EncodeBatch(b), tail);
  }

  method EncodeRecordBatch(buf: ByteBuf, b: RecordBatch, ghost tail: seq<byte>)
    modifies buf
    ensures buf.bytes + tail == old(buf.bytes) + PutRecordBatch(b, tail)
  {
    hide EncodeBatch;
    Add(buf, EncodeBatch(b), tail);
  }

  // ---- bodies --------------------------------------------------------------

  method EncodeTopicName(buf: ByteBuf, x: TopicName, ghost tail: seq<byte>)
    modifies buf
    ensures buf.bytes + tail == old(buf.bytes) + PutTopicName(x, tail)
  {
    hide PutSignedText;
    AddSignedText(buf, x.text, tail);
  }

  method EncodeMetadataRequest(buf: ByteBuf, x: MetadataRequest, ghost tail: seq<byte>)
    modifies buf
    ensures buf.bytes + tail == old(buf.bytes) + PutMetadataRequest(x, tail)
  {
    hide PutEach, PutTopicName, PutU32;
    ghost var t1 := [if x.allowAutoTopicCreation then 1 else 0] + tail;
    AddU32(buf, CastU32(|x.topics|), PutEach(PutTopicName, x.topics, t1));
    ghost var topicsGoal := buf.bytes + PutEach(PutTopicName, x.topics, t1);
    assert x.topics[0..] == x.topics;
    var i := 0;
    while i < |x.topics|
      invariant 0 <= i <= |x.topics|
      invariant buf.bytes + PutEach(PutTopicName, x.topics[i..], t1) == topicsGoal
    {
      OneMorePut(PutTopicName, x.topics, i, t1);
      EncodeTopicName(buf, x.topics[i], PutEach(PutTopicName, x.topics[i + 1..], t1));
      i := i + 1;
    }
    NonePut(PutTopicName, x.topics, t1);
    AddFlag(buf, x.allowAutoTopicCreation, tail);
  }

  method EncodeProducePartition(buf: ByteBuf, x: ProducePartition, ghost tail: seq<byte>)
    modifies buf
    ensures buf.bytes + tail == old(buf.bytes) + PutProducePartition(x, tail)
  {
    hide PutBatch, PutU16;
    ghost var t1 := PutBatch(x.records, tail);
    AddU16(buf, x.index, t1);
    AddSizedBatch(buf, x.records, tail);
  }

  method EncodeProduceTopic(buf: ByteBuf, x: ProduceTopic, ghost tail: seq<byte>)
    modifies buf
    ensures buf.bytes + tail == old(buf.bytes) + PutProduceTopic(x, tail)
  {
    hide PutEach, PutProducePartition, PutText, PutU32;
    ghost var t1 := PutU32(CastU32(|x.partitions|)) + PutEach(PutProducePartition, x.partitions, tail);
    AddText(buf, x.topic, t1);
    AddU32(buf, CastU32(|x.partitions|), PutEach(PutProducePartition, x.partitions, tail));
    ghost var partitionsGoal := buf.bytes + PutEach(PutProducePartition, x.partitions, tail);
    assert x.partitions[0..] == x.partitions;
    var i := 0;
    while i < |x.partitions|
      invariant 0 <= i <= |x.partitions|
      invariant buf.bytes + PutEach(PutProducePartition, x.partitions[i..], tail) == partitionsGoal
    {
      OneMorePut(PutProducePartition, x.partitions, i, tail);
      EncodeProducePartition(buf, x.partitions[i], PutEach(PutProducePartition, x.partitions[i + 1..], tail));
      i := i + 1;
    }
    NonePut(PutProducePartition, x.partitions, tail);
  }

  method EncodeProduceRequest(buf: ByteBuf, x: ProduceRequest, ghost tail: seq<byte>)
    modifies buf
    ensures buf.bytes + tail == old(buf.bytes) + PutProduceRequest(x, tail)
  {
    hide AcksNumber, PutEach, PutProduceTopic, PutU16, PutU32, PutU64;
    ghost var t3 := PutU16(CastU16(|x.topics|)) + PutEach(PutProduceTopic, x.topics, tail);
    ghost var t2 := PutU64(x.timeoutMs) + t3;
    ghost var t1 := PutU32(AcksNumber(x.acks)) + t2;
    AddU64(buf, x.transactionalId, t1);
    AddU32(buf, AcksNumber(x.acks), t2);
    AddU64(buf, x.timeoutMs, t3);
    AddU16(buf, CastU16(|x.topics|), PutEach(PutProduceTopic, x.topics, tail));
    ghost var topicsGoal := buf.bytes + PutEach(PutProduceTopic, x.topics, tail);
    assert x.topics[0..] == x.topics;
    var i := 0;
    while i < |x.topics|
      invariant 0 <= i <= |x.topics|
      invariant buf.bytes + PutEach(PutProduceTopic, x.topics[i..], tail) == topicsGoal
    {
      OneMorePut(PutProduceTopic, x.topics, i, tail);
      EncodeProduceTopic(buf, x.topics[i], PutEach(PutProduceTopic, x.topics[i + 1..], tail));
      i := i + 1;
    }
    NonePut(PutProduceTopic, x.topics, tail);
  }

  method EncodeFetchPartition(buf: ByteBuf, x: FetchPartition, ghost tail: seq<byte>)
    modifies buf
    ensures buf.bytes + tail == old(buf.bytes) + PutFetchPartition(x, tail)
  {
    hide PutU32, PutU64;
    ghost var t3 := PutU64(x.highWatermark) + tail;
    ghost var t2 := PutU32(x.partitionMaxBytes) + t3;
    ghost var t1 := PutU64(x.fetchOffset) + t2;
    AddU32(buf, x.partition, t1);
    AddU64(buf, x.fetchOffset, t2);
    AddU32(buf, x.partitionMaxBytes, t3);
    AddU64(buf, x.highWatermark, tail);
  }

  method EncodeFetchTopic(buf: ByteBuf, x: FetchTopic, ghost tail: seq<byte>)
    modifies buf
    ensures buf.bytes + tail == old(buf.bytes) + PutFetchTopic(x, tail)
  {
    hide PutEach, PutFetchPartition, PutText, PutU32;
    ghost var t1 := PutU32(CastU32(|x.partitions|)) + PutEach(PutFetchPartition, x.partitions, tail);
    AddText(buf, x.topic, t1);
    AddU32(buf, CastU32(|x.partitions|), PutEach(PutFetchPartition, x.partitions, tail));
    ghost var partitionsGoal := buf.bytes + PutEach(PutFetchPartition, x.partitions, tail);
    assert x.partitions[0..] == x.partitions;
    var i := 0;
    while i < |x.partitions|
      invariant 0 <= i <= |x.partitions|
      invariant buf.bytes + PutEach(PutFetchPartition, x.partitions[i..], tail) == partitionsGoal
    {
      OneMorePut(PutFetchPartition, x.partitions, i, tail);
      EncodeFetchPartition(buf, x.partitions[i], PutEach(PutFetchPartition, x.partitions[i + 1..], tail));
      i := i + 1;
    }
    NonePut(PutFetchPartition, x.partitions, tail);
  }

  method EncodeFetchRequest(buf: ByteBuf, x: FetchRequest, ghost tail: seq<byte>)
    modifies buf
    ensures buf.bytes + tail == old(buf.bytes) + PutFetchRequest(x, tail)
  {
    hide PutEach, PutFetchTopic, PutI32, PutU32;
    ghost var t2 := PutU32(CastU32(|x.topics|)) + PutEach(PutFetchTopic, x.topics, tail);
    ghost var t1 := PutU32(x.maxBytes) + t2;
    AddI32(buf, x.replicaId, t1);
    AddU32(buf, x.maxBytes, t2);
    AddU32(buf, CastU32(|x.topics|), PutEach(PutFetchTopic, x.topics, tail));
    ghost var topicsGoal := buf.bytes + PutEach(PutFetchTopic, x.topics, tail);
    assert x.topics[0..] == x.topics;
    var i := 0;
    while i < |x.topics|
      invariant 0 <= i <= |x.topics|
      invariant buf.bytes + PutEach(PutFetchTopic, x.topics[i..], tail) == topicsGoal
    {
      OneMorePut(PutFetchTopic, x.topics, i, tail);
      EncodeFetchTopic(buf, x.topics[i], PutEach(PutFetchTopic, x.topics[i + 1..], tail));
      i := i + 1;
    }
    NonePut(PutFetchTopic, x.topics, tail);
  }

  method EncodePartitionResponse(buf: ByteBuf, x: PartitionResponse, ghost tail: seq<byte>)
    modifies buf
    ensures buf.bytes + tail == old(buf.bytes) + PutPartitionResponse(x, tail)
  {
    hide PutEach, PutI16, PutRecordBatch, PutU32, PutU64;
    ghost var t4 := PutU32(CastU32(|x.records|)) + PutEach(PutRecordBatch, x.records, tail);
    ghost var t3 := PutU64(x.logStartOffset) + t4;
    ghost var t2 := PutU64(x.highWatermark) + t3;
    ghost var t1 := PutI16(x.errorCode) + t2;
    AddU32(buf, x.partitionIndex, t1);
    AddI16(buf, x.errorCode, t2);
    AddU64(buf, x.highWatermark, t3);
    AddU64(buf, x.logStartOffset, t4);
    AddU32(buf, CastU32(|x.records|), PutEach(PutRecordBatch, x.records, tail));
    ghost var recordsGoal := buf.bytes + PutEach(PutRecordBatch, x.records, tail);
    assert x.records[0..] == x.records;
    var i := 0;
    while i < |x.records|
      invariant 0 <= i <= |x.records|
      invariant buf.bytes + PutEach(PutRecordBatch, x.records[i..], tail) == recordsGoal
    {
      OneMorePut(PutRecordBatch, x.records, i, tail);
      EncodeRecordBatch(buf, x.records[i], PutEach(PutRecordBatch, x.records[i + 1..], tail));
      i := i + 1;
    }
    NonePut(PutRecordBatch, x.records, tail);
  }

  method EncodeTopicResponse(buf: ByteBuf, x: TopicResponse, ghost tail: seq<byte>)
    modifies buf
    ensures buf.bytes + tail == old(buf.bytes) + PutTopicResponse(x, tail)
  {
    hide PutEach, PutPartitionResponse, PutText, PutU32;
    ghost var t1 := PutU32(CastU32(|x.partitions|)) + PutEach(PutPartitionResponse, x.partitions, tail);
    AddText(buf, x.topic, t1);
    AddU32(buf, CastU32(|x.partitions|), PutEach(PutPartitionResponse, x.partitions, tail));
    ghost var partitionsGoal := buf.bytes + PutEach(PutPartitionResponse, x.partitions, tail);
    assert x.partitions[0..] == x.partitions;
    var i := 0;
    while i < |x.partitions|
      invariant 0 <= i <= |x.partitions|
      invariant buf.bytes + PutEach(PutPartitionResponse, x.partitions[i..], tail) == partitionsGoal
    {
      OneMorePut(PutPartitionResponse, x.partitions, i, tail);
      EncodePartitionResponse(buf, x.partitions[i], PutEach(PutPartitionResponse, x.partitions[i + 1..], tail));
      i := i + 1;
    }
    NonePut(PutPartitionResponse, x.partitions, tail);
  }

  method EncodeFetchResponse(buf: ByteBuf, x: FetchResponse, ghost tail: seq<byte>)
    modifies buf
    ensures buf.bytes + tail == old(buf.bytes) + PutFetchResponse(x, tail)
  {
    hide PutEach, PutTopicResponse, PutU32;
    ghost var t1 := PutU32(CastU32(|x.responses|)) + PutEach(PutTopicResponse, x.responses, tail);
    AddU32(buf, x.throttleTimeMs, t1);
    AddU32(buf, CastU32(|x.responses|), PutEach(PutTopicResponse, x.responses, tail));
    ghost var responsesGoal := buf.bytes + PutEach(PutTopicResponse, x.responses, tail);
    assert x.responses[0..] == x.responses;
    var i := 0;
    while i < |x.responses|
      invariant 0 <= i <= |x.responses|
      invariant buf.bytes + PutEach(PutTopicResponse, x.responses[i..], tail) == responsesGoal
    {
      OneMorePut(PutTopicResponse, x.responses, i, tail);
      EncodeTopicResponse(buf, x.responses[i], PutEach(PutTopicResponse, x.responses[i + 1..], tail));
      i := i + 1;
    }
    NonePut(PutTopicResponse, x.responses, tail);
  }

  method EncodeProducePartitionResponse(buf: ByteBuf, x: ProducePartitionResponse, ghost tail: seq<byte>)
    modifies buf
    ensures buf.bytes + tail == old(buf.bytes) + PutProducePartitionResponse(x, tail)
  {
    hide PutI16, PutLeader, PutSignedText, PutU32, PutU64;
    ghost var t6 := PutLeader(x.currentLeader, tail);
    ghost var t5 := PutSignedText(x.errorMessage, t6);
    ghost var t4 := PutU64(x.logStartOffset) + t5;
    ghost var t3 := PutU64(x.logAppendTimeMs) + t4;
    ghost var t2 := PutU64(x.baseOffset) + t3;
    ghost var t1 := PutI16(x.errorCode) + t2;
    AddU32(buf, x.index, t1);
    AddI16(buf, x.errorCode, t2);
    AddU64(buf, x.baseOffset, t3);
    AddU64(buf, x.logAppendTimeMs, t4);
    AddU64(buf, x.logStartOffset, t5);
    AddSignedText(buf, x.errorMessage, t6);
    AddLeader(buf, x.currentLeader, tail);
  }

  method EncodeProduceTopicResponse(buf: ByteBuf, x: ProduceTopicResponse, ghost tail: seq<byte>)
    modifies buf
    ensures buf.bytes + tail == old(buf.bytes) + PutProduceTopicResponse(x, tail)
  {
    hide PutEach, PutProducePartitionResponse, PutText, PutU32;
    ghost var t1 := PutU32(CastU32(|x.partitionResponses|)) + PutEach(PutProducePartitionResponse,
    x.partitionResponses, tail);
    AddText(buf, x.topic, t1);
    AddU32(buf, CastU32(|x.partitionResponses|), PutEach(PutProducePartitionResponse, x.partitionResponses, tail));
    ghost var partitionResponsesGoal := buf.bytes + PutEach(PutProducePartitionResponse, x.partitionResponses, tail);
    assert x.partitionResponses[0..] == x.partitionResponses;
    var i := 0;
    while i < |x.partitionResponses|
      invariant 0 <= i <= |x.partitionResponses|
      invariant buf.bytes + PutEach(PutProducePartitionResponse, x.partitionResponses[i..],
      tail) == partitionResponsesGoal
    {
      OneMorePut(PutProducePartitionResponse, x.partitionResponses, i, tail);
      EncodeProducePartitionResponse(buf, x.partitionResponses[i], PutEach(PutProducePartitionResponse,
      x.partitionResponses[i + 1..], tail));
      i := i + 1;
    }
    NonePut(PutProducePartitionResponse, x.partitionResponses, tail);
  }

  method EncodeProduceResponse(buf: ByteBuf, x: ProduceResponse, ghost tail: seq<byte>)
    modifies buf
    ensures buf.bytes + tail == old(buf.bytes) + PutProduceResponse(x, tail)
  {
    hide PutEach, PutProduceTopicResponse, PutU32;
    ghost var t1 := PutU32(CastU32(|x.responses|)) + PutEach(PutProduceTopicResponse, x.responses, tail);
    AddU32(buf, x.throttleTimeMs, t1);
    AddU32(buf, CastU32(|x.responses|), PutEach(PutProduceTopicResponse, x.responses, tail));
    ghost var responsesGoal := buf.bytes + PutEach(PutProduceTopicResponse, x.responses, tail);
    assert x.responses[0..] == x.responses;
    var i := 0;
    while i < |x.responses|
      invariant 0 <= i <= |x.responses|
      invariant buf.bytes + PutEach(PutProduceTopicResponse, x.responses[i..], tail) == responsesGoal
    {
      OneMorePut(PutProduceTopicResponse, x.responses, i, tail);
      EncodeProduceTopicResponse(buf, x.responses[i], PutEach(PutProduceTopicResponse, x.responses[i + 1..], tail));
      i := i + 1;
    }
    NonePut(PutProduceTopicResponse, x.responses, tail);
  }

  method EncodeAssignment(buf: ByteBuf, x: Assignment, ghost tail: seq<byte>)
    modifies buf
    ensures buf.bytes + tail == old(buf.bytes) + PutAssignment(x, tail)
  {
    hide PutI32;
    ghost var t1 := PutI32(x.brokerIds) + tail;
    AddI32(buf, x.partitionIndex, t1);
    AddI32(buf, x.brokerIds, tail);
  }

  method EncodeTopicRequest(buf: ByteBuf, x: TopicRequest, ghost tail: seq<byte>)
    modifies buf
    ensures buf.bytes + tail == old(buf.bytes) + PutTopicRequest(x, tail)
  {
    hide PutAssignment, PutEach, PutI32, PutText, PutU16;
    ghost var t3 := PutU16(CastU16(|x.assignments|)) + PutEach(PutAssignment, x.assignments, tail);
    ghost var t2 := PutU16(x.replicationFactor) + t3;
    ghost var t1 := PutI32(x.numPartitions) + t2;
    AddText(buf, x.name, t1);
    AddI32(buf, x.numPartitions, t2);
    AddU16(buf, x.replicationFactor, t3);
    AddU16(buf, CastU16(|x.assignments|), PutEach(PutAssignment, x.assignments, tail));
    ghost var assignmentsGoal := buf.bytes + PutEach(PutAssignment, x.assignments, tail);
    assert x.assignments[0..] == x.assignments;
    var i := 0;
    while i < |x.assignments|
      invariant 0 <= i <= |x.assignments|
      invariant buf.bytes + PutEach(PutAssignment, x.assignments[i..], tail) == assignmentsGoal
    {
      OneMorePut(PutAssignment, x.assignments, i, tail);
      EncodeAssignment(buf, x.assignments[i], PutEach(PutAssignment, x.assignments[i + 1..], tail));
      i := i + 1;
    }
    NonePut(PutAssignment, x.assignments, tail);
  }

  method EncodeCreateTopicRequest(buf: ByteBuf, x: CreateTopicRequest, ghost tail: seq<byte>)
    modifies buf
    ensures buf.bytes + tail == old(buf.bytes) + PutCreateTopicRequest(x, tail)
  {
    hide PutEach, PutTopicRequest, PutU16, PutU32;
    ghost var t2 := [if x.validateOnly then 1 else 0] + tail;
    ghost var t1 := PutU32(x.timeoutMs) + t2;
    AddU16(buf, CastU16(|x.topics|), PutEach(PutTopicRequest, x.topics, t1));
    ghost var topicsGoal := buf.bytes + PutEach(PutTopicRequest, x.topics, t1);
    assert x.topics[0..] == x.topics;
    var i := 0;
    while i < |x.topics|
      invariant 0 <= i <= |x.topics|
      invariant buf.bytes + PutEach(PutTopicRequest, x.topics[i..], t1) == topicsGoal
    {
      OneMorePut(PutTopicRequest, x.topics, i, t1);
      EncodeTopicRequest(buf, x.topics[i], PutEach(PutTopicRequest, x.topics[i + 1..], t1));
      i := i + 1;
    }
    NonePut(PutTopicRequest, x.topics, t1);
    AddU32(buf, x.timeoutMs, t2);
    AddFlag(buf, x.validateOnly, tail);
  }

  method EncodeCreatedTopic(buf: ByteBuf, x: CreatedTopic, ghost tail: seq<byte>)
    modifies buf
    ensures buf.bytes + tail == old(buf.bytes) + PutCreatedTopic(x, tail)
  {
    hide PutI16, PutI32, PutText, PutU16;
    ghost var t4 := PutU16(x.replicationFactor) + tail;
    ghost var t3 := PutI32(x.numPartitions) + t4;
    ghost var t2 := PutText(x.errorMessage, t3);
    ghost var t1 := PutI16(x.errorCode) + t2;
    AddText(buf, x.name, t1);
    AddI16(buf, x.errorCode, t2);
    AddText(buf, x.errorMessage, t3);
    AddI32(buf, x.numPartitions, t4);
    AddU16(buf, x.replicationFactor, tail);
  }

  method EncodeCreateTopicResponse(buf: ByteBuf, x: CreateTopicResponse, ghost tail: seq<byte>)
    modifies buf
    ensures buf.bytes + tail == old(buf.bytes) + PutCreateTopicResponse(x, tail)
  {
    hide PutCreatedTopic, PutEach, PutU16, PutU32;
    ghost var t1 := PutU16(CastU16(|x.topics|)) + PutEach(PutCreatedTopic, x.topics, tail);
    AddU32(buf, x.throttleTimeMs, t1);
    AddU16(buf, CastU16(|x.topics|), PutEach(PutCreatedTopic, x.topics, tail));
    ghost var topicsGoal := buf.bytes + PutEach(PutCreatedTopic, x.topics, tail);
    assert x.topics[0..] == x.topics;
    var i := 0;
    while i < |x.topics|
      invariant 0 <= i <= |x.topics|
      invariant buf.bytes + PutEach(PutCreatedTopic, x.topics[i..], tail) == topicsGoal
    {
      OneMorePut(PutCreatedTopic, x.topics, i, tail);
      EncodeCreatedTopic(buf, x.topics[i], PutEach(PutCreatedTopic, x.topics[i + 1..], tail));
      i := i + 1;
    }
    NonePut(PutCreatedTopic, x.topics, tail);
  }

  method EncodeBrokerMetadata(buf: ByteBuf, x: BrokerMetadata, ghost tail: seq<byte>)
    modifies buf
    ensures buf.bytes + tail == old(buf.bytes) + PutBrokerMetadata(x, tail)
  {
    hide PutI32, PutText;
    ghost var t2 := PutI32(x.port) + tail;
    ghost var t1 := PutText(x.host, t2);
    AddI32(buf, x.nodeId, t1);
    AddText(buf, x.host, t2);
    AddI32(buf, x.port, tail);
  }

  method EncodePartitionMetadata(buf: ByteBuf, x: PartitionMetadata, ghost tail: seq<byte>)
    modifies buf
    ensures buf.bytes + tail == old(buf.bytes) + PutPartitionMetadata(x, tail)
  {
    hide PutI16, PutI32, PutU32;
    ghost var t5 := PutU32(x.offlineReplicas) + tail;
    ghost var t4 := PutU32(x.isrNodes) + t5;
    ghost var t3 := PutU32(x.replicaNodes) + t4;
    ghost var t2 := PutI32(x.leaderId) + t3;
    ghost var t1 := PutI32(x.partitionIndex) + t2;
    AddI16(buf, x.errorCode, t1);
    AddI32(buf, x.partitionIndex, t2);
    AddI32(buf, x.leaderId, t3);
    AddU32(buf, x.replicaNodes, t4);
    AddU32(buf, x.isrNodes, t5);
    AddU32(buf, x.offlineReplicas, tail);
  }

  method EncodeTopicMetadata(buf: ByteBuf, x: TopicMetadata, ghost tail: seq<byte>)
    modifies buf
    ensures buf.bytes + tail == old(buf.bytes) + PutTopicMetadata(x, tail)
  {
    hide PutEach, PutI16, PutPartitionMetadata, PutText, PutU32;
    ghost var t2 := PutU32(CastU32(|x.partitions|)) + PutEach(PutPartitionMetadata, x.partitions, tail);
    ghost var t1 := PutText(x.name, t2);
    AddI16(buf, x.errorCode, t1);
    AddText(buf, x.name, t2);
    AddU32(buf, CastU32(|x.partitions|), PutEach(PutPartitionMetadata, x.partitions, tail));
    ghost var partitionsGoal := buf.bytes + PutEach(PutPartitionMetadata, x.partitions, tail);
    assert x.partitions[0..] == x.partitions;
    var i := 0;
    while i < |x.partitions|
      invariant 0 <= i <= |x.partitions|
      invariant buf.bytes + PutEach(PutPartitionMetadata, x.partitions[i..], tail) == partitionsGoal
    {
      OneMorePut(PutPartitionMetadata, x.partitions, i, tail);
      EncodePartitionMetadata(buf, x.partitions[i], PutEach(PutPartitionMetadata, x.partitions[i + 1..], tail));
      i := i + 1;
    }
    NonePut(PutPartitionMetadata, x.partitions, tail);
  }

  method EncodeMetadataResponse(buf: ByteBuf, x: MetadataResponse, ghost tail: seq<byte>)
    modifies buf
    ensures buf.bytes + tail == old(buf.bytes) + PutMetadataResponse(x, tail)
  {
    hide PutBrokerMetadata, PutEach, PutI16, PutI32, PutTopicMetadata, PutU32;
    ghost var t4 := PutI16(x.errorCode) + tail;
    ghost var t3 := PutU32(CastU32(|x.topics|)) + PutEach(PutTopicMetadata, x.topics, t4);
    ghost var t2 := PutI32(x.controllerId) + t3;
    ghost var t1 := PutU32(CastU32(|x.brokers|)) + PutEach(PutBrokerMetadata, x.brokers, t2);
    AddU32(buf, x.throttleTimeMs, t1);
    AddU32(buf, CastU32(|x.brokers|), PutEach(PutBrokerMetadata, x.brokers, t2));
    ghost var brokersGoal := buf.bytes + PutEach(PutBrokerMetadata, x.brokers, t2);
    assert x.brokers[0..] == x.brokers;
    var brokersDone := 0;
    while brokersDone < |x.brokers|
      invariant 0 <= brokersDone <= |x.brokers|
      invariant buf.bytes + PutEach(PutBrokerMetadata, x.brokers[brokersDone..], t2) == brokersGoal
    {
      OneMorePut(PutBrokerMetadata, x.brokers, brokersDone, t2);
      EncodeBrokerMetadata(buf, x.brokers[brokersDone], PutEach(PutBrokerMetadata, x.brokers[brokersDone + 1..], t2));
      brokersDone := brokersDone + 1;
    }
    NonePut(PutBrokerMetadata, x.brokers, t2);
    AddI32(buf, x.controllerId, t3);
    AddU32(buf, CastU32(|x.topics|), PutEach(PutTopicMetadata, x.topics, t4));
    ghost var topicsGoal := buf.bytes + PutEach(PutTopicMetadata, x.topics, t4);
    assert x.topics[0..] == x.topics;
    var topicsDone := 0;
    while topicsDone < |x.topics|
      invariant 0 <= topicsDone <= |x.topics|
      invariant buf.bytes + PutEach(PutTopicMetadata, x.topics[topicsDone..], t4) == topicsGoal
    {
      OneMorePut(PutTopicMetadata, x.topics, topicsDone, t4);
      EncodeTopicMetadata(buf, x.topics[topicsDone], PutEach(PutTopicMetadata, x.topics[topicsDone + 1..], t4));
      topicsDone := topicsDone + 1;
    }
    NonePut(PutTopicMetadata, x.topics, t4);
    AddI16(buf, x.errorCode, tail);
  }

  // ---- frames --------------------------------------------------------------

  method EncodeHeader(buf: ByteBuf, h: Header, ghost tail: seq<byte>)
    modifies buf
    ensures buf.bytes + tail == old(buf.bytes) + PutHeader(h, tail)
  {
    hide PutU32, PutI16, PutSignedText;
    ghost var t3 := PutClientId(h.clientId, tail);
    ghost var t2 := PutU32(h.correlationId) + t3;
    AddU32(buf, ApiKeyNumber(h.apiKey), PutU32(h.apiVersion) + t2);
    AddU32(buf, h.apiVersion, t2);
    AddU32(buf, h.correlationId, t3);
    match h.clientId
    case Named(name) => AddSignedText(buf, name, tail);
    case Anonymous => AddI16(buf, -1, tail);
  }

  method EncodeBody(buf: ByteBuf, body: Body)
    modifies buf
    ensures buf.bytes == old(buf.bytes) + PutBody(body, [])
  {
    hide PutProduceRequest, PutFetchRequest, PutMetadataRequest, PutCreateTopicRequest,
      PutProduceResponse, PutFetchResponse, PutMetadataResponse, PutCreateTopicResponse;
    match body {
      case ProduceBody(x) => EncodeProduceRequest(buf, x, []);
      case FetchBody(x) => EncodeFetchRequest(buf, x, []);
      case MetadataBody(x) => EncodeMetadataRequest(buf, x, []);
      case CreateTopicsBody(x) => EncodeCreateTopicRequest(buf, x, []);
      case ProduceResponseBody(x) => EncodeProduceResponse(buf, x, []);
      case FetchResponseBody(x) => EncodeFetchResponse(buf, x, []);
      case MetadataResponseBody(x) => EncodeMetadataResponse(buf, x, []);
      case CreateTopicsResponseBody(x) => EncodeCreateTopicResponse(buf, x, []);
    }
    assert buf.bytes + [] == buf.bytes;
  }

  /** Four bytes of room, header, body, and then the size where the room was. */
  method Encode(f: Frame) returns (bytes: seq<byte>)
    ensures bytes == EncodeFrame(f)
  {
    hide PutHeader, PutBody, PutU32;
    var buf := new ByteBuf([0, 0, 0, 0]);
    ghost var body := PutBody(f.body, []);
    EncodeHeader(buf, f.header, body);
    ghost var afterHeader := buf.bytes;
    EncodeBody(buf, f.body);
    assert buf.bytes == [0, 0, 0, 0] + PutHeader(f.header, body);
    Split([0, 0, 0, 0], PutHeader(f.header, body));
    bytes := PutU32(CastU32(|buf.bytes| - 4)) + buf.bytes[4..];
  }

  /** What is encoded and then decoded, size first, is what there was, with nothing left. */
  method EncodeThenDecode(f: Frame) returns (bytes: seq<byte>, buf: ByteBuf, out: Decoder.Outcome<Frame>)
    requires SoundFrame(f)
    ensures bytes == EncodeFrame(f) && out == Decoder.Done(f) && buf.bytes == []
  {
    hide SoundFrame, EncodeFrame, DecodeRequest, DecodeResponse;
    FrameRoundTrip(f);
    bytes := Encode(f);
    buf := new ByteBuf(bytes[4..]);
    if IsRequest(f.body) {
      out := Decoder.ParseRequest(buf, f.size);
    } else {
      out := Decoder.ParseResponse(buf, f.size);
    }
  }
}
