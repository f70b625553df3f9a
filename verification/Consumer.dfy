/** The consumer's offset loop: fetch every partition at its commit offset, hand out the records
    received, and move the commit offset by their number. */
module Consumers {
  import opened Bytes
  import opened Options
  import opened Records
  import opened RecordBatches
  import opened Layout
  import opened PartitionLog

  const MaxPartitionBytes := 4096

  datatype PartitionState = PartitionState(highWatermark: nat, commitOffset: nat)

  datatype ConsumerRecord = ConsumerRecord(partition: nat, inner: Record)

  datatype Request = Request(partition: nat, offset: nat)

  datatype Response = Response(partition: nat, highWatermark: nat, records: seq<RecordBatch>)

  // ---- handling a response -------------------------------------------------

  function RecordsOf(b: RecordBatch): seq<Record> {
    match Decoded(b)
    case Parsed(records, _) => records
    case Short => []
  }

  function AllRecords(bs: seq<RecordBatch>): seq<Record> {
    if bs == [] then [] else AllRecords(bs[..|bs| - 1]) + RecordsOf(bs[|bs| - 1])
  }

  function Tagged(partition: nat, records: seq<Record>): seq<ConsumerRecord> {
    seq(|records|, i requires 0 <= i < |records| => ConsumerRecord(partition, records[i]))
  }

  function Advanced(s: PartitionState, r: Response): PartitionState {
    PartitionState(if r.highWatermark > s.highWatermark then r.highWatermark else s.highWatermark,
                   s.commitOffset + |AllRecords(r.records)|)
  }

  function Handled(partitions: map<nat, PartitionState>, responses: seq<Response>): map<nat, PartitionState>
    requires forall i :: 0 <= i < |responses| ==> responses[i].partition in partitions
  {
    if responses == [] then partitions
    else
      var r := responses[0];
      Handled(partitions[r.partition := Advanced(partitions[r.partition], r)], responses[1..])
  }

  function HandedOut(responses: seq<Response>): seq<ConsumerRecord> {
    if responses == [] then []
    else Tagged(responses[0].partition, AllRecords(responses[0].records)) + HandedOut(responses[1..])
  }

  /** How many batches, from the front, decode. */
  function Readable(bs: seq<RecordBatch>): (n: nat)
    ensures n <= |bs|
    ensures forall j :: 0 <= j < n ==> Decoded(bs[j]).Parsed?
    ensures n < |bs| ==> !Decoded(bs[n]).Parsed?
  {
    if bs == [] || !Decoded(bs[0]).Parsed? then 0 else 1 + Readable(bs[1..])
  }

  /** A response for a partition the consumer does not have, or with a batch that does not
      decode, ends the loop in a panic. */
  predicate Bad(known: set<nat>, r: Response) { r.partition !in known || Readable(r.records) < |r.records| }

  ghost predicate AllDecode(bs: seq<RecordBatch>) { forall j :: 0 <= j < |bs| ==> Decoded(bs[j]).Parsed? }

  lemma BadIff(known: set<nat>, responses: seq<Response>)
    ensures forall i :: 0 <= i < |responses| ==>
              (!Bad(known, responses[i]) <==> responses[i].partition in known && AllDecode(responses[i].records))
  {
    hide Decoded;
    forall i | 0 <= i < |responses|
      ensures !Bad(known, responses[i]) <==> responses[i].partition in known && AllDecode(responses[i].records)
    {
      var n := Readable(responses[i].records);
    }
  }

  /** What is handed out up to the first such response, and the batch that breaks it. */
  function HandedOutUntil(known: set<nat>, responses: seq<Response>): seq<ConsumerRecord> {
    if responses == [] || responses[0].partition !in known then []
    else
      var r := responses[0];
      Tagged(r.partition, AllRecords(r.records[..Readable(r.records)]))
      + if Bad(known, r) then [] else HandedOutUntil(known, responses[1..])
  }

  class ConsumerActor {
    var partitions: map<nat, PartitionState>
    var delivered: seq<ConsumerRecord>

    /** Starts at an offset of one partition, or at zero of all of them. */
    constructor (partition: Option<nat>, baseOffset: nat, known: seq<nat>)
      ensures delivered == []
      ensures partition.Some? ==> partitions == map[partition.value := PartitionState(0, baseOffset)]
      ensures partition.None? ==> partitions == map p | p in known :: PartitionState(0, 0)
    {
      delivered := [];
      if partition.Some? {
        partitions := map[partition.value := PartitionState(0, baseOffset)];
      } else {
        var started: map<nat, PartitionState> := map[];
        var i := 0;
        while i < |known|
          invariant 0 <= i <= |known|
          invariant started == map p | p in known[..i] :: PartitionState(0, 0)
        {
          started := started[known[i] := PartitionState(0, 0)];
          i := i + 1;
        }
        assert known[..i] == known;
        partitions := started;
      }
    }

    /** What the loop asks for: every partition once, at its commit offset, in some order. */
    method Requests() returns (requests: seq<Request>)
      ensures AsksEachOnce(partitions, requests)
    {
      requests := [];
      var left := partitions.Keys;
      while left != {}
        invariant left <= partitions.Keys
        invariant forall i :: 0 <= i < |requests| ==>
                    && requests[i].partition in partitions.Keys - left
                    && requests[i].offset == partitions[requests[i].partition].commitOffset
        invariant forall i, j :: 0 <= i < j < |requests| ==> requests[i].partition != requests[j].partition
        invariant forall p :: p in partitions && p !in left ==> exists i :: 0 <= i < |requests| && requests[i].partition == p
        decreases |left|
      {
        var p :| p in left;
        ghost var before := requests;
        requests := requests + [Request(p, partitions[p].commitOffset)];
        left := left - {p};
        forall q | q in partitions && q !in left ensures exists i :: 0 <= i < |requests| && requests[i].partition == q {
          if q == p {
            assert requests[|before|].partition == q;
          } else {
            var i :| 0 <= i < |before| && before[i].partition == q;
            assert requests[i].partition == q;
          }
        }
      }
    }

    /** Handles the answers to one round of requests: hands out the records of every batch in
        order and moves the commit offsets. Tells how many records came, and whether it got
        through; if not, everything before the fault was handed out and nothing after it. */
    method HandleResponse(responses: seq<Response>) returns (total: nat, ok: bool)
      modifies this
      ensures ok <==> forall i :: 0 <= i < |responses| ==>
                responses[i].partition in old(partitions) && AllDecode(responses[i].records)
      ensures delivered == old(delivered) + HandedOutUntil(old(partitions).Keys, responses)
      ensures ok ==>
                && (forall i :: 0 <= i < |responses| ==> responses[i].partition in old(partitions))
                && partitions == Handled(old(partitions), responses)
                && delivered == old(delivered) + HandedOut(responses) && total == |HandedOut(responses)|
    {
      hide Handled, HandedOut, HandedOutUntil, AllRecords, Tagged, Decoded, Readable, AllIn, Bad, AllDecode;
      total, ok := 0, true;
      ghost var known := partitions.Keys;
      BadIff(known, responses);
      var i := 0;
      assert responses[0..] == responses;
      NoResponses();
      KnownPartitions(known, responses);
      while i < |responses|
        invariant 0 <= i <= |responses| && partitions.Keys == known
        invariant forall k :: 0 <= k < i ==> !Bad(known, responses[k])
        invariant delivered + HandedOutUntil(known, responses[i..]) == old(delivered) + HandedOutUntil(known, responses)
        invariant AllIn(known, responses[i..]) ==>
                    && AllIn(known, responses)
                    && Handled(partitions, responses[i..]) == Handled(old(partitions), responses)
                    && delivered + HandedOut(responses[i..]) == old(delivered) + HandedOut(responses)
                    && total + |HandedOut(responses[i..])| == |HandedOut(responses)|
      {
        assert responses[i..][1..] == responses[i + 1..];
        OneResponse(partitions, responses[i..]);
        var r := responses[i];
        if r.partition !in partitions { return total, false; }
        var state := partitions[r.partition];
        if r.highWatermark > state.highWatermark { state := state.(highWatermark := r.highWatermark); }
        ghost var before, tagged := delivered, Tagged(r.partition, AllRecords(r.records));
        ghost var until, all := HandedOutUntil(known, responses[i + 1..]), HandedOut(responses[i + 1..]);
        var received, whole := HandOut(r);
        if !whole { return total, false; }
        assert delivered == before + tagged;
        assert before + (tagged + until) == delivered + until && before + (tagged + all) == delivered + all;
        state := state.(commitOffset := state.commitOffset + received);
        partitions := partitions[r.partition := state];
        total := total + received;
        i := i + 1;
      }
      assert responses[i..] == [];
    }

    /** Sends out the records of one partition's batches, one batch after the other, up to one
        that does not decode. */
    method HandOut(r: Response) returns (received: nat, whole: bool)
      modifies this`delivered
      ensures whole <==> Readable(r.records) == |r.records|
      ensures delivered == old(delivered) + Tagged(r.partition, AllRecords(r.records[..Readable(r.records)]))
      ensures whole ==> received == |AllRecords(r.records)| && r.records[..Readable(r.records)] == r.records
    {
      hide Decoded, AllRecords, Tagged;
      received, whole := 0, true;
      var j := 0;
      NoBatches(r.partition);
      assert r.records[..0] == [];
      while j < |r.records|
        invariant 0 <= j <= |r.records| && received == |AllRecords(r.records[..j])|
        invariant forall k :: 0 <= k < j ==> Decoded(r.records[k]).Parsed?
        invariant delivered == old(delivered) + Tagged(r.partition, AllRecords(r.records[..j]))
      {
        var records := Decoded(r.records[j]);
        if !records.Parsed? { return received, false; }
        OneBatch(r.partition, r.records, j);
        received := received + |records.value|;
        delivered := delivered + Tagged(r.partition, records.value);
        j := j + 1;
      }
      assert r.records[..j] == r.records;
    }
  }

  ghost predicate AllIn(known: set<nat>, responses: seq<Response>) {
    forall i :: 0 <= i < |responses| ==> responses[i].partition in known
  }

  lemma NoResponses()
    ensures HandedOut([]) == [] && forall partitions :: Handled(partitions, []) == partitions
    ensures forall known :: HandedOutUntil(known, []) == [] && AllIn(known, [])
  {
  }

  lemma KnownPartitions(known: set<nat>, responses: seq<Response>)
    ensures AllIn(known, responses) <==> forall i :: 0 <= i < |responses| ==> responses[i].partition in known
  {
  }

  lemma OneResponse(partitions: map<nat, PartitionState>, responses: seq<Response>)
    requires responses != []
    ensures var r, known := responses[0], partitions.Keys;
            && HandedOutUntil(known, responses) ==
               (if r.partition !in known then []
                else Tagged(r.partition, AllRecords(r.records[..Readable(r.records)]))
                     + if Bad(known, r) then [] else HandedOutUntil(known, responses[1..]))
            && HandedOut(responses) == Tagged(r.partition, AllRecords(r.records)) + HandedOut(responses[1..])
            && |Tagged(r.partition, AllRecords(r.records))| == |AllRecords(r.records)|
            && (Bad(known, r) <==> r.partition !in known || Readable(r.records) < |r.records|)
            && (r.partition in known && AllIn(known, responses[1..]) ==> AllIn(known, responses))
            && (AllIn(known, responses) ==>
                  Handled(partitions, responses) ==
                  Handled(partitions[r.partition := Advanced(partitions[r.partition], r)], responses[1..]))
  {
    hide AllRecords, Readable, HandedOut;
    assert responses == [responses[0]] + responses[1..];
    OneHandedOut(responses);
  }

  lemma OneHandedOut(responses: seq<Response>)
    requires responses != []
    ensures HandedOut(responses) == Tagged(responses[0].partition, AllRecords(responses[0].records)) + HandedOut(responses[1..])
  {
  }

  /** A bad response, wherever it stands: everything before it is handed out whole, of it only the
      batches before the broken one, and nothing after. */
  lemma {:induction false} HandedOutUpToFault(known: set<nat>, good: seq<Response>, bad: Response, rest: seq<Response>)
    requires (forall i :: 0 <= i < |good| ==> !Bad(known, good[i])) && Bad(known, bad)
    ensures HandedOutUntil(known, good + ([bad] + rest)) ==
            HandedOut(good)
            + if bad.partition !in known then []
              else Tagged(bad.partition, AllRecords(bad.records[..Readable(bad.records)]))
    decreases |good|
  {
    hide AllRecords, Readable, Tagged, Decoded;
    if good == [] {
      assert good + ([bad] + rest) == [bad] + rest;
    } else {
      assert (good + ([bad] + rest))[1..] == good[1..] + ([bad] + rest);
      HandedOutUpToFault(known, good[1..], bad, rest);
      assert good[0].records[..Readable(good[0].records)] == good[0].records;
    }
  }

  /** The watermark kept for a partition is the highest of what it was and what the responses
      for that partition said. */
  lemma {:induction false} WatermarkIsHighest(partitions: map<nat, PartitionState>, responses: seq<Response>, p: nat)
    requires (forall i :: 0 <= i < |responses| ==> responses[i].partition in partitions) && p in partitions
    ensures p in Handled(partitions, responses)
    ensures var now := Handled(partitions, responses)[p].highWatermark;
            && now >= partitions[p].highWatermark
            && (forall i :: 0 <= i < |responses| && responses[i].partition == p ==> now >= responses[i].highWatermark)
            && (now == partitions[p].highWatermark
                || exists i :: 0 <= i < |responses| && responses[i].partition == p && now == responses[i].highWatermark)
    decreases |responses|
  {
    hide AllRecords;
    if responses != [] {
      var r, rest := responses[0], responses[1..];
      var next := partitions[r.partition := Advanced(partitions[r.partition], r)];
      WatermarkIsHighest(next, rest, p);
      assert forall i :: 1 <= i < |responses| ==> responses[i] == rest[i - 1];
      var now := Handled(partitions, responses)[p].highWatermark;
      if now != next[p].highWatermark {
        var i :| 0 <= i < |rest| && rest[i].partition == p && now == rest[i].highWatermark;
        assert responses[i + 1].partition == p && now == responses[i + 1].highWatermark;
      } else if now != partitions[p].highWatermark {
        assert responses[0].partition == p && now == responses[0].highWatermark;
      }
    }
  }

  lemma NoBatches(p: nat)
    ensures AllRecords([]) == [] && Tagged(p, []) == []
  {
  }

  lemma OneBatch(p: nat, bs: seq<RecordBatch>, j: nat)
    requires j < |bs| && Decoded(bs[j]).Parsed?
    ensures AllRecords(bs[..j + 1]) == AllRecords(bs[..j]) + Decoded(bs[j]).value
    ensures Tagged(p, AllRecords(bs[..j + 1])) == Tagged(p, AllRecords(bs[..j])) + Tagged(p, Decoded(bs[j]).value)
  {
    hide Decoded;
    assert bs[..j + 1][..j] == bs[..j];
  }

  /** The requests name different partitions, each at its commit offset. */
  ghost predicate AsksOnce(partitions: map<nat, PartitionState>, requests: seq<Request>) {
    && (forall i :: 0 <= i < |requests| ==>
          requests[i].partition in partitions && requests[i].offset == partitions[requests[i].partition].commitOffset)
    && (forall i, j :: 0 <= i < j < |requests| ==> requests[i].partition != requests[j].partition)
  }

  /** They name every partition. */
  ghost predicate AsksEachOnce(partitions: map<nat, PartitionState>, requests: seq<Request>) {
    && AsksOnce(partitions, requests)
    && forall p :: p in partitions ==> exists i :: 0 <= i < |requests| && requests[i].partition == p
  }

  // ---- what the broker answers ---------------------------------------------

  /** A partition's log at some moment. */
  datatype Log = Log(held: seq<Held>, parts: seq<seq<seq<Record>>>)

  ghost predicate IsLog(log: Log) {
    Linked(log.held, |All(log.parts)|) && CarriesParts(log.held, log.parts) && |All(log.parts)| < 0x1_0000_0000_0000_0000
  }

  /** The answer to a request, from the log as it is then; the watermark can be anything. */
  ghost predicate Answers(response: Response, request: Request, log: Log) {
    && response.partition == request.partition && request.offset < 0x1_0000_0000_0000_0000
    && response.records == FetchAt(log.held, request.offset, MaxPartitionBytes)
  }

  lemma {:induction false} RecordsOfRun(bs: seq<RecordBatch>, run: seq<seq<Record>>)
    requires DecodesTo(bs, run)
    ensures AllRecords(bs) == Flat(run)
    ensures forall j :: 0 <= j < |bs| ==> Decoded(bs[j]).Parsed?
    decreases |bs|
  {
    hide Decoded, Carries;
    if bs != [] {
      var n := |bs| - 1;
      assert DecodesTo(bs[..n], run[..n]);
      RecordsOfRun(bs[..n], run[..n]);
    }
  }

  /** An answer is the next records of the log from the offset asked for: at least one of them
      while there are any, and none otherwise. */
  lemma AnswerIsNextRecords(response: Response, request: Request, log: Log)
    requires IsLog(log) && Answers(response, request, log)
    ensures forall j :: 0 <= j < |response.records| ==> Decoded(response.records[j]).Parsed?
    ensures var all, received := All(log.parts), AllRecords(response.records);
            if request.offset >= |all| then received == []
            else received != [] && request.offset + |received| <= |all|
                 && received == all[request.offset..request.offset + |received|]
  {
    hide Linked, CarriesParts, FetchAt, Flat, Decoded, Contiguous, DecodesTo;
    var run := FetchDeliversRun(log.held, log.parts, |All(log.parts)|, request.offset, MaxPartitionBytes);
    if request.offset < |All(log.parts)| {
      RecordsOfRun(response.records, run);
    }
  }

  // ---- exactly once, in order ----------------------------------------------

  /** The records handed out for one partition. */
  function For(p: nat, delivered: seq<ConsumerRecord>): seq<Record> {
    if delivered == [] then []
    else For(p, delivered[..|delivered| - 1])
         + if delivered[|delivered| - 1].partition == p then [delivered[|delivered| - 1].inner] else []
  }

  lemma {:induction false} ForConcat(p: nat, a: seq<ConsumerRecord>, b: seq<ConsumerRecord>)
    ensures For(p, a + b) == For(p, a) + For(p, b)
    decreases |b|
  {
    if b == [] {
      assert a + b == a;
    } else {
      assert (a + b)[..|a + b| - 1] == a + b[..|b| - 1];
      ForConcat(p, a, b[..|b| - 1]);
    }
  }

  lemma {:induction false} ForTagged(p: nat, q: nat, records: seq<Record>)
    ensures For(p, Tagged(q, records)) == if p == q then records else []
    decreases |records|
  {
    if records != [] {
      var n := |records| - 1;
      assert Tagged(q, records)[..n] == Tagged(q, records[..n]);
      ForTagged(p, q, records[..n]);
      assert records == records[..n] + [records[n]];
    }
  }

  /** What has been handed out is exactly the log from the start to the commit offset. A start
      beyond the log stays put until the log gets there. */
  ghost predicate ExactlyOnce(log: seq<Record>, start: nat, commit: nat, handedOut: seq<Record>) {
    if start <= commit <= |log| then handedOut == log[start..commit]
    else commit == start && handedOut == []
  }

  ghost predicate AllExactlyOnce(logs: map<nat, Log>, starts: map<nat, nat>, partitions: map<nat, PartitionState>,
                                 delivered: seq<ConsumerRecord>) {
    && partitions.Keys == starts.Keys && starts.Keys <= logs.Keys
    && forall p :: p in partitions ==> ExactlyOnce(All(logs[p].parts), starts[p], partitions[p].commitOffset, For(p, delivered))
  }

  /** Logs only grow. */
  ghost predicate Grew(before: map<nat, Log>, after: map<nat, Log>) {
    before.Keys <= after.Keys && forall p :: p in before ==> All(before[p].parts) <= All(after[p].parts)
  }

  lemma GrowthKeeps(before: map<nat, Log>, after: map<nat, Log>, starts: map<nat, nat>,
                    partitions: map<nat, PartitionState>, delivered: seq<ConsumerRecord>)
    requires AllExactlyOnce(before, starts, partitions, delivered) && Grew(before, after)
    ensures AllExactlyOnce(after, starts, partitions, delivered)
  {
    hide All, For;
    forall p | p in partitions ensures ExactlyOnce(All(after[p].parts), starts[p], partitions[p].commitOffset, For(p, delivered)) {
      var earlier, later := All(before[p].parts), All(after[p].parts);
      assert later[..|earlier|] == earlier;
    }
  }

  /** The answers to distinct requests at the commit offsets, each from its partition's log. */
  ghost predicate AllAnswer(responses: seq<Response>, requests: seq<Request>, logs: map<nat, Log>) {
    && |responses| == |requests|
    && forall i :: 0 <= i < |responses| ==>
         requests[i].partition in logs && IsLog(logs[requests[i].partition]) && Answers(responses[i], requests[i], logs[requests[i].partition])
  }

  /** Handling a round of answers keeps every partition exactly once and in order. */
  lemma {:induction false} RoundKeeps(logs: map<nat, Log>, starts: map<nat, nat>, partitions: map<nat, PartitionState>,
                                      delivered: seq<ConsumerRecord>, requests: seq<Request>, responses: seq<Response>)
    requires AllExactlyOnce(logs, starts, partitions, delivered)
    requires AsksOnce(partitions, requests) && AllAnswer(responses, requests, logs)
    ensures forall i :: 0 <= i < |responses| ==> responses[i].partition in partitions
    ensures AllExactlyOnce(logs, starts, Handled(partitions, responses), delivered + HandedOut(responses))
    decreases |responses|
  {
    hide IsLog, AllRecords, All, For, Tagged, ExactlyOnce, Answers;
    AnswerNames(responses, requests, logs);
    if responses == [] {
      assert delivered + HandedOut(responses) == delivered;
    } else {
      var r := responses[0];
      var records := AllRecords(r.records);
      var now := partitions[r.partition := Advanced(partitions[r.partition], r)];
      var out := delivered + Tagged(r.partition, records);
      OneAnswerKeeps(logs, starts, partitions, delivered, requests[0], r);
      RoundKeeps(logs, starts, now, out, requests[1..], responses[1..]);
      assert delivered + HandedOut(responses) == out + HandedOut(responses[1..]);
    }
  }

  lemma AnswerNames(responses: seq<Response>, requests: seq<Request>, logs: map<nat, Log>)
    requires AllAnswer(responses, requests, logs)
    ensures forall i :: 0 <= i < |responses| ==> responses[i].partition == requests[i].partition
  {
    hide IsLog;
  }

  lemma OneAnswerKeeps(logs: map<nat, Log>, starts: map<nat, nat>, partitions: map<nat, PartitionState>,
                       delivered: seq<ConsumerRecord>, request: Request, r: Response)
    requires AllExactlyOnce(logs, starts, partitions, delivered)
    requires request.partition in partitions && request.offset == partitions[request.partition].commitOffset
    requires request.partition in logs && IsLog(logs[request.partition]) && Answers(r, request, logs[request.partition])
    ensures var now := partitions[r.partition := Advanced(partitions[r.partition], r)];
            AllExactlyOnce(logs, starts, now, delivered + Tagged(r.partition, AllRecords(r.records)))
  {
    hide IsLog, AllRecords, All, For, Tagged;
    var records := AllRecords(r.records);
    AnswerIsNextRecords(r, request, logs[r.partition]);
    var now := partitions[r.partition := Advanced(partitions[r.partition], r)];
    forall p | p in now
      ensures ExactlyOnce(All(logs[p].parts), starts[p], now[p].commitOffset, For(p, delivered + Tagged(r.partition, records)))
    {
      ForConcat(p, delivered, Tagged(r.partition, records));
      ForTagged(p, r.partition, records);
      if p == r.partition {
        NextRecordsKeep(All(logs[p].parts), starts[p], partitions[p].commitOffset, For(p, delivered), records);
      }
    }
  }

  lemma NextRecordsKeep(log: seq<Record>, start: nat, commit: nat, handedOut: seq<Record>, received: seq<Record>)
    requires ExactlyOnce(log, start, commit, handedOut)
    requires if commit >= |log| then received == [] else commit + |received| <= |log| && received == log[commit..commit + |received|]
    ensures ExactlyOnce(log, start, commit + |received|, handedOut + received)
  {
  }

  /** One turn of the loop: a failed exchange, or the answers from logs that have grown since. */
  datatype Turn = Failed | Answered(logs: map<nat, Log>, requests: seq<Request>, responses: seq<Response>)

  /** A run of the loop from some state, as the method steps through it. */
  ghost predicate IsRun(logs: map<nat, Log>, partitions: map<nat, PartitionState>, turns: seq<Turn>)
    decreases |turns|
  {
    turns == [] ||
    match turns[0]
    case Failed => IsRun(logs, partitions, turns[1..])
    case Answered(after, requests, responses) =>
      && Grew(logs, after) && AsksEachOnce(partitions, requests) && AllAnswer(responses, requests, after)
      && (forall i :: 0 <= i < |responses| ==> responses[i].partition in partitions)
      && IsRun(after, Handled(partitions, responses), turns[1..])
  }

  ghost function Delivered(turns: seq<Turn>): seq<ConsumerRecord> {
    if turns == [] then [] else (if turns[0].Answered? then HandedOut(turns[0].responses) else []) + Delivered(turns[1..])
  }

  ghost function Final(logs: map<nat, Log>, partitions: map<nat, PartitionState>, turns: seq<Turn>): (map<nat, Log>,
                       map<nat, PartitionState>)
    requires IsRun(logs, partitions, turns)
    decreases |turns|
  {
    if turns == [] then (logs, partitions)
    else
      match turns[0]
      case Failed => Final(logs, partitions, turns[1..])
      case Answered(after, requests, responses) => Final(after, Handled(partitions, responses), turns[1..])
  }

  /** Over every run, with failures, appends in between and any split into batches and segments,
      each partition's records are handed out exactly once, in order, from its start offset. */
  lemma {:induction false} RunDeliversExactlyOnce(logs: map<nat, Log>, starts: map<nat, nat>,
          partitions: map<nat, PartitionState>,
                                                  delivered: seq<ConsumerRecord>, turns: seq<Turn>)
    requires AllExactlyOnce(logs, starts, partitions, delivered) && IsRun(logs, partitions, turns)
    ensures var (logs', partitions') := Final(logs, partitions, turns);
            AllExactlyOnce(logs', starts, partitions', delivered + Delivered(turns))
    decreases |turns|
  {
    hide AllExactlyOnce, Grew, AllAnswer, Handled, HandedOut;
    if turns == [] {
      assert delivered + Delivered(turns) == delivered;
    } else {
      match turns[0]
      case Failed =>
        RunDeliversExactlyOnce(logs, starts, partitions, delivered, turns[1..]);
        assert delivered + Delivered(turns) == delivered + Delivered(turns[1..]);
      case Answered(after, requests, responses) =>
        GrowthKeeps(logs, after, starts, partitions, delivered);
        RoundKeeps(after, starts, partitions, delivered, requests, responses);
        var out := delivered + HandedOut(responses);
        RunDeliversExactlyOnce(after, starts, Handled(partitions, responses), out, turns[1..]);
        assert delivered + Delivered(turns) == out + Delivered(turns[1..]);
    }
  }

  /** A consumer that has handed out nothing starts right. */
  lemma StartsExactlyOnce(logs: map<nat, Log>, partitions: map<nat, PartitionState>)
    requires partitions.Keys <= logs.Keys
    ensures AllExactlyOnce(logs, map p | p in partitions :: partitions[p].commitOffset, partitions, [])
  {
  }

  /** So over every run of a fresh consumer, whatever offsets it starts from, each partition's
      records from that offset up to its commit offset are what it was handed, once and in order. */
  lemma FreshRunDeliversExactlyOnce(logs: map<nat, Log>, partitions: map<nat, PartitionState>, turns: seq<Turn>, p: nat)
    requires partitions.Keys <= logs.Keys && IsRun(logs, partitions, turns) && p in partitions
    ensures var (logs', partitions') := Final(logs, partitions, turns);
            p in logs' && p in partitions'
            && ExactlyOnce(All(logs'[p].parts), partitions[p].commitOffset, partitions'[p].commitOffset, For(p, Delivered(turns)))
  {
    hide Final, IsRun, Delivered, ExactlyOnce, All, For;
    var starts := map q | q in partitions :: partitions[q].commitOffset;
    StartsExactlyOnce(logs, partitions);
    RunDeliversExactlyOnce(logs, starts, partitions, [], turns);
    assert [] + Delivered(turns) == Delivered(turns);
  }

  /** Every answered round moves each partition that is behind its log, and no other, so a
      consumer of a log that stands still reaches its end. */
  lemma RoundAdvances(logs: map<nat, Log>, partitions: map<nat, PartitionState>, requests: seq<Request>,
                      responses: seq<Response>)
    requires AsksEachOnce(partitions, requests) && AllAnswer(responses, requests, logs)
    requires forall i :: 0 <= i < |responses| ==> responses[i].partition in partitions
    ensures forall p :: p in partitions ==>
              && p in logs && p in Handled(partitions, responses)
              && var end, was, now := |All(logs[p].parts)|, partitions[p].commitOffset, Handled(partitions, responses)[p].commitOffset;
                 if was < end then was < now <= end else now == was
  {
    hide Handled, IsLog, All, AllRecords, Answers;
    AnswerNames(responses, requests, logs);
    forall p | p in partitions
      ensures
        && p in logs && p in Handled(partitions, responses)
        && var end, was, now := |All(logs[p].parts)|, partitions[p].commitOffset, Handled(partitions, responses)[p].commitOffset;
           if was < end then was < now <= end else now == was
    {
      var i :| 0 <= i < |requests| && requests[i].partition == p;
      HandledOnce(partitions, responses, i);
      AnswerIsNextRecords(responses[i], requests[i], logs[p]);
    }
  }

  lemma {:induction false} HandledOnce(partitions: map<nat, PartitionState>, responses: seq<Response>, i: nat)
    requires i < |responses| && forall j :: 0 <= j < |responses| ==> responses[j].partition in partitions
    requires forall j, k :: 0 <= j < k < |responses| ==> responses[j].partition != responses[k].partition
    ensures var p := responses[i].partition;
            p in Handled(partitions, responses) && Handled(partitions, responses)[p] == Advanced(partitions[p], responses[i])
    decreases |responses|
  {
    hide AllRecords;
    var r := responses[0];
    var now := partitions[r.partition := Advanced(partitions[r.partition], r)];
    if i == 0 {
      HandledNot(now, responses[1..], r.partition);
    } else {
      HandledOnce(now, responses[1..], i - 1);
    }
  }

  lemma {:induction false} HandledNot(partitions: map<nat, PartitionState>, responses: seq<Response>, p: nat)
    requires p in partitions && forall j :: 0 <= j < |responses| ==> responses[j].partition in partitions && responses[j].partition != p
    ensures p in Handled(partitions, responses) && Handled(partitions, responses)[p] == partitions[p]
    decreases |responses|
  {
    hide AllRecords;
    if responses != [] {
      var r := responses[0];
      HandledNot(partitions[r.partition := Advanced(partitions[r.partition], r)], responses[1..], p);
    }
  }
}
