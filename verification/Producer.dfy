/** The producer's batcher: buffering asynchronous payloads by topic and partition, and
    publishing the buffer when it is large enough, when the timer fires, or on shutdown.
    A payload it cannot place and a publication that fails end it in a panic. */
module Producers {
  import opened Records
  import opened Options

  type Topic = seq<char>

  datatype Key = NoKey | Key(bytes: seq<char>)

  /** A payload, with the record it becomes. */
  datatype Payload = Payload(topic: Topic, key: Key, record: Record)

  type Batch = map<Topic, map<nat, seq<Record>>>

  /** What goes to the broker: one payload at once, or the whole buffer. */
  datatype Publication = Immediate(topic: Topic, partition: nat, record: Record) | Buffered(batch: Batch)

  /** What the loop waits for. For a payload without a key, `choice` is the random draw; `sent`
      is whether the broker takes what this turn publishes, if it publishes anything. `Closed`
      is a channel all senders of which are gone. */
  datatype Event =
    | Sync(payload: Payload, choice: nat, sent: bool)
    | Async(payload: Payload, choice: nat, sent: bool)
    | TimerFired(sent: bool)
    | Shutdown(sent: bool)
    | Closed

  datatype Outcome = Running | Stopped | Panicked

  // ---- the buffer ----------------------------------------------------------

  /** The records buffered for a partition, in order. */
  function In(batch: Batch, topic: Topic, partition: nat): seq<Record> {
    if topic in batch && partition in batch[topic] then batch[topic][partition] else []
  }

  function Pushed(batch: Batch, topic: Topic, partition: nat, record: Record): Batch {
    var partitions := if topic in batch then batch[topic] else map[];
    var records := if partition in partitions then partitions[partition] else [];
    batch[topic := partitions[partition := records + [record]]]
  }

  lemma PushedIn(batch: Batch, topic: Topic, partition: nat, record: Record, t: Topic, p: nat)
    ensures In(Pushed(batch, topic, partition, record), t, p) ==
            In(batch, t, p) + if t == topic && p == partition then [record] else []
    ensures Pushed(batch, topic, partition, record) != map[]
  {
    assert topic in Pushed(batch, topic, partition, record);
  }

  // ---- conservation --------------------------------------------------------

  /** An asynchronous payload and the partition it was given. */
  datatype Accepted = Accepted(topic: Topic, key: Key, partition: nat, record: Record)

  /** The accepted records of a partition, in order. */
  function For(accepted: seq<Accepted>, t: Topic, p: nat): seq<Record> {
    if accepted == [] then []
    else
      var a := accepted[|accepted| - 1];
      For(accepted[..|accepted| - 1], t, p) + if a.topic == t && a.partition == p then [a.record] else []
  }

  /** The records of a partition in the published buffers, in order. */
  function Sent(published: seq<Publication>, t: Topic, p: nat): seq<Record> {
    if published == [] then []
    else
      var last := published[|published| - 1];
      Sent(published[..|published| - 1], t, p) + if last.Buffered? then In(last.batch, t, p) else []
  }

  lemma SentOneMore(published: seq<Publication>, last: Publication, t: Topic, p: nat)
    ensures Sent(published + [last], t, p) == Sent(published, t, p) + if last.Buffered? then In(last.batch, t, p) else []
  {
    assert (published + [last])[..|published|] == published;
  }

  lemma ForOneMore(accepted: seq<Accepted>, a: Accepted, t: Topic, p: nat)
    ensures For(accepted + [a], t, p) == For(accepted, t, p) + if a.topic == t && a.partition == p then [a.record] else []
  {
    assert (accepted + [a])[..|accepted|] == accepted;
  }

  lemma SmallModulo(h: nat)
    requires h < 0x1_0000
    ensures h % 0x1_0000 == h
  {
  }

  /** For every partition: what was published from the buffer, then what is still in it, is what
      was accepted, each record once and in order. */
  ghost predicate Conserved(accepted: seq<Accepted>, published: seq<Publication>, batch: Batch) {
    forall t, p: nat :: For(accepted, t, p) == Sent(published, t, p) + In(batch, t, p)
  }

  lemma PushConserves(accepted: seq<Accepted>, published: seq<Publication>, batch: Batch, topic: Topic, key: Key,
                      partition: nat, record: Record)
    requires Conserved(accepted, published, batch)
    ensures Conserved(accepted + [Accepted(topic, key, partition, record)], published, Pushed(batch, topic, partition, record))
  {
    hide For, Sent, In, Pushed;
    var more, pushed := accepted + [Accepted(topic, key, partition, record)], Pushed(batch, topic, partition, record);
    forall t, p: nat ensures For(more, t, p) == Sent(published, t, p) + In(pushed, t, p) {
      ForOneMore(accepted, Accepted(topic, key, partition, record), t, p);
      PushedIn(batch, topic, partition, record, t, p);
    }
  }

  lemma PublishConserves(accepted: seq<Accepted>, published: seq<Publication>, batch: Batch)
    requires Conserved(accepted, published, batch)
    ensures Conserved(accepted, published + [Buffered(batch)], map[])
  {
    hide For, Sent;
    forall t, p: nat ensures For(accepted, t, p) == Sent(published + [Buffered(batch)], t, p) + In(map[], t, p) {
      SentOneMore(published, Buffered(batch), t, p);
    }
  }

  lemma ImmediateConserves(accepted: seq<Accepted>, published: seq<Publication>, batch: Batch, topic: Topic,
                           partition: nat, record: Record)
    requires Conserved(accepted, published, batch)
    ensures Conserved(accepted, published + [Immediate(topic, partition, record)], batch)
  {
    hide For, Sent, In;
    var more := published + [Immediate(topic, partition, record)];
    forall t, p: nat ensures For(accepted, t, p) == Sent(more, t, p) + In(batch, t, p) {
      SentOneMore(published, Immediate(topic, partition, record), t, p);
    }
  }

  lemma EmptyBufferSentAll(accepted: seq<Accepted>, published: seq<Publication>)
    requires Conserved(accepted, published, map[])
    ensures forall t, p: nat :: For(accepted, t, p) == Sent(published, t, p)
  {
    hide For, Sent;
    forall t, p: nat ensures For(accepted, t, p) == Sent(published, t, p) {
      assert In(map[], t, p) == [];
    }
  }

  /** What was published from the buffer was accepted, each record once and in order. */
  ghost predicate NothingMadeUp(accepted: seq<Accepted>, published: seq<Publication>) {
    forall t, p: nat :: Sent(published, t, p) <= For(accepted, t, p)
  }

  lemma ConservedMadeNothingUp(accepted: seq<Accepted>, published: seq<Publication>, batch: Batch)
    requires Conserved(accepted, published, batch)
    ensures NothingMadeUp(accepted, published)
  {
    hide For, Sent, In;
    forall t, p: nat ensures Sent(published, t, p) <= For(accepted, t, p) {
      assert For(accepted, t, p) == Sent(published, t, p) + In(batch, t, p);
    }
  }

  // ---- keys ----------------------------------------------------------------

  /** The accepted records of one topic and key, in order, wherever they were placed. */
  function WithKey(accepted: seq<Accepted>, t: Topic, key: Key): seq<Record> {
    if accepted == [] then []
    else
      var a := accepted[|accepted| - 1];
      WithKey(accepted[..|accepted| - 1], t, key) + if a.topic == t && a.key == key then [a.record] else []
  }

  /** Those of them placed in one partition. */
  function WithKeyIn(accepted: seq<Accepted>, t: Topic, key: Key, p: nat): seq<Record> {
    if accepted == [] then []
    else
      var a := accepted[|accepted| - 1];
      WithKeyIn(accepted[..|accepted| - 1], t, key, p)
      + if a.topic == t && a.key == key && a.partition == p then [a.record] else []
  }

  lemma NoneWithKey(t: Topic, key: Key, p: nat)
    ensures WithKey([], t, key) == [] && WithKeyIn([], t, key, p) == []
  {
  }

  lemma OneMoreWithKey(accepted: seq<Accepted>, a: Accepted, t: Topic, key: Key, p: nat)
    ensures WithKey(accepted + [a], t, key) ==
            WithKey(accepted, t, key) + if a.topic == t && a.key == key then [a.record] else []
    ensures WithKeyIn(accepted + [a], t, key, p) ==
            WithKeyIn(accepted, t, key, p) + if a.topic == t && a.key == key && a.partition == p then [a.record] else []
  {
    assert (accepted + [a])[..|accepted|] == accepted;
  }

  /** The records of the asynchronous payloads with a topic and key, in the order they came. */
  function Came(events: seq<Event>, t: Topic, key: Key): seq<Record> {
    if events == [] then []
    else
      var e := events[|events| - 1];
      Came(events[..|events| - 1], t, key)
      + if e.Async? && e.payload.topic == t && e.payload.key == key then [e.payload.record] else []
  }

  // ---- the actor -----------------------------------------------------------

  class ProducerActor {
    /** Number of partitions of each known topic. */
    const partitions: map<Topic, nat>
    const maxBytes: nat
    /** The hash of a key, and the size a produce frame of a buffer announces: any functions. */
    const hash: seq<char> -> nat
    const frameSize: Batch -> nat

    var batch: Batch
    var timerActive: bool
    var published: seq<Publication>
    ghost var accepted: seq<Accepted>

    constructor (partitions: map<Topic, nat>, maxBytes: nat, hash: seq<char> -> nat, frameSize: Batch -> nat)
      ensures Valid() && published == [] && accepted == [] && batch == map[]
      ensures this.partitions == partitions && this.maxBytes == maxBytes && this.hash == hash && this.frameSize == frameSize
    {
      this.partitions, this.maxBytes, this.hash, this.frameSize := partitions, maxBytes, hash, frameSize;
      batch, timerActive, published, accepted := map[], false, [], [];
    }

    /** The timer runs exactly while something is buffered that is not yet large enough to go;
        nothing larger stays; and every accepted record is published or buffered, once. */
    ghost predicate Valid()
      reads this
    {
      && (timerActive <==> batch != map[] && frameSize(batch) < maxBytes)
      && (batch != map[] ==> frameSize(batch) < maxBytes)
      && Conserved(accepted, published, batch)
    }

    /** A payload can be placed when its topic is known and has partitions. */
    predicate Placeable(payload: Payload) { payload.topic in partitions && partitions[payload.topic] > 0 }

    /** By the hash of the key, whatever the draw, or else by the draw; cut to 16 bits. */
    method CalculateIndex(payload: Payload, choice: nat) returns (index: Option<nat>)
      ensures index == IndexOf(payload, choice)
      ensures index.Some? && payload.key.Key? ==>
                index.value == hash(payload.key.bytes) % partitions[payload.topic] % 0x1_0000
      ensures index.Some? && payload.key.Key? && partitions[payload.topic] <= 0x1_0000 ==>
                index.value == hash(payload.key.bytes) % partitions[payload.topic]
      ensures index.Some? && payload.key.NoKey? ==> index.value == choice % partitions[payload.topic] % 0x1_0000
      ensures index.Some? <==> Placeable(payload)
      ensures index.Some? ==> index.value < partitions[payload.topic] && index.value < 0x1_0000
    {
      if payload.topic !in partitions || partitions[payload.topic] == 0 { return None; }
      match payload.key
      case Key(bytes) => index := Some(hash(bytes) % partitions[payload.topic] % 0x1_0000);
      case NoKey => index := Some(choice % partitions[payload.topic] % 0x1_0000);
    }

    function IndexOf(payload: Payload, choice: nat): Option<nat> {
      if !Placeable(payload) then None
      else Some((if payload.key.Key? then hash(payload.key.bytes) else choice) % partitions[payload.topic] % 0x1_0000)
    }

    /** Payloads of one topic with the same key go to the same partition, whatever is drawn. */
    lemma SameKeySamePartition(a: Payload, b: Payload, first: nat, second: nat)
      requires a.topic == b.topic && a.key == b.key && a.key.Key?
      ensures IndexOf(a, first) == IndexOf(b, second) && (IndexOf(a, first).Some? <==> Placeable(a))
      ensures Placeable(a) && partitions[a.topic] <= 0x1_0000 ==>
                IndexOf(a, first) == Some(hash(a.key.bytes) % partitions[a.topic])
    {
      if Placeable(a) {
        var n := partitions[a.topic];
        var h := hash(a.key.bytes) % n;
        if n <= 0x1_0000 { SmallModulo(h); }
      }
    }

    /** Over any events: the accepted records of a topic and key are all in the key's partition,
        and are the payloads' records in the order they came. */
    lemma {:induction false} KeysStayTogether(events: seq<Event>, payload: Payload, choice: nat, p: nat)
      requires payload.key.Key? && Placeable(payload)
      ensures var all, t, key := AllAccepted(events), payload.topic, payload.key;
              && WithKey(all, t, key) == Came(events, t, key)
              && WithKeyIn(all, t, key, p) == if IndexOf(payload, choice) == Some(p) then Came(events, t, key) else []
      decreases |events|
    {
      hide IndexOf, WithKey, WithKeyIn;
      if events == [] {
        NoneWithKey(payload.topic, payload.key, p);
      } else {
        var n := |events| - 1;
        KeysStayTogether(events[..n], payload, choice, p);
        var before, e := AllAccepted(events[..n]), events[n];
        SameKeySamePartition(payload, payload, choice, choice);
        if e.Async? && e.payload.topic == payload.topic && e.payload.key == payload.key {
          SameKeySamePartition(e.payload, payload, e.choice, choice);
        }
        if AcceptedBy(e) == [] {
          assert before + [] == before;
        } else {
          OneMoreWithKey(before, AcceptedBy(e)[0], payload.topic, payload.key, p);
        }
      }
    }

    /** The buffer once an asynchronous payload is in it. */
    function Filled(event: Event, batch: Batch): Batch
      requires event.Async? && Placeable(event.payload)
    {
      Pushed(batch, event.payload.topic, IndexOf(event.payload, event.choice).value, event.payload.record)
    }

    /** The turns that end in a panic: a payload that cannot be placed, a publication that
        fails, and nothing left to wait for. */
    predicate Panics(event: Event, batch: Batch) {
      match event
      case Sync(payload, _, sent) => !Placeable(payload) || !sent
      case Async(payload, _, sent) => !Placeable(payload) || (frameSize(Filled(event, batch)) >= maxBytes && !sent)
      case TimerFired(sent) => batch != map[] && !sent
      case Shutdown(sent) => batch != map[] && !sent
      case Closed => batch == map[]
    }

    /** The events on which that can happen at all. */
    predicate CanPanic(event: Event) {
      match event
      case Sync(payload, _, sent) => !Placeable(payload) || !sent
      case Async(payload, _, sent) => !Placeable(payload) || !sent
      case TimerFired(sent) => !sent
      case Shutdown(sent) => !sent
      case Closed => true
    }

    /** One turn of the loop. */
    method Handle(event: Event) returns (outcome: Outcome)
      requires Valid()
      modifies this
      ensures outcome == if Panics(event, old(batch)) then Panicked else if event.Shutdown? then Stopped else Running
      ensures accepted == old(accepted) + AcceptedBy(event)
      ensures outcome.Panicked? ==> published == old(published) && NothingMadeUp(accepted, published)
      ensures outcome.Running? ==> Valid()
      ensures outcome.Stopped? ==> Conserved(accepted, published, batch)
      ensures event.Sync? && outcome.Running? ==>
        var sent := Immediate(event.payload.topic, IndexOf(event.payload, event.choice).value, event.payload.record);
        batch == old(batch) && published == old(published) + [sent]
      ensures event.Async? && outcome.Running? ==>
        var full := Filled(event, old(batch));
        if frameSize(full) >= maxBytes then batch == map[] && published == old(published) + [Buffered(full)]
        else batch == full && published == old(published)
      ensures (event.TimerFired? || event.Shutdown?) && !outcome.Panicked? ==>
        batch == map[] && published == old(published) + if old(batch) == map[] then [] else [Buffered(old(batch))]
      ensures event.Closed? ==> batch == old(batch) && published == old(published)
    {
      hide Conserved, Pushed, NothingMadeUp, For, Sent, In;
      outcome := Running;
      ConservedMadeNothingUp(accepted, published, batch);
      match event {
        case Sync(payload, choice, sent) =>
          var index := CalculateIndex(payload, choice);
          if index.None? || !sent { return Panicked; }
          ImmediateConserves(accepted, published, batch, payload.topic, index.value, payload.record);
          published := published + [Immediate(payload.topic, index.value, payload.record)];
        case Async(payload, choice, sent) =>
          var index := CalculateIndex(payload, choice);
          if index.None? { return Panicked; }
          PushConserves(accepted, published, batch, payload.topic, payload.key, index.value, payload.record);
          PushedIn(batch, payload.topic, index.value, payload.record, payload.topic, index.value);
          accepted := accepted + [Accepted(payload.topic, payload.key, index.value, payload.record)];
          batch := Pushed(batch, payload.topic, index.value, payload.record);
          ConservedMadeNothingUp(accepted, published, batch);
          if !timerActive { timerActive := true; }
          if frameSize(batch) >= maxBytes {
            if !sent { return Panicked; }
            Publish();
            timerActive := false;
          }
        case TimerFired(sent) =>
          if timerActive && batch != map[] {
            if !sent {
              batch := map[];
              return Panicked;
            }
            Publish();
            timerActive := false;
          }
        case Shutdown(sent) =>
          if batch != map[] {
            if !sent {
              batch := map[];
              return Panicked;
            }
            Publish();
          }
          outcome := Stopped;
        case Closed =>
          if !(timerActive && batch != map[]) { return Panicked; }
      }
    }

    function AcceptedBy(event: Event): seq<Accepted> {
      if event.Async? && Placeable(event.payload) then
        [Accepted(event.payload.topic, event.payload.key, IndexOf(event.payload, event.choice).value, event.payload.record)]
      else []
    }

    /** The loop, over whatever happens. What was published from the buffer is always a prefix, in
        every partition, of what was accepted. While it runs the rest is in the buffer; once it
        stopped there is no rest; only a panic loses records. */
    method Batcher(events: seq<Event>) returns (outcome: Outcome, handled: nat)
      requires Valid()
      modifies this
      ensures handled <= |events| && accepted == old(accepted) + AllAccepted(events[..handled])
      ensures NothingMadeUp(accepted, published)
      ensures forall k :: 0 <= k < handled - 1 ==> !events[k].Shutdown?
      ensures outcome.Running? ==> Valid() && handled == |events|
      ensures outcome.Running? && handled > 0 ==> !events[handled - 1].Shutdown?
      ensures outcome.Stopped? ==> batch == map[] && handled > 0 && events[handled - 1].Shutdown?
      ensures outcome.Stopped? ==> forall t, p: nat :: For(accepted, t, p) == Sent(published, t, p)
      ensures outcome.Panicked? ==> handled > 0 && CanPanic(events[handled - 1])
    {
      hide Conserved, NothingMadeUp, Panics, AllAccepted, AcceptedBy, For, Sent;
      outcome, handled := Running, 0;
      NoneAccepted(events);
      while handled < |events| && outcome == Running
        invariant handled <= |events| && accepted == old(accepted) + AllAccepted(events[..handled])
        invariant forall k :: 0 <= k < handled - 1 ==> !events[k].Shutdown?
        invariant outcome.Running? ==> Valid() && (handled > 0 ==> !events[handled - 1].Shutdown?)
        invariant outcome.Stopped? ==>
                    batch == map[] && handled > 0 && events[handled - 1].Shutdown? && Conserved(accepted, published, batch)
        invariant outcome.Panicked? ==>
                    handled > 0 && NothingMadeUp(accepted, published) && CanPanic(events[handled - 1])
      {
        OneMoreAccepted(events, handled);
        PanicsOnlyWhenItCan(events[handled], batch);
        outcome := Handle(events[handled]);
        handled := handled + 1;
      }
      if outcome.Running? { ConservedMadeNothingUp(accepted, published, batch); }
      if outcome.Stopped? {
        EmptyBufferSentAll(accepted, published);
        ConservedMadeNothingUp(accepted, published, batch);
      }
    }

    function AllAccepted(events: seq<Event>): seq<Accepted> {
      if events == [] then [] else AllAccepted(events[..|events| - 1]) + AcceptedBy(events[|events| - 1])
    }

    lemma NoneAccepted(events: seq<Event>)
      ensures AllAccepted(events[..0]) == []
    {
    }

    lemma OneMoreAccepted(events: seq<Event>, n: nat)
      requires n < |events|
      ensures AllAccepted(events[..n + 1]) == AllAccepted(events[..n]) + AcceptedBy(events[n])
    {
      hide AcceptedBy;
      assert events[..n + 1][..n] == events[..n];
    }

    lemma PanicsOnlyWhenItCan(event: Event, batch: Batch)
      ensures Panics(event, batch) ==> CanPanic(event)
    {
    }

    /** Sends the whole buffer and empties it. */
    method Publish()
      requires Conserved(accepted, published, batch)
      modifies this`batch, this`published
      ensures batch == map[] && published == old(published) + [Buffered(old(batch))]
      ensures Conserved(accepted, published, batch)
    {
      PublishConserves(accepted, published, batch);
      published := published + [Buffered(batch)];
      batch := map[];
    }
  }
}
