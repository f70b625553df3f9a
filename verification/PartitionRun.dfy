/** Whole runs of a partition's command loop. */
module PartitionRuns {
  import opened Bytes
  import opened Records
  import opened RecordBatches
  import opened Layout
  import opened LogSegments
  import opened PartitionLog
  import opened Truncation
  import opened ReplicaAcks
  import opened Partitions

  datatype Command =
    | Append(batch: RecordBatch, acks: Acks, client: nat)
    | UpdateReplicaLeo(id: nat, leo: nat)
    | Truncate(offset: u64)

  /** What a command means for the watermark and the waiting producers. */
  function StepOf(command: Command): Step {
    match command
    case Append(batch, acks, client) => Appended(batch.recordsCount, acks.AcksAll?, client)
    case UpdateReplicaLeo(id, leo) => Acked(id, leo)
    case Truncate(offset) => CutAt(offset)
  }

  function StepsOf(commands: seq<Command>): seq<Step> {
    if commands == [] then [] else [StepOf(commands[0])] + StepsOf(commands[1..])
  }

  function BytesOf(commands: seq<Command>): nat {
    if commands == [] then 0
    else (if commands[0].Append? then DiskSize(commands[0].batch) else 0) + BytesOf(commands[1..])
  }

  /** How many records the appends hold. */
  function CountOf(commands: seq<Command>): nat {
    if commands == [] then 0
    else (if commands[0].Append? then commands[0].batch.recordsCount else 0) + CountOf(commands[1..])
  }

  /** What a command means for the records of the partition. */
  function LogAfterOne(log: seq<Record>, command: Command, records: seq<Record>): seq<Record> {
    match command
    case Append(_, _, _) => log + records
    case UpdateReplicaLeo(_, _) => log
    case Truncate(offset) => if offset < |log| then log[..offset] else log
  }

  function LogAfter(log: seq<Record>, commands: seq<Command>, records: seq<seq<Record>>): seq<Record>
    requires |records| == |commands|
    decreases |commands|
  {
    if commands == [] then log
    else LogAfter(LogAfterOne(log, commands[0], records[0]), commands[1..], records[1..])
  }

  /** The log end after a command. */
  function EndAfter(leo: nat, command: Command): nat {
    match command
    case Append(batch, _, _) => leo + batch.recordsCount
    case UpdateReplicaLeo(_, _) => leo
    case Truncate(offset) => Smaller(offset, leo)
  }

  // ---- where segments start ------------------------------------------------

  /** Where the segments start, and how many bytes the last one holds. */
  datatype Shape = Shape(bases: seq<nat>, size: nat)

  ghost function ShapeOf(held: seq<Held>): Shape
    requires held != []
  {
    Shape(Bases(held), Position(Last(held).batches, |Last(held).batches|))
  }

  /** A full segment is followed by an empty one. */
  function ShapeRotated(shape: Shape, leo: nat, segmentBytes: nat): Shape {
    if shape.size >= segmentBytes then Shape(shape.bases + [leo], 0) else shape
  }

  function BasesCut(bases: seq<nat>, offset: nat): seq<nat> {
    if bases == [] || bases[0] >= offset then [offset] else [bases[0]] + BasesCut(bases[1..], offset)
  }

  function ShapeAfter(shape: Shape, leo: nat, command: Command, segmentBytes: nat): Shape {
    match command
    case Append(batch, _, _) =>
      ShapeRotated(shape.(size := shape.size + DiskSize(batch)), leo + batch.recordsCount, segmentBytes)
    case UpdateReplicaLeo(_, _) => shape
    case Truncate(offset) => if offset < leo then Shape(BasesCut(shape.bases, offset), 0) else shape
  }

  /** A truncation below the log end is at the start of a segment. */
  predicate CleanNext(shape: Shape, leo: nat, command: Command) {
    command.Truncate? ==> command.offset >= leo || command.offset in shape.bases
  }

  /** Each truncation of the run is, in the segments there are by then. */
  predicate CleanRun(shape: Shape, leo: nat, commands: seq<Command>, segmentBytes: nat)
    decreases |commands|
  {
    commands == []
    || (&& CleanNext(shape, leo, commands[0])
        && CleanRun(ShapeAfter(shape, leo, commands[0], segmentBytes), EndAfter(leo, commands[0]), commands[1..], segmentBytes))
  }

  lemma ShapeOfGrown(held: seq<Held>, b: RecordBatch, marks: seq<nat>, leo: nat, segmentBytes: nat)
    requires held != []
    ensures Rotated(Grown(held, b, marks), leo, segmentBytes) != []
    ensures ShapeOf(Rotated(Grown(held, b, marks), leo, segmentBytes)) ==
            ShapeRotated(ShapeOf(held).(size := ShapeOf(held).size + DiskSize(b)), leo, segmentBytes)
  {
    hide DiskSize, Position;
    var grown, before := Grown(held, b, marks), Last(held).batches;
    TotalsOfExtension(before, [b], |before|);
    assert Bases(grown) == Bases(held);
    OneMore(before + [b], |before|);
    NoneBefore([]);
    assert Bases(grown + [Held(leo, [], [])]) == Bases(held) + [leo];
  }

  lemma ShapeOfCut(held: seq<Held>, offset: nat)
    ensures Cut(held, offset) != [] && ShapeOf(Cut(held, offset)) == Shape(BasesCut(Bases(held), offset), 0)
  {
    hide Before;
    BasesOfCut(held, offset);
  }

  lemma {:induction false} BasesOfCut(held: seq<Held>, offset: nat)
    ensures Bases(Cut(held, offset)) == BasesCut(Bases(held), offset)
    decreases |held|
  {
    if held == [] || held[0].base >= offset {
      assert Cut(held, offset) == [Held(offset, [], [])];
    } else {
      BasesOfCut(held[1..], offset);
      assert Cut(held, offset) == [held[0]] + Cut(held[1..], offset);
      assert Bases(held) == [held[0].base] + Bases(held[1..]);
      assert Bases([held[0]] + Cut(held[1..], offset)) == [held[0].base] + Bases(Cut(held[1..], offset));
      assert Bases(held)[1..] == Bases(held[1..]);
    }
  }

  /** Every appended batch carries its records, numbered from zero. */
  ghost predicate AllCarry(commands: seq<Command>, records: seq<seq<Record>>) {
    && |records| == |commands|
    && forall i :: 0 <= i < |commands| && commands[i].Append? ==> Carries(commands[i].batch, records[i]) && Numbered(records[i], 0)
  }

  /** A partition in an empty directory: valid, empty, and ready for appends. */
  method StartFresh(segmentBytes: nat, replicas: seq<Replica>) returns (actor: PartitionActor)
    requires segmentBytes >= 1
    ensures fresh(actor) && actor.Valid() && actor.active.AtEnd() && actor.Log() == []
    ensures actor.snapshot.logEndOffset == 0 && actor.snapshot.highWatermark == 0 && actor.snapshot.replicas == replicas
    ensures (forall i :: 0 <= i < |replicas| ==> replicas[i].logEndOffset == 0) && replicas != [] ==> Consistent(actor.Waits())
  {
    hide PartitionActor.Valid, LogSegment.Valid, Layered;
    var dir := new Directory();
    NothingLeftBehind(dir, segmentBytes);
    actor := new PartitionActor(dir, segmentBytes, replicas, [], [], 0);
    EmptyIsNotFull(segmentBytes);
    if (forall i :: 0 <= i < |replicas| ==> replicas[i].logEndOffset == 0) && replicas != [] { MinIsLeast(replicas); }
  }

  lemma NothingLeftBehind(dir: Directory, segmentBytes: nat)
    requires dir.files == map[]
    ensures LeftBehind(dir.files, [], [], 0, Contents(dir.files), segmentBytes)
  {
  }

  lemma EmptyIsNotFull(segmentBytes: nat)
    requires segmentBytes >= 1
    ensures Rotated(AtLeastOne([]), 0, segmentBytes) == [Held(0, [], [])] && All<Record>([]) == []
  {
    NoneBefore([]);
  }

  /** Handles the commands in order. Across any number of rotations and of truncations at
      segment starts, the partition's log grows by exactly the appended records and loses
      exactly those cut, in order; watermark and queue go through the matching steps; and every
      append that does not wait is told where its records start. */
  method Run(actor: PartitionActor, commands: seq<Command>, ghost records: seq<seq<Record>>)
    returns (answered: seq<Waiting>, told: seq<nat>)
    requires actor.Valid() && actor.active.AtEnd() && AllCarry(commands, records)
    requires actor.held != []
    requires CleanRun(ShapeOf(actor.held), actor.snapshot.logEndOffset, commands, actor.segmentBytes)
    requires actor.snapshot.logEndOffset + CountOf(commands) < 0x1_0000_0000_0000_0000
    requires actor.active.size + BytesOf(commands) < 0x1_0000_0000_0000_0000
    modifies actor, actor.dir, actor.active, actor.active.log, actor.active.index
    ensures actor.Valid() && actor.active.AtEnd()
    ensures actor.Log() == LogAfter(old(actor.Log()), commands, records)
    ensures actor.Waits() == Final(old(actor.Waits()), StepsOf(commands))
    ensures answered == AllAnswered(old(actor.Waits()), StepsOf(commands))
    ensures told == Starts(old(actor.snapshot).logEndOffset, commands)
  {
    hide PartitionActor.Valid, LogSegment.Valid, Carries, Numbered, Answered, Next, CleanRun, CleanNext, ShapeAfter;
    hide Final, ShapeOf, StepsOf, CountOf, BytesOf, AllAnswered, Starts, LogAfter, PartitionActor.Log, EndAfter, LogAfterOne;
    EmptyRun();
    answered, told := [], [];
    var i := 0;
    while i < |commands|
      invariant 0 <= i <= |commands| && actor.Valid() && actor.active.AtEnd()
      invariant actor.active == old(actor.active) || (fresh(actor.active) && fresh(actor.active.log) && fresh(actor.active.index))
      invariant actor.held != []
      invariant CleanRun(ShapeOf(actor.held), actor.snapshot.logEndOffset, commands[i..], actor.segmentBytes)
      invariant actor.snapshot.logEndOffset + CountOf(commands[i..]) < 0x1_0000_0000_0000_0000
      invariant actor.active.size + BytesOf(commands[i..]) < 0x1_0000_0000_0000_0000
      invariant LogAfter(actor.Log(), commands[i..], records[i..]) == LogAfter(old(actor.Log()), commands, records)
      invariant Final(actor.Waits(), StepsOf(commands[i..])) == Final(old(actor.Waits()), StepsOf(commands))
      invariant answered + AllAnswered(actor.Waits(), StepsOf(commands[i..])) == AllAnswered(old(actor.Waits()), StepsOf(commands))
      invariant told + Starts(actor.snapshot.logEndOffset, commands[i..]) == Starts(old(actor.snapshot).logEndOffset, commands)
    {
      Unfolds(commands[i..], records[i..], actor.snapshot.logEndOffset, actor.Log());
      CleanUnfolds(ShapeOf(actor.held), actor.snapshot.logEndOffset, commands[i..], actor.segmentBytes);
      StepUnfolds(actor.Waits(), StepOf(commands[i]), StepsOf(commands[i + 1..]));
      assert commands[i..][1..] == commands[i + 1..] && records[i..][1..] == records[i + 1..];
      var now, told1 := Obey(actor, commands[i], records[i]);
      answered, told := answered + now, told + told1;
      i := i + 1;
    }
    assert commands[i..] == [] && records[i..] == [];
  }

  /** Handles one command. */
  method Obey(actor: PartitionActor, command: Command, ghost records: seq<Record>)
    returns (answered: seq<Waiting>, told: seq<nat>)
    requires actor.Valid() && actor.active.AtEnd()
    requires command.Append? ==> Carries(command.batch, records) && Numbered(records, 0)
    requires actor.held != [] && CleanNext(ShapeOf(actor.held), actor.snapshot.logEndOffset, command)
    requires actor.snapshot.logEndOffset + CountOf([command]) < 0x1_0000_0000_0000_0000
    requires actor.active.size + BytesOf([command]) < 0x1_0000_0000_0000_0000
    modifies actor, actor.dir, actor.active, actor.active.log, actor.active.index
    ensures actor.Valid() && actor.active.AtEnd()
    ensures actor.active == old(actor.active) || (fresh(actor.active) && fresh(actor.active.log) && fresh(actor.active.index))
    ensures actor.held != []
    ensures ShapeOf(actor.held) ==
            ShapeAfter(ShapeOf(old(actor.held)), old(actor.snapshot).logEndOffset, command, actor.segmentBytes)
    ensures actor.Log() == LogAfterOne(old(actor.Log()), command, records)
    ensures actor.Waits() == Next(old(actor.Waits()), StepOf(command))
    ensures actor.snapshot.logEndOffset == EndAfter(old(actor.snapshot).logEndOffset, command)
    ensures actor.active.size <= old(actor.active.size) + BytesOf([command])
    ensures answered == Answered(old(actor.Waits()), StepOf(command))
    ensures told == Starts(old(actor.snapshot).logEndOffset, [command])
  {
    hide PartitionActor.Valid, LogSegment.Valid, Carries, Numbered, Position, Rotated, Grown, Cut, PartitionActor.Log, Bases;
    actor.LogLength();
    ghost var held, leo := actor.held, actor.snapshot.logEndOffset;
    answered, told := [], [];
    match command {
      case Append(batch, acks, client) =>
        CarriedCount(batch, records);
        var reply := actor.Append(batch, acks, client, records);
        ShapeOfGrown(held, batch.(baseOffset := leo), old(actor.active).marks, actor.snapshot.logEndOffset, actor.segmentBytes);
        if reply.Some? { told := [reply.value]; }
      case UpdateReplicaLeo(id, leo) =>
        answered := actor.UpdateReplicaLeo(id, leo);
      case Truncate(offset) =>
        actor.HandleTruncate(offset);
        ShapeOfCut(held, offset);
    }
  }

  lemma EmptyRun()
    ensures StepsOf([]) == [] && BytesOf([]) == 0 && CountOf([]) == 0
    ensures forall log: seq<Record> :: LogAfter(log, [], []) == log
    ensures forall s: AckState :: Final(s, []) == s && AllAnswered(s, []) == []
    ensures forall leo: nat :: Starts(leo, []) == []
  {
  }

  /** One unfolding of everything the run is measured by. */
  lemma Unfolds(commands: seq<Command>, records: seq<seq<Record>>, leo: nat, log: seq<Record>)
    requires commands != [] && |records| == |commands|
    ensures var c, rest := commands[0], commands[1..];
            && StepsOf(commands) == [StepOf(c)] + StepsOf(rest)
            && LogAfter(log, commands, records) == LogAfter(LogAfterOne(log, c, records[0]), rest, records[1..])
            && CountOf(commands) == CountOf([c]) + CountOf(rest)
            && BytesOf(commands) == BytesOf([c]) + BytesOf(rest)
            && Starts(leo, commands) == Starts(leo, [c]) + Starts(EndAfter(leo, c), rest)
            && EndAfter(leo, c) <= leo + CountOf([c])
  {
    hide LogAfterOne, DiskSize;
    assert [commands[0]][1..] == [];
  }

  lemma CleanUnfolds(shape: Shape, leo: nat, commands: seq<Command>, segmentBytes: nat)
    requires commands != [] && CleanRun(shape, leo, commands, segmentBytes)
    ensures CleanNext(shape, leo, commands[0])
    ensures CleanRun(ShapeAfter(shape, leo, commands[0], segmentBytes), EndAfter(leo, commands[0]), commands[1..], segmentBytes)
  {
    hide ShapeAfter, EndAfter, CleanNext;
  }

  lemma StepUnfolds(s: AckState, step: Step, rest: seq<Step>)
    ensures Final(s, [step] + rest) == Final(Next(s, step), rest)
    ensures AllAnswered(s, [step] + rest) == Answered(s, step) + AllAnswered(Next(s, step), rest)
  {
    hide Reached, Raise, WatermarkOf;
    assert ([step] + rest)[1..] == rest;
  }

  /** The base offsets given out: each append starts where the log ends then. */
  function Starts(leo: nat, commands: seq<Command>): seq<nat>
    decreases |commands|
  {
    if commands == [] then []
    else (if commands[0].Append? && !commands[0].acks.AcksAll? then [leo] else [])
         + Starts(EndAfter(leo, commands[0]), commands[1..])
  }
}
