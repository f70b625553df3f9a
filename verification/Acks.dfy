/** Replica acknowledgements of one partition: the high watermark, and producers waiting until
    every replica has their batch. */
module ReplicaAcks {

  datatype Replica = Replica(id: nat, logEndOffset: nat)

  /** A producer waiting for the high watermark to reach the end of its batch. */
  datatype Waiting = Waiting(hw: nat, baseOffset: nat, client: nat)

  datatype AckState = AckState(logEndOffset: nat, highWatermark: nat, replicas: seq<Replica>, waiting: seq<Waiting>)

  function Larger(a: nat, b: nat): nat { if a >= b then a else b }

  function Smaller(a: nat, b: nat): nat { if a <= b then a else b }

  /** The first replica with the id has at least `leo`. */
  function Raise(replicas: seq<Replica>, id: nat, leo: nat): (r: seq<Replica>)
    ensures |r| == |replicas|
  {
    if replicas == [] then []
    else if replicas[0].id == id then [replicas[0].(logEndOffset := Larger(replicas[0].logEndOffset, leo))] + replicas[1..]
    else [replicas[0]] + Raise(replicas[1..], id, leo)
  }

  function MinOffset(replicas: seq<Replica>): nat
    requires replicas != []
  {
    if |replicas| == 1 || replicas[0].logEndOffset < MinOffset(replicas[1..]) then replicas[0].logEndOffset
    else MinOffset(replicas[1..])
  }

  function WatermarkOf(replicas: seq<Replica>, otherwise: nat): nat {
    if replicas == [] then otherwise else MinOffset(replicas)
  }

  /** How many producers at the front of the queue have been reached. */
  function Reached(waiting: seq<Waiting>, hw: nat): (n: nat)
    ensures n <= |waiting|
    ensures forall i :: 0 <= i < n ==> waiting[i].hw <= hw
    ensures n < |waiting| ==> waiting[n].hw > hw
  {
    if waiting == [] || waiting[0].hw > hw then 0 else 1 + Reached(waiting[1..], hw)
  }

  datatype Step =
    | Appended(count: nat, all: bool, client: nat)
    | Acked(id: nat, leo: nat)
    | CutAt(offset: nat)

  function Next(s: AckState, step: Step): AckState {
    match step
    case Appended(count, all, client) =>
      s.(logEndOffset := s.logEndOffset + count,
         highWatermark := if s.replicas == [] then s.highWatermark + count else s.highWatermark,
         waiting := s.waiting + Asked(s, step))
    case Acked(id, leo) =>
      var replicas := Raise(s.replicas, id, leo);
      var hw := WatermarkOf(replicas, s.highWatermark);
      s.(highWatermark := hw, replicas := replicas, waiting := s.waiting[Reached(s.waiting, hw)..])
    case CutAt(offset) =>
      if offset >= s.logEndOffset then s
      else s.(logEndOffset := offset, highWatermark := Smaller(s.highWatermark, offset))
  }

  /** The producer a step adds to the queue, if any. */
  function Asked(s: AckState, step: Step): seq<Waiting> {
    if step.Appended? && step.all then [Waiting(s.logEndOffset + step.count, s.logEndOffset, step.client)] else []
  }

  /** The producers a step answers, in order. */
  function Answered(s: AckState, step: Step): seq<Waiting> {
    if step.Acked? then
      s.waiting[..Reached(s.waiting, WatermarkOf(Raise(s.replicas, step.id, step.leo), s.highWatermark))]
    else []
  }

  function Final(s: AckState, steps: seq<Step>): AckState
    decreases |steps|
  {
    if steps == [] then s else Final(Next(s, steps[0]), steps[1..])
  }

  function AllAsked(s: AckState, steps: seq<Step>): seq<Waiting>
    decreases |steps|
  {
    if steps == [] then [] else Asked(s, steps[0]) + AllAsked(Next(s, steps[0]), steps[1..])
  }

  function AllAnswered(s: AckState, steps: seq<Step>): seq<Waiting>
    decreases |steps|
  {
    if steps == [] then [] else Answered(s, steps[0]) + AllAnswered(Next(s, steps[0]), steps[1..])
  }

  // ---- the invariant -------------------------------------------------------

  ghost predicate InOrder(s: AckState) {
    && (forall i :: 0 <= i < |s.waiting| ==> s.highWatermark < s.waiting[i].hw <= s.logEndOffset)
    && (forall i, j :: 0 <= i < j < |s.waiting| ==> s.waiting[i].hw < s.waiting[j].hw)
  }

  /** The watermark is the smallest replica offset, no replica is ahead of the log, and the
      waiting producers' ends increase strictly, all above the watermark and in the log. */
  ghost predicate Consistent(s: AckState) {
    && s.replicas != [] && s.highWatermark == MinOffset(s.replicas)
    && (forall i :: 0 <= i < |s.replicas| ==> s.replicas[i].logEndOffset <= s.logEndOffset)
    && InOrder(s)
  }

  /** Batches are not empty, no replica claims more than the log has, and a cut takes away
      nothing that a replica reported or a producer waits for. */
  predicate Honest(s: AckState, step: Step) {
    match step
    case Appended(count, _, _) => count >= 1
    case Acked(_, leo) => leo <= s.logEndOffset
    case CutAt(offset) => offset >= s.logEndOffset || NobodyBeyond(s, offset)
  }

  predicate NobodyBeyond(s: AckState, offset: nat) {
    && (forall i :: 0 <= i < |s.replicas| ==> s.replicas[i].logEndOffset <= offset)
    && (forall i :: 0 <= i < |s.waiting| ==> s.waiting[i].hw <= offset)
  }

  predicate AllHonest(s: AckState, steps: seq<Step>)
    decreases |steps|
  {
    steps == [] || (Honest(s, steps[0]) && AllHonest(Next(s, steps[0]), steps[1..]))
  }

  lemma {:induction false} MinIsLeast(replicas: seq<Replica>)
    requires replicas != []
    ensures forall i :: 0 <= i < |replicas| ==> MinOffset(replicas) <= replicas[i].logEndOffset
    ensures exists i :: 0 <= i < |replicas| && MinOffset(replicas) == replicas[i].logEndOffset
    decreases |replicas|
  {
    if |replicas| == 1 {
      assert MinOffset(replicas) == replicas[0].logEndOffset;
    } else {
      var rest := replicas[1..];
      MinIsLeast(rest);
      var k :| 0 <= k < |rest| && MinOffset(rest) == rest[k].logEndOffset;
      assert rest[k] == replicas[k + 1];
      forall i | 0 <= i < |replicas| ensures MinOffset(replicas) <= replicas[i].logEndOffset {
        if i > 0 { assert replicas[i] == rest[i - 1]; }
      }
      assert MinOffset(replicas) == replicas[0].logEndOffset || MinOffset(replicas) == replicas[k + 1].logEndOffset;
    }
  }

  /** Raising touches one replica, upwards, and to no more than the larger of old and reported. */
  lemma {:induction false} RaiseOnlyRaises(replicas: seq<Replica>, id: nat, leo: nat)
    ensures var r := Raise(replicas, id, leo);
            forall i :: 0 <= i < |replicas| ==>
              && replicas[i].logEndOffset <= r[i].logEndOffset <= Larger(replicas[i].logEndOffset, leo)
              && r[i].id == replicas[i].id
    decreases |replicas|
  {
    if replicas != [] && replicas[0].id != id {
      RaiseOnlyRaises(replicas[1..], id, leo);
      var r, rest := Raise(replicas, id, leo), Raise(replicas[1..], id, leo);
      forall i | 1 <= i < |replicas| ensures r[i] == rest[i - 1] && replicas[i] == replicas[1..][i - 1] {
      }
    }
  }

  /** A report moves the first replica with that id up to the reported offset, if it was below it,
      and touches nothing else. */
  lemma {:induction false} ReportRaises(replicas: seq<Replica>, id: nat, leo: nat, i: nat)
    requires i < |replicas|
    ensures var was, now := replicas[i], Raise(replicas, id, leo)[i];
            && now.id == was.id
            && now.logEndOffset ==
               if was.id == id && leo > was.logEndOffset && (forall j :: 0 <= j < i ==> replicas[j].id != id) then leo
               else was.logEndOffset
    decreases i
  {
    if i > 0 && replicas[0].id != id {
      ReportRaises(replicas[1..], id, leo, i - 1);
      assert forall j :: 0 <= j < i - 1 ==> replicas[1..][j] == replicas[j + 1];
      assert (forall j :: 0 <= j < i ==> replicas[j].id != id) <==> forall j :: 0 <= j < i - 1 ==> replicas[1..][j].id != id by {
        if forall j :: 0 <= j < i - 1 ==> replicas[1..][j].id != id {
          forall j | 0 <= j < i ensures replicas[j].id != id {
            if j > 0 { assert replicas[1..][j - 1] == replicas[j]; }
          }
        }
      }
    }
  }

  lemma MinNeverFalls(replicas: seq<Replica>, id: nat, leo: nat)
    requires replicas != []
    ensures MinOffset(replicas) <= MinOffset(Raise(replicas, id, leo))
  {
    hide Raise, MinOffset;
    var r := Raise(replicas, id, leo);
    RaiseOnlyRaises(replicas, id, leo);
    MinIsLeast(replicas);
    MinIsLeast(r);
    var k :| 0 <= k < |r| && MinOffset(r) == r[k].logEndOffset;
    assert MinOffset(replicas) <= replicas[k].logEndOffset;
  }

  /** Every honest step keeps the state consistent, never lowers the watermark, answers exactly
      the producers the new watermark reaches, and only once every replica has their batch. */
  lemma StepKeepsConsistent(s: AckState, step: Step)
    requires Consistent(s) && Honest(s, step)
    ensures var t := Next(s, step);
            && Consistent(t) && s.highWatermark <= t.highWatermark <= t.logEndOffset
            && (s.logEndOffset <= t.logEndOffset || (step.CutAt? && t.logEndOffset == step.offset))
            && (forall w :: w in Answered(s, step) <==> w in s.waiting && w.hw <= t.highWatermark)
            && (forall w :: w in Answered(s, step) ==> forall i :: 0 <= i < |t.replicas| ==> t.replicas[i].logEndOffset >= w.hw)
  {
    hide Consistent, Raise, MinOffset, Reached, Next, Answered;
    match step
    case Acked(id, leo) => ReportKeepsConsistent(s, id, leo);
    case _ => OtherStepKeepsConsistent(s, step);
  }

  lemma OtherStepKeepsConsistent(s: AckState, step: Step)
    requires Consistent(s) && Honest(s, step) && !step.Acked?
    ensures var t := Next(s, step);
            && Consistent(t) && s.highWatermark <= t.highWatermark <= t.logEndOffset
            && (s.logEndOffset <= t.logEndOffset || (step.CutAt? && t.logEndOffset == step.offset))
            && Answered(s, step) == []
            && (forall w :: w in s.waiting ==> w.hw > t.highWatermark)
  {
    hide MinOffset;
    MinIsLeast(s.replicas);
  }

  lemma ReportKeepsConsistent(s: AckState, id: nat, leo: nat)
    requires Consistent(s) && Honest(s, Acked(id, leo))
    ensures var step := Acked(id, leo);
            var t := Next(s, step);
            && Consistent(t) && s.highWatermark <= t.highWatermark <= t.logEndOffset == s.logEndOffset
            && (forall w :: w in Answered(s, step) <==> w in s.waiting && w.hw <= t.highWatermark)
            && (forall w :: w in Answered(s, step) ==> forall i :: 0 <= i < |t.replicas| ==> t.replicas[i].logEndOffset >= w.hw)
  {
    hide Raise, MinOffset, Reached;
    MinIsLeast(s.replicas);
    RaiseOnlyRaises(s.replicas, id, leo);
    MinNeverFalls(s.replicas, id, leo);
    var t := Next(s, Acked(id, leo));
    MinIsLeast(t.replicas);
    var n := Reached(s.waiting, t.highWatermark);
    assert t.waiting == s.waiting[n..] && Answered(s, Acked(id, leo)) == s.waiting[..n];
    forall i | n <= i < |s.waiting| ensures s.waiting[i].hw > t.highWatermark {
      if i > n { assert s.waiting[n].hw < s.waiting[i].hw; }
    }
  }

  /** Over any honest run the watermark is the smallest replica offset at the end and has not
      gone back. */
  lemma {:induction false} RunKeepsConsistent(s: AckState, steps: seq<Step>)
    requires Consistent(s) && AllHonest(s, steps)
    ensures var t := Final(s, steps);
            Consistent(t) && s.highWatermark <= t.highWatermark == MinOffset(t.replicas) <= t.logEndOffset
    decreases |steps|
  {
    if steps == [] {
      MinIsLeast(s.replicas);
    } else {
      hide Next, Consistent;
      StepKeepsConsistent(s, steps[0]);
      RunKeepsConsistent(Next(s, steps[0]), steps[1..]);
      HasReplicas(Final(s, steps));
    }
  }

  lemma HasReplicas(s: AckState)
    requires Consistent(s)
    ensures s.replicas != []
  {
  }

  /** First in, first out, and exactly once: over any run at all, those waiting at the start and
      those who asked, in order, are those answered, in order, and then those still waiting. */
  lemma {:induction false} AnsweredOnceInOrder(s: AckState, steps: seq<Step>)
    ensures s.waiting + AllAsked(s, steps) == AllAnswered(s, steps) + Final(s, steps).waiting
    decreases |steps|
  {
    if steps != [] {
      hide Next, Asked, Answered;
      var t := Next(s, steps[0]);
      QueueMoves(s, steps[0]);
      AnsweredOnceInOrder(t, steps[1..]);
      Rechained(s.waiting, Asked(s, steps[0]), AllAsked(t, steps[1..]), Answered(s, steps[0]), t.waiting,
                AllAnswered(t, steps[1..]), Final(t, steps[1..]).waiting);
    }
  }

  lemma QueueMoves(s: AckState, step: Step)
    ensures s.waiting + Asked(s, step) == Answered(s, step) + Next(s, step).waiting
  {
    hide Reached, Raise, WatermarkOf;
  }

  lemma Rechained<T>(w: seq<T>, asked: seq<T>, laterAsked: seq<T>, answered: seq<T>, left: seq<T>,
                     laterAnswered: seq<T>, end: seq<T>)
    requires w + asked == answered + left && left + laterAsked == laterAnswered + end
    ensures w + (asked + laterAsked) == (answered + laterAnswered) + end
  {
    assert w + (asked + laterAsked) == (w + asked) + laterAsked;
    assert (answered + left) + laterAsked == answered + (left + laterAsked);
    assert answered + (laterAnswered + end) == (answered + laterAnswered) + end;
  }

  /** Without replicas the watermark is the log end, whatever is appended. */
  lemma {:induction false} AloneFollowsLog(s: AckState, steps: seq<Step>)
    requires s.replicas == [] && s.highWatermark == s.logEndOffset
    ensures var t := Final(s, steps); t.replicas == [] && t.highWatermark == t.logEndOffset
    decreases |steps|
  {
    if steps != [] { AloneFollowsLog(Next(s, steps[0]), steps[1..]); }
  }

  /** A report keeps the state consistent exactly when it is within the log or comes from
      nobody the partition knows. */
  lemma ConsistentIffWithinLog(s: AckState, id: nat, leo: nat)
    requires Consistent(s)
    ensures Consistent(Next(s, Acked(id, leo))) <==>
              (leo <= s.logEndOffset || forall i :: 0 <= i < |s.replicas| ==> s.replicas[i].id != id)
  {
    hide Raise, MinOffset;
    if forall i :: 0 <= i < |s.replicas| ==> s.replicas[i].id != id {
      UnknownRaisesNothing(s.replicas, id, leo);
      StepKeepsConsistent(s, Acked(id, 0));
      UnknownRaisesNothing(s.replicas, id, 0);
    } else if leo <= s.logEndOffset {
      StepKeepsConsistent(s, Acked(id, leo));
    } else {
      var i := RaisesOne(s.replicas, id, leo);
    }
  }

  /** A cut keeps the state consistent exactly when nobody is beyond it: the offsets replicas
      reported and the ends producers wait for stay as they were. */
  lemma ConsistentIffNobodyBeyond(s: AckState, offset: nat)
    requires Consistent(s)
    ensures Consistent(Next(s, CutAt(offset))) <==> offset >= s.logEndOffset || NobodyBeyond(s, offset)
  {
    MinIsLeast(s.replicas);
  }

  lemma {:induction false} UnknownRaisesNothing(replicas: seq<Replica>, id: nat, leo: nat)
    requires forall i :: 0 <= i < |replicas| ==> replicas[i].id != id
    ensures Raise(replicas, id, leo) == replicas
    decreases |replicas|
  {
    if replicas != [] { UnknownRaisesNothing(replicas[1..], id, leo); }
  }

  lemma {:induction false} RaisesOne(replicas: seq<Replica>, id: nat, leo: nat) returns (i: nat)
    requires exists i :: 0 <= i < |replicas| && replicas[i].id == id
    ensures i < |replicas| && Raise(replicas, id, leo)[i].logEndOffset >= leo
    decreases |replicas|
  {
    if replicas[0].id == id {
      i := 0;
    } else {
      var k :| 0 <= k < |replicas| && replicas[k].id == id;
      assert replicas[1..][k - 1] == replicas[k];
      var j := RaisesOne(replicas[1..], id, leo);
      i := j + 1;
    }
  }
}
