/** The runner writes epoch and vote before anything leaves the machine, so a crash at any
    point of any turn takes back no promise already sent, and epochs never go back. */
module Persistence {
  import opened RaftTypes
  import opened FlatLog
  import opened NodeSpec
  import opened NodeFacts
  import opened Transport
  import opened RunnerSpec

  ghost predicate DiskIsCurrent(r: RunnerState) { r.disk == r.node.QuorumStateOf() }

  /** What the disk holds once these effects have happened. */
  function DiskAfter(disk: QuorumState, effects: seq<Effect>): QuorumState {
    if effects == [] then disk
    else
      var last := effects[|effects| - 1];
      if last.Persisted? then last.quorum else DiskAfter(disk, effects[..|effects| - 1])
  }

  /** What the log holds once these effects have happened. */
  function LogAfterEffects(log: seq<LogEntry>, effects: seq<Effect>): seq<LogEntry> {
    if effects == [] then log
    else
      var last, before := effects[|effects| - 1], LogAfterEffects(log, effects[..|effects| - 1]);
      match last
      case Appended(entry) => before + [entry]
      case CutTo(offset) => Truncated(before, offset)
      case _ => before
  }

  // ---- shape of the two passes ---------------------------------------------

  lemma {:induction false} FirstPassShape(quorum: QuorumState, actions: seq<Action>)
    ensures forall i :: 0 <= i < |FirstPass(quorum, actions)| ==>
              var e := FirstPass(quorum, actions)[i];
              e == Persisted(quorum) || e.Appended? || e.CutTo?
    ensures PersistQuorumState in actions ==>
              exists i :: 0 <= i < |FirstPass(quorum, actions)| && FirstPass(quorum, actions)[i] == Persisted(quorum)
    decreases |actions|
  {
    if actions != [] {
      FirstPassShape(quorum, actions[1..]);
      var head, tail := PersistEffects(quorum, actions[0]), FirstPass(quorum, actions[1..]);
      if PersistQuorumState in actions {
        if actions[0] == PersistQuorumState {
          assert FirstPass(quorum, actions)[0] == Persisted(quorum);
        } else {
          assert PersistQuorumState in actions[1..];
          var i :| 0 <= i < |tail| && tail[i] == Persisted(quorum);
          assert FirstPass(quorum, actions)[|head| + i] == Persisted(quorum);
        }
      }
    }
  }

  lemma {:induction false} SecondPassShape(from: nat, waiting: map<nat, nat>, actions: seq<Action>)
    ensures forall i :: 0 <= i < |SecondPass(from, waiting, actions)| ==>
              var e := SecondPass(from, waiting, actions)[i];
              !e.Persisted? && !e.Appended? && !e.CutTo?
    decreases |actions|
  {
    if actions != [] {
      SecondPassShape(from, WaitingAfterOne(waiting, actions[0]), actions[1..]);
      assert forall i :: 0 <= i < |NotifyEffects(from, waiting, actions[0])| ==>
               var e := NotifyEffects(from, waiting, actions[0])[i];
               !e.Persisted? && !e.Appended? && !e.CutTo?;
    }
  }

  lemma {:induction false} DiskAfterOnly(disk: QuorumState, quorum: QuorumState, effects: seq<Effect>, n: nat)
    requires n <= |effects|
    requires forall i :: 0 <= i < |effects| ==> effects[i].Persisted? ==> effects[i] == Persisted(quorum)
    ensures DiskAfter(disk, effects[..n]) == disk || DiskAfter(disk, effects[..n]) == quorum
    ensures (exists i :: 0 <= i < n && effects[i].Persisted?) ==> DiskAfter(disk, effects[..n]) == quorum
    ensures (forall i :: 0 <= i < n ==> !effects[i].Persisted?) ==> DiskAfter(disk, effects[..n]) == disk
    decreases n
  {
    if n > 0 {
      assert effects[..n][..n - 1] == effects[..n - 1];
      DiskAfterOnly(disk, quorum, effects, n - 1);
    }
  }

  // ---- one turn ------------------------------------------------------------

  /** A crash after `cut` effects of a turn leaves either the old epoch and vote or the new
      ones on disk, never an older epoch; and once a message has been sent, the new ones. */
  lemma CrashTakesBackNoPromise(r: RunnerState, input: Input, cut: nat)
    requires DiskIsCurrent(r) && cut <= |Advance(r, input).effects|
    ensures var p := Advance(r, input);
            var found := DiskAfter(r.disk, p.effects[..cut]);
            && (found == r.disk || found == p.state.node.QuorumStateOf())
            && r.disk.currentEpoch <= found.currentEpoch
            && ((exists i :: 0 <= i < cut && p.effects[i].Sent?) ==> found == p.state.node.QuorumStateOf())
  {
    hide Handle;
    var event := EventOf(r, input);
    var outcome := Handle(r.node, r.log, event);
    PersistCoversChange(r.node, r.log, event);
    var quorum := outcome.state.QuorumStateOf();
    var first := FirstPass(quorum, outcome.actions);
    var effects := Advance(r, input).effects;
    FirstPassShape(quorum, outcome.actions);
    SecondPassShape(outcome.state.id, Registered(r, input).waiting, outcome.actions);
    assert forall i :: 0 <= i < |first| ==> effects[i] == first[i];
    DiskAfterOnly(r.disk, quorum, effects, cut);
    if exists i :: 0 <= i < cut && effects[i].Sent? {
      assert cut > |first|;
      if quorum != r.disk {
        var k :| 0 <= k < |first| && first[k] == Persisted(quorum);
        assert effects[k].Persisted?;
      }
    }
  }

  /** After a whole turn the disk holds the node's epoch and vote. */
  lemma TurnKeepsDiskCurrent(r: RunnerState, input: Input)
    requires DiskIsCurrent(r)
    ensures DiskIsCurrent(Advance(r, input).state)
    ensures r.node.currentEpoch <= Advance(r, input).state.node.currentEpoch
  {
    PersistCoversChange(r.node, r.log, EventOf(r, input));
  }

  // ---- whole runs with crashes ---------------------------------------------

  /** A turn carried out, or a turn cut short by a crash after `cut` effects and a restart. */
  datatype Life = Turn(input: Input) | Crash(input: Input, cut: nat)

  ghost predicate Possible(r: RunnerState, life: Life) {
    life.Crash? ==> life.cut <= |Advance(r, life.input).effects|
  }

  ghost function Live(r: RunnerState, life: Life): RunnerState
    requires Possible(r, life)
  {
    var p := Advance(r, life.input);
    match life
    case Turn(_) => p.state
    case Crash(_, cut) =>
      var disk := DiskAfter(r.disk, p.effects[..cut]);
      RunnerState(Restarted(r.node.id, r.node.voters, disk), LogAfterEffects(r.log, p.effects[..cut]), disk, map[], 0, 0)
  }

  ghost predicate History(states: seq<RunnerState>, lives: seq<Life>) {
    && |states| == |lives| + 1 && DiskIsCurrent(states[0])
    && forall k: nat :: k < |lives| ==> Possible(states[k], lives[k]) && states[k + 1] == Live(states[k], lives[k])
  }

  /** Across any number of turns and crashes, disk and memory agree and epochs never decrease. */
  lemma {:induction false} EpochsSurviveCrashes(states: seq<RunnerState>, lives: seq<Life>, i: nat, j: nat)
    requires History(states, lives) && i <= j < |states|
    ensures DiskIsCurrent(states[j]) && states[i].node.currentEpoch <= states[j].node.currentEpoch
    decreases j
  {
    hide Advance;
    if j > 0 {
      EpochsSurviveCrashes(states, lives, if i < j then i else j - 1, j - 1);
      var r, life := states[j - 1], lives[j - 1];
      assert states[j - 1 + 1] == Live(r, life);
      TurnKeepsDiskCurrent(r, life.input);
      if life.Crash? {
        CrashTakesBackNoPromise(r, life.input, life.cut);
      }
    }
  }
}
