/** The runner: it shares the log object with its node and executes the node's actions in
    two loops. Proved to do exactly what `RunnerSpec.Advance` says. */
module RaftRunner {
  import opened RaftTypes
  import opened FlatLog
  import opened NodeSpec
  import opened RaftNode
  import opened Transport
  import opened RunnerSpec

  class Runner {
    const node: Node
    const log: VecLog
    var disk: QuorumState
    var waiting: map<nat, nat>
    var nextProposeId: nat
    var lastAppliedHwm: nat
    /** Everything done to the outside world so far. */
    var effects: seq<Effect>

    ghost predicate Valid()
      reads this
    {
      node.log == log
    }

    ghost function State(): RunnerState
      reads this, node, log
    {
      RunnerState(node.State(), log.entries, disk, waiting, nextProposeId, lastAppliedHwm)
    }

    constructor (id: nat, voters: seq<nat>, log: VecLog, disk: QuorumState)
      ensures Valid() && this.log == log && log.entries == old(log.entries)
      ensures Spawned(State()) && State().disk == disk && State().log == log.entries
      ensures State().node.id == id && State().node.voters == voters && effects == []
    {
      this.log := log;
      this.disk := disk;
      node := new Node(id, voters, disk, log);
      waiting := map[];
      nextProposeId := 0;
      lastAppliedHwm := 0;
      effects := [];
    }

    method InputToEvent(input: Input) returns (event: Event)
      requires Valid()
      modifies this
      ensures Valid() && State() == Registered(old(State()), input) && effects == old(effects)
      ensures event == EventOf(old(State()), input)
    {
      match input
      case Network(e) => event := e;
      case ElectionElapsed => event := ElectionTimeout;
      case HeartbeatElapsed => event := HeartbeatTimeout;
      case Proposal(data, client) =>
        var proposeId := nextProposeId;
        nextProposeId := nextProposeId + 1;
        waiting := waiting[proposeId := client];
        event := Propose(data, proposeId);
    }

    /** First pass: quorum state and log. */
    method PersistAll(actions: seq<Action>)
      requires Valid()
      modifies this`disk, this`effects, log
      ensures Valid() && log.entries == LogAfter(old(log.entries), actions)
      ensures disk == if PersistQuorumState in actions then node.State().QuorumStateOf() else old(disk)
      ensures effects == old(effects) + FirstPass(node.State().QuorumStateOf(), actions)
    {
      hide FirstPass, LogAfter, PersistEffects, LogAfterOne;
      var i := 0;
      ghost var quorum := node.State().QuorumStateOf();
      ghost var done: seq<Effect> := [];
      assert actions[0..] == actions;
      while i < |actions|
        invariant 0 <= i <= |actions| && node.State() == old(node.State())
        invariant LogAfter(log.entries, actions[i..]) == LogAfter(old(log.entries), actions)
        invariant disk == if PersistQuorumState in actions[..i] then quorum else old(disk)
        invariant effects == old(effects) + done
        invariant FirstPass(quorum, actions) == done + FirstPass(quorum, actions[i..])
      {
        FirstPassUnfolds(quorum, log.entries, actions, i);
        ghost var now, later := PersistEffects(quorum, actions[i]), FirstPass(quorum, actions[i + 1..]);
        assert done + (now + later) == (done + now) + later;
        done := done + now;
        PersistOne(actions[i]);
        i := i + 1;
      }
      NothingLeft(0, quorum, log.entries, waiting, 0, actions, i);
    }

    lemma NothingLeft(from: nat, quorum: QuorumState, log: seq<LogEntry>, waiting: map<nat, nat>, hwm: nat,
                      actions: seq<Action>, i: nat)
      requires i == |actions|
      ensures actions[..i] == actions && FirstPass(quorum, actions[i..]) == [] && LogAfter(log, actions[i..]) == log
      ensures SecondPass(from, waiting, actions[i..]) == [] && WaitingAfter(waiting, actions[i..]) == waiting
      ensures AppliedAfter(hwm, actions[i..]) == hwm
    {
      assert actions[i..] == [];
    }

    method PersistOne(action: Action)
      modifies this`disk, this`effects, log
      ensures log.entries == LogAfterOne(old(log.entries), action)
      ensures disk == if action.PersistQuorumState? then node.State().QuorumStateOf() else old(disk)
      ensures effects == old(effects) + PersistEffects(node.State().QuorumStateOf(), action)
    {
      match action
      case PersistQuorumState =>
        disk := QuorumState(node.currentEpoch, node.votedFor);
        effects := effects + [Persisted(disk)];
      case AppendToLog(entry) =>
        log.Append(entry);
        effects := effects + [Appended(entry)];
      case TruncateLog(offset) =>
        log.Truncate(offset);
        effects := effects + [CutTo(offset)];
      case _ =>
    }

    /** Second pass: network, timers, replies. */
    method NotifyAll(actions: seq<Action>)
      requires Valid()
      modifies this`effects, this`waiting, this`lastAppliedHwm
      ensures Valid() && waiting == WaitingAfter(old(waiting), actions)
      ensures lastAppliedHwm == AppliedAfter(old(lastAppliedHwm), actions)
      ensures effects == old(effects) + SecondPass(node.id, old(waiting), actions)
    {
      hide SecondPass, WaitingAfter, AppliedAfter, NotifyEffects, WaitingAfterOne;
      var i := 0;
      ghost var done: seq<Effect> := [];
      assert actions[0..] == actions;
      while i < |actions|
        invariant 0 <= i <= |actions|
        invariant WaitingAfter(waiting, actions[i..]) == WaitingAfter(old(waiting), actions)
        invariant AppliedAfter(lastAppliedHwm, actions[i..]) == AppliedAfter(old(lastAppliedHwm), actions)
        invariant effects == old(effects) + done
        invariant SecondPass(node.id, old(waiting), actions) == done + SecondPass(node.id, waiting, actions[i..])
      {
        SecondPassUnfolds(node.id, waiting, lastAppliedHwm, actions, i);
        ghost var now := NotifyEffects(node.id, waiting, actions[i]);
        ghost var later := SecondPass(node.id, WaitingAfterOne(waiting, actions[i]), actions[i + 1..]);
        assert done + (now + later) == (done + now) + later;
        done := done + now;
        NotifyOne(actions[i]);
        i := i + 1;
      }
      NothingLeft(node.id, disk, [], waiting, lastAppliedHwm, actions, i);
    }

    method NotifyOne(action: Action)
      modifies this`effects, this`waiting, this`lastAppliedHwm
      ensures waiting == WaitingAfterOne(old(waiting), action)
      ensures lastAppliedHwm == if action.AdvanceHighWatermark? then action.offset else old(lastAppliedHwm)
      ensures effects == old(effects) + NotifyEffects(node.id, old(waiting), action)
    {
      match action
      case ResetElectionTimer => effects := effects + [ElectionTimerReset];
      case ResetHeartbeatTimer => effects := effects + [HeartbeatTimerReset];
      case AdvanceHighWatermark(offset) => lastAppliedHwm := offset;
      case CommitPropose(proposeId) => Answer(proposeId, true);
      case RejectPropose(proposeId) => Answer(proposeId, false);
      case _ => SendAll(Sends(node.id, action));
    }

    method Answer(proposeId: nat, committed: bool)
      modifies this`effects, this`waiting
      ensures effects == old(effects) + Answers(old(waiting), proposeId, committed)
      ensures waiting == old(waiting) - {proposeId}
    {
      if proposeId in waiting {
        effects := effects + [Replied(waiting[proposeId], proposeId, committed)];
        waiting := waiting - {proposeId};
      } else {
        assert waiting - {proposeId} == waiting;
      }
    }

    method SendAll(envelopes: seq<Envelope>)
      modifies this`effects
      ensures effects == old(effects) + SentEffects(envelopes)
    {
      var i := 0;
      while i < |envelopes|
        invariant 0 <= i <= |envelopes|
        invariant effects == old(effects) + SentEffects(envelopes)[..i]
      {
        effects := effects + [Sent(envelopes[i])];
        i := i + 1;
      }
    }

    method ExecuteActions(actions: seq<Action>)
      requires Valid()
      modifies this, log
      ensures Valid() && State() == Execute(old(State()), actions).state
      ensures effects == old(effects) + Execute(old(State()), actions).effects
    {
      hide FirstPass, SecondPass, LogAfter, WaitingAfter, AppliedAfter;
      PersistAll(actions);
      NotifyAll(actions);
    }

    /** One turn of the runner's loop. */
    method Step(input: Input)
      requires Valid()
      modifies this, node, log
      ensures Valid() && State() == Advance(old(State()), input).state
      ensures effects == old(effects) + Advance(old(State()), input).effects
    {
      var event := InputToEvent(input);
      var actions := node.Handle(event);
      ExecuteActions(actions);
    }
  }
}
