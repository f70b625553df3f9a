/** What the runner does around a node: it numbers proposals, hands events to the node, and
    executes the node's actions in two passes, persistence first. */
module RunnerSpec {
  import opened Bytes
  import opened RaftTypes
  import opened FlatLog
  import opened NodeSpec
  import opened Transport

  datatype Input =
    | Network(event: Event)
    | Proposal(data: seq<byte>, client: nat)
    | ElectionElapsed
    | HeartbeatElapsed

  /** The transport delivers only the six kinds of Raft message. */
  predicate IsMessage(event: Event) {
    !event.Propose? && !event.ElectionTimeout? && !event.HeartbeatTimeout?
  }

  predicate ValidInput(input: Input) { input.Network? ==> IsMessage(input.event) }

  /** `waiting` maps the id of a proposal not yet answered to the client that made it. */
  datatype RunnerState = RunnerState(
    node: NodeState,
    log: seq<LogEntry>,
    disk: QuorumState,
    waiting: map<nat, nat>,
    nextProposeId: nat,
    lastAppliedHwm: nat)

  /** What the runner does to the outside world, in order. */
  datatype Effect =
    | Persisted(quorum: QuorumState)
    | Appended(entry: LogEntry)
    | CutTo(offset: nat)
    | Sent(envelope: Envelope)
    | ElectionTimerReset
    | HeartbeatTimerReset
    | Replied(client: nat, proposeId: nat, committed: bool)

  datatype Progress = Progress(state: RunnerState, effects: seq<Effect>)

  // ---- the two passes ------------------------------------------------------

  function PersistEffects(quorum: QuorumState, action: Action): seq<Effect> {
    match action
    case PersistQuorumState => [Persisted(quorum)]
    case AppendToLog(entry) => [Appended(entry)]
    case TruncateLog(offset) => [CutTo(offset)]
    case _ => []
  }

  function FirstPass(quorum: QuorumState, actions: seq<Action>): seq<Effect> {
    if actions == [] then [] else PersistEffects(quorum, actions[0]) + FirstPass(quorum, actions[1..])
  }

  function LogAfterOne(log: seq<LogEntry>, action: Action): seq<LogEntry> {
    match action
    case AppendToLog(entry) => log + [entry]
    case TruncateLog(offset) => Truncated(log, offset)
    case _ => log
  }

  function LogAfter(log: seq<LogEntry>, actions: seq<Action>): seq<LogEntry>
    decreases |actions|
  {
    if actions == [] then log else LogAfter(LogAfterOne(log, actions[0]), actions[1..])
  }

  function SentEffects(envelopes: seq<Envelope>): seq<Effect> {
    seq(|envelopes|, i requires 0 <= i < |envelopes| => Sent(envelopes[i]))
  }

  function Answers(waiting: map<nat, nat>, proposeId: nat, committed: bool): seq<Effect> {
    if proposeId in waiting then [Replied(waiting[proposeId], proposeId, committed)] else []
  }

  function NotifyEffects(from: nat, waiting: map<nat, nat>, action: Action): seq<Effect> {
    match action
    case ResetElectionTimer => [ElectionTimerReset]
    case ResetHeartbeatTimer => [HeartbeatTimerReset]
    case CommitPropose(proposeId) => Answers(waiting, proposeId, true)
    case RejectPropose(proposeId) => Answers(waiting, proposeId, false)
    case _ => SentEffects(Sends(from, action))
  }

  function WaitingAfterOne(waiting: map<nat, nat>, action: Action): map<nat, nat> {
    match action
    case CommitPropose(proposeId) => waiting - {proposeId}
    case RejectPropose(proposeId) => waiting - {proposeId}
    case _ => waiting
  }

  function SecondPass(from: nat, waiting: map<nat, nat>, actions: seq<Action>): seq<Effect>
    decreases |actions|
  {
    if actions == [] then []
    else NotifyEffects(from, waiting, actions[0]) + SecondPass(from, WaitingAfterOne(waiting, actions[0]), actions[1..])
  }

  function WaitingAfter(waiting: map<nat, nat>, actions: seq<Action>): map<nat, nat>
    decreases |actions|
  {
    if actions == [] then waiting else WaitingAfter(WaitingAfterOne(waiting, actions[0]), actions[1..])
  }

  function AppliedAfter(hwm: nat, actions: seq<Action>): nat
    decreases |actions|
  {
    if actions == [] then hwm
    else AppliedAfter(if actions[0].AdvanceHighWatermark? then actions[0].offset else hwm, actions[1..])
  }

  /** The first pass, one action further along the list. */
  lemma FirstPassUnfolds(quorum: QuorumState, log: seq<LogEntry>, actions: seq<Action>, i: nat)
    requires i < |actions|
    ensures var a, rest, next := actions[i], actions[i..], actions[i + 1..];
            && FirstPass(quorum, rest) == PersistEffects(quorum, a) + FirstPass(quorum, next)
            && LogAfter(log, rest) == LogAfter(LogAfterOne(log, a), next)
            && (PersistQuorumState in actions[..i + 1] <==> PersistQuorumState in actions[..i] || a.PersistQuorumState?)
  {
    assert actions[i..][1..] == actions[i + 1..];
    assert actions[..i + 1] == actions[..i] + [actions[i]];
  }

  /** And the second. */
  lemma SecondPassUnfolds(from: nat, waiting: map<nat, nat>, hwm: nat, actions: seq<Action>, i: nat)
    requires i < |actions|
    ensures var a, rest, next := actions[i], actions[i..], actions[i + 1..];
            && SecondPass(from, waiting, rest) == NotifyEffects(from, waiting, a) + SecondPass(from, WaitingAfterOne(waiting, a), next)
            && WaitingAfter(waiting, rest) == WaitingAfter(WaitingAfterOne(waiting, a), next)
            && AppliedAfter(hwm, rest) == AppliedAfter(if a.AdvanceHighWatermark? then a.offset else hwm, next)
  {
    hide NotifyEffects, WaitingAfterOne;
    assert actions[i..][1..] == actions[i + 1..];
  }

  /** Executes a node's actions; `r.node` is already the node after the event. */
  function Execute(r: RunnerState, actions: seq<Action>): Progress {
    Progress(
      r.(log := LogAfter(r.log, actions),
         disk := if PersistQuorumState in actions then r.node.QuorumStateOf() else r.disk,
         waiting := WaitingAfter(r.waiting, actions),
         lastAppliedHwm := AppliedAfter(r.lastAppliedHwm, actions)),
      FirstPass(r.node.QuorumStateOf(), actions) + SecondPass(r.node.id, r.waiting, actions))
  }

  function EventOf(r: RunnerState, input: Input): Event {
    match input
    case Network(event) => event
    case Proposal(data, _) => Propose(data, r.nextProposeId)
    case ElectionElapsed => ElectionTimeout
    case HeartbeatElapsed => HeartbeatTimeout
  }

  function Registered(r: RunnerState, input: Input): RunnerState {
    if input.Proposal? then
      r.(nextProposeId := r.nextProposeId + 1, waiting := r.waiting[r.nextProposeId := input.client])
    else r
  }

  ghost function Advance(r: RunnerState, input: Input): Progress {
    var outcome := Handle(r.node, r.log, EventOf(r, input));
    Execute(Registered(r, input).(node := outcome.state), outcome.actions)
  }

  /** A whole run: every input in turn. */
  ghost function RunAll(r: RunnerState, inputs: seq<Input>): Progress {
    if inputs == [] then Progress(r, [])
    else
      var before := RunAll(r, inputs[..|inputs| - 1]);
      var last := Advance(before.state, inputs[|inputs| - 1]);
      Progress(last.state, before.effects + last.effects)
  }

  /** A runner as spawned: the node restarted from disk, nobody waiting. */
  ghost predicate Spawned(r: RunnerState) {
    && r.node == Restarted(r.node.id, r.node.voters, r.disk)
    && r.waiting == map[] && r.nextProposeId == 0
  }
}
