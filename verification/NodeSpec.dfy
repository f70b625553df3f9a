/** What one Raft node does with an event, as a function of its state and its log.
    The class `RaftNode.Node` is proved to compute exactly this. */
module NodeSpec {
  import opened Bytes
  import opened Options
  import opened RaftTypes
  import opened FlatLog

  datatype NodeState = NodeState(
    id: nat,
    voters: seq<nat>,
    currentEpoch: nat,
    votedFor: Option<nat>,
    role: Role,
    leaderId: Option<nat>,
    votesReceived: set<nat>,
    voterFetchOffsets: map<nat, nat>,
    highWatermark: nat,
    pending: seq<Pending>)
  {
    function QuorumStateOf(): QuorumState { QuorumState(currentEpoch, votedFor) }

    function Majority(): nat { |voters| / 2 + 1 }
  }

  datatype Outcome = Outcome(state: NodeState, actions: seq<Action>)

  /** A node started from what it persisted. */
  function Restarted(id: nat, voters: seq<nat>, persisted: QuorumState): NodeState {
    NodeState(id, voters, persisted.currentEpoch, persisted.votedFor, Follower, None, {}, map[], 0, [])
  }

  // ---- helpers -------------------------------------------------------------

  function BecomeFollower(s: NodeState, epoch: nat, leaderId: Option<nat>): NodeState {
    s.(currentEpoch := epoch, role := Follower, leaderId := leaderId, votedFor := None, votesReceived := {})
  }

  function Others(voters: seq<nat>, id: nat): seq<nat> {
    if voters == [] then []
    else (if voters[0] != id then [voters[0]] else []) + Others(voters[1..], id)
  }

  function Rejections(pending: seq<Pending>): seq<Action> {
    if pending == [] then [] else [RejectPropose(pending[0].proposeId)] + Rejections(pending[1..])
  }

  function SendVotes(targets: seq<nat>, req: VoteRequest): seq<Action> {
    if targets == [] then [] else [SendVote(targets[0], req)] + SendVotes(targets[1..], req)
  }

  function Appends(entries: seq<LogEntry>): seq<Action> {
    if entries == [] then [] else [AppendToLog(entries[0])] + Appends(entries[1..])
  }

  function NewFetchOffsets(voters: seq<nat>, id: nat): map<nat, nat> {
    map v | v in voters && v != id :: 0
  }

  function BecomeLeader(s: NodeState): Outcome {
    Outcome(
      s.(role := Leader, leaderId := Some(s.id), voterFetchOffsets := NewFetchOffsets(s.voters, s.id)),
      [ResetHeartbeatTimer,
       SendBeginQuorumEpoch(Others(s.voters, s.id), BeginQuorumEpochRequest(s.currentEpoch, s.id))])
  }

  predicate IsLogUpToDate(log: seq<LogEntry>, candidateEpoch: nat, candidateOffset: nat) {
    if candidateEpoch == LastEpoch(log) then candidateOffset >= EndOffset(log)
    else candidateEpoch > LastEpoch(log)
  }

  /** Proposals recorded below the watermark are committed, in order; the rest stay. */
  function StillPending(pending: seq<Pending>, highWatermark: nat): seq<Pending> {
    if pending == [] then []
    else (if pending[0].offset < highWatermark then [] else [pending[0]]) + StillPending(pending[1..], highWatermark)
  }

  function Commits(pending: seq<Pending>, highWatermark: nat): seq<Action> {
    if pending == [] then []
    else
      (if pending[0].offset < highWatermark then [CommitPropose(pending[0].proposeId)] else [])
      + Commits(pending[1..], highWatermark)
  }

  // ---- elections -----------------------------------------------------------

  function HandleElectionTimeout(s: NodeState, log: seq<LogEntry>): Outcome {
    if s.role == Leader then Outcome(s, [])
    else
      var c := s.(currentEpoch := s.currentEpoch + 1, role := Candidate, votedFor := Some(s.id), votesReceived := {s.id});
      if 1 >= c.Majority() then
        var won := BecomeLeader(c);
        Outcome(won.state, [PersistQuorumState, ResetElectionTimer] + won.actions)
      else
        Outcome(c, [PersistQuorumState, ResetElectionTimer]
                   + SendVotes(Others(c.voters, c.id), VoteRequest(c.currentEpoch, c.id, LastEpoch(log), EndOffset(log))))
  }

  function HandleVoteRequest(s: NodeState, log: seq<LogEntry>, from: nat, req: VoteRequest): Outcome {
    var t := if req.epoch > s.currentEpoch then BecomeFollower(s, req.epoch, None) else s;
    var persist := if req.epoch > s.currentEpoch then [PersistQuorumState] else [];
    if req.epoch < t.currentEpoch then
      Outcome(t, persist + [SendVoteResponse(from, VoteResponse(t.currentEpoch, false))])
    else if (t.votedFor == None || t.votedFor == Some(from)) && IsLogUpToDate(log, req.lastLogEpoch, req.lastLogOffset) then
      Outcome(t.(votedFor := Some(from)),
              persist + [PersistQuorumState, ResetElectionTimer, SendVoteResponse(from, VoteResponse(t.currentEpoch, true))])
    else
      Outcome(t, persist + [SendVoteResponse(from, VoteResponse(t.currentEpoch, false))])
  }

  function HandleVoteResponse(s: NodeState, from: nat, resp: VoteResponse): Outcome {
    if resp.epoch > s.currentEpoch then
      Outcome(BecomeFollower(s, resp.epoch, None), [PersistQuorumState])
    else if s.role != Candidate || resp.epoch != s.currentEpoch then Outcome(s, [])
    else if resp.granted then
      var t := s.(votesReceived := s.votesReceived + {from});
      if |t.votesReceived| >= t.Majority() then BecomeLeader(t) else Outcome(t, [])
    else Outcome(s, [])
  }

  function HandleBeginQuorumEpoch(s: NodeState, req: BeginQuorumEpochRequest): Outcome {
    if req.epoch >= s.currentEpoch then
      Outcome(BecomeFollower(s, req.epoch, Some(req.leaderId)).(pending := []),
              [PersistQuorumState, ResetElectionTimer] + Rejections(s.pending))
    else Outcome(s, [])
  }

  function HandleEndQuorumEpoch(s: NodeState, req: EndQuorumEpochRequest): Outcome {
    if req.epoch >= s.currentEpoch then
      Outcome(BecomeFollower(s, req.epoch, None).(pending := []),
              [PersistQuorumState, ResetElectionTimer] + Rejections(s.pending))
    else Outcome(s, [])
  }

  // ---- replication ---------------------------------------------------------

  function CheckDivergence(log: seq<LogEntry>, fetchOffset: nat, lastFetchedEpoch: nat): Option<Diverging> {
    if fetchOffset == 0 then None
    else if EpochAt(log, fetchOffset - 1) == Some(lastFetchedEpoch) then None
    else Some(Diverging(lastFetchedEpoch, EpochStart(log, lastFetchedEpoch)))
  }

  function AtOrBeyond(fetchOffsets: map<nat, nat>, offset: nat): set<nat> {
    set v | v in fetchOffsets && fetchOffsets[v] >= offset
  }

  /** How many replicas are at `offset` or beyond: the leader by its log end, the others
      by the offset they last fetched from. */
  function Reached(fetchOffsets: map<nat, nat>, logEnd: nat, offset: nat): nat {
    |AtOrBeyond(fetchOffsets, offset)| + if logEnd >= offset then 1 else 0
  }

  /** `offset` is reached by `quorum` replicas and nothing larger is. */
  ghost predicate IsQuorumOffset(fetchOffsets: map<nat, nat>, logEnd: nat, quorum: nat, offset: nat) {
    && Reached(fetchOffsets, logEnd, offset) >= quorum
    && forall larger: nat :: larger > offset ==> Reached(fetchOffsets, logEnd, larger) < quorum
  }

  lemma SubsetSize<T>(a: set<T>, b: set<T>)
    requires a <= b
    ensures |a| <= |b|
  {
    var rest := b - a;
    assert b == a + rest;
  }

  lemma QuorumOffsetUnique(fetchOffsets: map<nat, nat>, logEnd: nat, quorum: nat, a: nat, b: nat)
    requires IsQuorumOffset(fetchOffsets, logEnd, quorum, a)
    requires IsQuorumOffset(fetchOffsets, logEnd, quorum, b)
    ensures a == b
  {
  }

  lemma UpperBound(fetchOffsets: map<nat, nat>, logEnd: nat) returns (bound: nat)
    ensures logEnd < bound && forall v :: v in fetchOffsets ==> fetchOffsets[v] < bound
  {
    bound := logEnd + 1;
    var left := fetchOffsets.Keys;
    while left != {}
      invariant logEnd < bound && left <= fetchOffsets.Keys
      invariant forall v :: v in fetchOffsets && v !in left ==> fetchOffsets[v] < bound
      decreases left
    {
      var v :| v in left;
      if fetchOffsets[v] >= bound { bound := fetchOffsets[v] + 1; }
      left := left - {v};
    }
  }

  lemma QuorumOffsetExists(fetchOffsets: map<nat, nat>, logEnd: nat, quorum: nat) returns (offset: nat)
    requires 1 <= quorum <= |fetchOffsets| + 1
    ensures IsQuorumOffset(fetchOffsets, logEnd, quorum, offset)
  {
    var bound := UpperBound(fetchOffsets, logEnd);
    offset := bound;
    forall larger: nat | larger >= bound ensures Reached(fetchOffsets, logEnd, larger) == 0 {
      assert AtOrBeyond(fetchOffsets, larger) == {};
    }
    assert AtOrBeyond(fetchOffsets, 0) == fetchOffsets.Keys;
    while Reached(fetchOffsets, logEnd, offset) < quorum
      invariant forall larger: nat :: larger > offset ==> Reached(fetchOffsets, logEnd, larger) < quorum
      decreases offset
    {
      offset := offset - 1;
    }
  }

  /** The largest offset a quorum has reached. */
  ghost function QuorumOffset(fetchOffsets: map<nat, nat>, logEnd: nat, quorum: nat): (offset: nat)
    requires 1 <= quorum <= |fetchOffsets| + 1
    ensures IsQuorumOffset(fetchOffsets, logEnd, quorum, offset)
  {
    assert exists o: nat :: IsQuorumOffset(fetchOffsets, logEnd, quorum, o) by {
      var o := QuorumOffsetExists(fetchOffsets, logEnd, quorum);
    }
    var o: nat :| IsQuorumOffset(fetchOffsets, logEnd, quorum, o);
    o
  }

  ghost function TryAdvanceHighWatermark(s: NodeState, log: seq<LogEntry>): Outcome {
    if |s.voterFetchOffsets| + 1 < s.Majority() then Outcome(s, [])
    else
      var offset := QuorumOffset(s.voterFetchOffsets, EndOffset(log), s.Majority());
      if offset <= s.highWatermark then Outcome(s, [])
      else
        var at := EpochAt(log, offset - 1);
        if at.Some? && at.value != s.currentEpoch then Outcome(s, [])
        else
          Outcome(s.(highWatermark := offset, pending := StillPending(s.pending, offset)),
                  [AdvanceHighWatermark(offset)] + Commits(s.pending, offset))
  }

  function EmptyFetchResponse(s: NodeState, diverging: Option<Diverging>): FetchResponse {
    FetchResponse(s.currentEpoch, s.highWatermark, [], diverging)
  }

  ghost function HandleFetchRequest(s: NodeState, log: seq<LogEntry>, from: nat, req: FetchRequest): Outcome {
    if req.epoch > s.currentEpoch then
      var t := BecomeFollower(s, req.epoch, None);
      Outcome(t, [PersistQuorumState, SendFetchResponse(from, EmptyFetchResponse(t, None))])
    else if req.epoch < s.currentEpoch || s.role != Leader then
      Outcome(s, [SendFetchResponse(from, EmptyFetchResponse(s, None))])
    else
      var diverging := CheckDivergence(log, req.fetchOffset, req.lastFetchedEpoch);
      if diverging.Some? then
        Outcome(s, [SendFetchResponse(from, EmptyFetchResponse(s, diverging))])
      else
        var entries := EntriesBetween(log, req.fetchOffset, EndOffset(log));
        var t := if from in s.voters then s.(voterFetchOffsets := s.voterFetchOffsets[from := req.fetchOffset]) else s;
        var advanced := TryAdvanceHighWatermark(t, log);
        Outcome(advanced.state,
                [SendFetchResponse(from, FetchResponse(s.currentEpoch, s.highWatermark, entries, None))] + advanced.actions)
  }

  function Min(a: nat, b: nat): nat { if a <= b then a else b }

  function HandleFetchResponse(s: NodeState, log: seq<LogEntry>, resp: FetchResponse): Outcome {
    if resp.epoch > s.currentEpoch then
      Outcome(BecomeFollower(s, resp.epoch, None).(pending := []), [PersistQuorumState] + Rejections(s.pending))
    else if s.role != Follower then Outcome(s, [])
    else if resp.diverging.Some? then Outcome(s, [TruncateLog(resp.diverging.value.endOffset)])
    else if resp.highWatermark > s.highWatermark then
      var offset := Min(resp.highWatermark, EndOffset(log));
      Outcome(s.(highWatermark := offset, pending := StillPending(s.pending, offset)),
              Appends(resp.entries) + [AdvanceHighWatermark(offset)] + Commits(s.pending, offset) + [ResetElectionTimer])
    else
      Outcome(s, Appends(resp.entries) + [ResetElectionTimer])
  }

  function FetchOffsetOf(s: NodeState, voter: nat): nat {
    if voter in s.voterFetchOffsets then s.voterFetchOffsets[voter] else 0
  }

  function Heartbeats(s: NodeState, log: seq<LogEntry>, targets: seq<nat>): seq<Action> {
    if targets == [] then []
    else
      [SendFetchResponse(targets[0],
                         FetchResponse(s.currentEpoch, s.highWatermark,
                                       EntriesBetween(log, FetchOffsetOf(s, targets[0]), EndOffset(log)), None))]
      + Heartbeats(s, log, targets[1..])
  }

  function HandleHeartbeatTimeout(s: NodeState, log: seq<LogEntry>): Outcome {
    if s.role != Leader then Outcome(s, [])
    else Outcome(s, [ResetHeartbeatTimer] + Heartbeats(s, log, Others(s.voters, s.id)))
  }

  function HandlePropose(s: NodeState, log: seq<LogEntry>, data: seq<byte>, proposeId: nat): Outcome {
    if s.role != Leader then Outcome(s, [RejectPropose(proposeId)])
    else
      var offset := EndOffset(log);
      Outcome(s.(pending := s.pending + [Pending(offset, proposeId)]),
              [AppendToLog(LogEntry(s.currentEpoch, offset, data))])
  }

  ghost function Handle(s: NodeState, log: seq<LogEntry>, event: Event): Outcome {
    match event
    case ElectionTimeout => HandleElectionTimeout(s, log)
    case HeartbeatTimeout => HandleHeartbeatTimeout(s, log)
    case VoteRequestEvent(from, req) => HandleVoteRequest(s, log, from, req)
    case VoteResponseEvent(from, resp) => HandleVoteResponse(s, from, resp)
    case BeginQuorumEpochEvent(_, req) => HandleBeginQuorumEpoch(s, req)
    case EndQuorumEpochEvent(_, req) => HandleEndQuorumEpoch(s, req)
    case FetchRequestEvent(from, req) => HandleFetchRequest(s, log, from, req)
    case FetchResponseEvent(_, resp) => HandleFetchResponse(s, log, resp)
    case Propose(data, proposeId) => HandlePropose(s, log, data, proposeId)
  }
}
