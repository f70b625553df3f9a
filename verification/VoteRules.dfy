/** When votes are asked for, granted and won, said over the entries of the logs. */
module VoteRules {
  import opened Bytes
  import opened Options
  import opened RaftTypes
  import opened FlatLog
  import opened NodeSpec
  import NodeFacts

  // ---- granting ------------------------------------------------------------

  /** A log said to end before `offset`, with last epoch `epoch`, is not behind this one. */
  ghost predicate NotBehind(log: seq<LogEntry>, epoch: nat, offset: nat) {
    log == []
    || var last := log[|log| - 1];
       last.epoch < epoch || (last.epoch == epoch && last.offset + 1 <= offset)
  }

  lemma UpToDateIffNotBehind(log: seq<LogEntry>, epoch: nat, offset: nat)
    ensures IsLogUpToDate(log, epoch, offset) <==> NotBehind(log, epoch, offset)
  {
  }

  /** The vote of an epoch is the sender's to have: newly begun, not given, or given to it. */
  ghost predicate VoteIsFree(s: NodeState, from: nat, epoch: nat) {
    epoch > s.currentEpoch || (epoch == s.currentEpoch && (s.votedFor == None || s.votedFor == Some(from)))
  }

  /** For every event: a vote is granted exactly to the sender of a vote request, in its epoch,
      when the vote is free and the sender's log is not behind. */
  lemma GrantsIff(s: NodeState, log: seq<LogEntry>, event: Event, to: nat, epoch: nat)
    ensures SendVoteResponse(to, VoteResponse(epoch, true)) in Handle(s, log, event).actions <==>
              && event.VoteRequestEvent? && to == event.from && epoch == event.voteRequest.epoch
              && VoteIsFree(s, to, epoch)
              && NotBehind(log, event.voteRequest.lastLogEpoch, event.voteRequest.lastLogOffset)
  {
    hide HandleElectionTimeout, HandleHeartbeatTimeout, HandleVoteRequest, HandleVoteResponse, HandleBeginQuorumEpoch,
      HandleEndQuorumEpoch, HandleFetchRequest, HandleFetchResponse, HandlePropose, NotBehind;
    NodeFacts.EventEmits(s, log, event);
    if event.VoteRequestEvent? { RequestAnswered(s, log, event.from, event.voteRequest, to, VoteResponse(epoch, true)); }
  }

  /** A vote request gets one answer, in the epoch the voter is in by then, and the vote is
      recorded exactly as answered. */
  lemma RequestAnswered(s: NodeState, log: seq<LogEntry>, from: nat, req: VoteRequest, to: nat, resp: VoteResponse)
    ensures SendVoteResponse(to, resp) in HandleVoteRequest(s, log, from, req).actions <==>
              && to == from && resp.epoch == (if req.epoch > s.currentEpoch then req.epoch else s.currentEpoch)
              && (resp.granted <==> VoteIsFree(s, from, req.epoch) && NotBehind(log, req.lastLogEpoch, req.lastLogOffset))
    ensures HandleVoteRequest(s, log, from, req).state.votedFor ==
            if VoteIsFree(s, from, req.epoch) && NotBehind(log, req.lastLogEpoch, req.lastLogOffset) then Some(from)
            else if req.epoch > s.currentEpoch then None
            else s.votedFor
  {
    hide IsLogUpToDate, NotBehind;
    UpToDateIffNotBehind(log, req.lastLogEpoch, req.lastLogOffset);
    var o := HandleVoteRequest(s, log, from, req);
    var granted := VoteIsFree(s, from, req.epoch) && NotBehind(log, req.lastLogEpoch, req.lastLogOffset);
    var answer := SendVoteResponse(from, VoteResponse(o.state.currentEpoch, granted));
    assert o.actions[|o.actions| - 1] == answer;
  }

  // ---- asking --------------------------------------------------------------

  lemma {:induction false} OthersAre(voters: seq<nat>, id: nat, v: nat)
    ensures v in Others(voters, id) <==> v in voters && v != id
    decreases |voters|
  {
    if voters != [] {
      OthersAre(voters[1..], id, v);
      assert voters == [voters[0]] + voters[1..];
    }
  }

  lemma {:induction false} VotesSentTo(targets: seq<nat>, req: VoteRequest, v: nat, r: VoteRequest)
    ensures SendVote(v, r) in SendVotes(targets, req) <==> v in targets && r == req
    decreases |targets|
  {
    if targets != [] {
      VotesSentTo(targets[1..], req, v, r);
      assert targets == [targets[0]] + targets[1..];
    }
  }

  /** The request speaks for this log: its last epoch and its end, or zero for both. */
  ghost predicate Reports(r: VoteRequest, log: seq<LogEntry>) {
    if log == [] then r.lastLogEpoch == 0 && r.lastLogOffset == 0
    else r.lastLogEpoch == log[|log| - 1].epoch && r.lastLogOffset == log[|log| - 1].offset + 1
  }

  /** For every event: votes are asked for exactly when a node that does not lead and is not
      alone times out, from every other voter, for itself, in the next epoch, reporting its
      own log. */
  lemma AsksIff(s: NodeState, log: seq<LogEntry>, event: Event, v: nat, r: VoteRequest)
    ensures SendVote(v, r) in Handle(s, log, event).actions <==>
              && event.ElectionTimeout? && s.role != Leader && |s.voters| >= 2
              && v in s.voters && v != s.id
              && r.epoch == s.currentEpoch + 1 && r.candidateId == s.id && Reports(r, log)
  {
    hide HandleElectionTimeout, HandleHeartbeatTimeout, HandleVoteRequest, HandleVoteResponse, HandleBeginQuorumEpoch,
      HandleEndQuorumEpoch, HandleFetchRequest, HandleFetchResponse, HandlePropose, Reports;
    NodeFacts.EventEmits(s, log, event);
    if event.ElectionTimeout? { TimeoutAsks(s, log, v, r); }
  }

  lemma TimeoutAsks(s: NodeState, log: seq<LogEntry>, v: nat, r: VoteRequest)
    ensures SendVote(v, r) in HandleElectionTimeout(s, log).actions <==>
              && s.role != Leader && |s.voters| >= 2 && v in s.voters && v != s.id
              && r.epoch == s.currentEpoch + 1 && r.candidateId == s.id && Reports(r, log)
  {
    hide SendVotes, Others, NewFetchOffsets;
    var req := VoteRequest(s.currentEpoch + 1, s.id, LastEpoch(log), EndOffset(log));
    OthersAre(s.voters, s.id, v);
    VotesSentTo(Others(s.voters, s.id), req, v, r);
  }

  // ---- an exchange ---------------------------------------------------------

  /** The voter's log is ahead: a later last epoch, or the same one and more entries. */
  ghost predicate Ahead(voter: seq<LogEntry>, candidate: seq<LogEntry>) {
    voter != []
    && (candidate == []
        || var mine, yours := voter[|voter| - 1].epoch, candidate[|candidate| - 1].epoch;
           mine > yours || (mine == yours && |voter| > |candidate|))
  }

  /** Between nodes with gap-free logs: a voter asked by a candidate that times out grants it
      exactly when its vote in the new epoch is free and its own log is not ahead. */
  lemma ExchangeGrantsIff(c: NodeState, candidate: seq<LogEntry>, s: NodeState, voter: seq<LogEntry>, r: VoteRequest)
    requires Dense(candidate) && Dense(voter)
    requires SendVote(s.id, r) in Handle(c, candidate, ElectionTimeout).actions
    ensures var answer := SendVoteResponse(c.id, VoteResponse(c.currentEpoch + 1, true));
            answer in Handle(s, voter, VoteRequestEvent(c.id, r)).actions <==>
              VoteIsFree(s, c.id, c.currentEpoch + 1) && !Ahead(voter, candidate)
  {
    hide Handle;
    AsksIff(c, candidate, ElectionTimeout, s.id, r);
    GrantsIff(s, voter, VoteRequestEvent(c.id, r), c.id, c.currentEpoch + 1);
  }

  /** Of two logs at most one is ahead, so of two nodes one can always vote for the other; and
      being ahead passes along. */
  lemma AheadIsAnOrder(a: seq<LogEntry>, b: seq<LogEntry>, c: seq<LogEntry>)
    ensures !(Ahead(a, b) && Ahead(b, a))
    ensures Ahead(a, b) && Ahead(b, c) ==> Ahead(a, c)
    ensures !Ahead(a, b) && !Ahead(b, c) ==> !Ahead(a, c)
  {
  }

  // ---- winning -------------------------------------------------------------

  /** This event makes the votes collected in the epoch more than half of the voters. */
  ghost predicate Elects(s: NodeState, event: Event) {
    || (event.ElectionTimeout? && s.role != Leader && |s.voters| < 2)
    || (&& event.VoteResponseEvent? && s.role == Candidate
        && event.voteResponse == VoteResponse(s.currentEpoch, true)
        && 2 * |s.votesReceived + {event.from}| > |s.voters|)
  }

  /** What a leader starts with: its own id as leader, and every other voter at offset zero. */
  ghost predicate StartsLeading(t: NodeState) {
    && t.leaderId == Some(t.id)
    && (forall v :: v in t.voterFetchOffsets <==> v in t.voters && v != t.id)
    && (forall v :: v in t.voterFetchOffsets ==> t.voterFetchOffsets[v] == 0)
  }

  lemma BecomesLeader(s: NodeState)
    ensures var t := BecomeLeader(s).state;
            && t.role == Leader && StartsLeading(t)
            && t == s.(role := Leader, leaderId := t.leaderId, voterFetchOffsets := t.voterFetchOffsets)
  {
  }

  /** For every event: a node that does not lead comes to lead exactly when it is elected, and
      then with a fresh table. */
  lemma LeadsIffElected(s: NodeState, log: seq<LogEntry>, event: Event)
    requires s.role != Leader
    ensures var t := Handle(s, log, event).state;
            (t.role == Leader <==> Elects(s, event)) && (t.role == Leader ==> StartsLeading(t))
  {
    hide BecomeLeader, SendVotes, Others, Heartbeats, IsLogUpToDate, Rejections, Appends, Commits, StillPending,
      TryAdvanceHighWatermark, CheckDivergence, EntriesBetween;
    BecomesLeader(s.(currentEpoch := s.currentEpoch + 1, role := Candidate, votedFor := Some(s.id), votesReceived := {s.id}));
    if event.VoteResponseEvent? { BecomesLeader(s.(votesReceived := s.votesReceived + {event.from})); }
  }

  lemma BeginsSent(s: NodeState, to: seq<nat>, req: BeginQuorumEpochRequest)
    ensures SendBeginQuorumEpoch(to, req) in BecomeLeader(s).actions <==>
              to == Others(s.voters, s.id) && req == BeginQuorumEpochRequest(s.currentEpoch, s.id)
  {
  }

  /** For every event: the begin of an epoch is announced exactly by a node this event elects,
      in the epoch it leads, to the other voters and nobody else. */
  lemma AnnouncesIffElected(s: NodeState, log: seq<LogEntry>, event: Event, to: seq<nat>, req: BeginQuorumEpochRequest)
    ensures SendBeginQuorumEpoch(to, req) in Handle(s, log, event).actions ==>
              && Elects(s, event) && req == BeginQuorumEpochRequest(Handle(s, log, event).state.currentEpoch, s.id)
              && (forall v :: v in to <==> v in s.voters && v != s.id)
    ensures Elects(s, event) ==> exists targets ::
              SendBeginQuorumEpoch(targets, BeginQuorumEpochRequest(Handle(s, log, event).state.currentEpoch, s.id))
              in Handle(s, log, event).actions
  {
    hide BecomeLeader, SendVotes, Others, HandleFetchRequest, HandleFetchResponse, HandleHeartbeatTimeout,
      HandleVoteRequest, HandleBeginQuorumEpoch, HandleEndQuorumEpoch, HandlePropose;
    NodeFacts.EventEmits(s, log, event);
    forall v { OthersAre(s.voters, s.id, v); }
    NodeFacts.SendVotesOnly(Others(s.voters, s.id), VoteRequest(s.currentEpoch + 1, s.id, LastEpoch(log), EndOffset(log)));
    var c := s.(currentEpoch := s.currentEpoch + 1, role := Candidate, votedFor := Some(s.id), votesReceived := {s.id});
    BeginsSent(c, to, req);
    BeginsSent(c, Others(s.voters, s.id), BeginQuorumEpochRequest(c.currentEpoch, s.id));
    BecomesLeader(c);
    if event.VoteResponseEvent? {
      var t := s.(votesReceived := s.votesReceived + {event.from});
      BeginsSent(t, to, req);
      BeginsSent(t, Others(s.voters, s.id), BeginQuorumEpochRequest(s.currentEpoch, s.id));
      BecomesLeader(t);
    }
  }
}
