/** What one event does to a node, for every event and every log. */
module NodeFacts {
  import opened Options
  import opened RaftTypes
  import opened FlatLog
  import opened NodeSpec

  lemma {:induction false} RejectionsOnly(pending: seq<Pending>)
    ensures forall a :: a in Rejections(pending) ==> a.RejectPropose?
    decreases |pending|
  {
    if pending != [] { RejectionsOnly(pending[1..]); }
  }

  lemma {:induction false} CommitsOnly(pending: seq<Pending>, highWatermark: nat)
    ensures forall a :: a in Commits(pending, highWatermark) ==> a.CommitPropose?
    decreases |pending|
  {
    if pending != [] { CommitsOnly(pending[1..], highWatermark); }
  }

  lemma {:induction false} SendVotesOnly(targets: seq<nat>, req: VoteRequest)
    ensures forall a :: a in SendVotes(targets, req) ==> a.SendVote?
    decreases |targets|
  {
    if targets != [] { SendVotesOnly(targets[1..], req); }
  }

  lemma {:induction false} AppendsOnly(entries: seq<LogEntry>)
    ensures forall a :: a in Appends(entries) ==> a.AppendToLog?
    decreases |entries|
  {
    if entries != [] { AppendsOnly(entries[1..]); }
  }

  lemma {:induction false} HeartbeatsOnly(s: NodeState, log: seq<LogEntry>, targets: seq<nat>)
    ensures forall a :: a in Heartbeats(s, log, targets) ==> a.SendFetchResponse?
    decreases |targets|
  {
    if targets != [] { HeartbeatsOnly(s, log, targets[1..]); }
  }

  // ---- what one event emits ------------------------------------------------

  /** The kinds of action each event can lead to. */
  predicate CanEmit(event: Event, a: Action) {
    match event
    case ElectionTimeout =>
      a.PersistQuorumState? || a.ResetElectionTimer? || a.ResetHeartbeatTimer? || a.SendVote? || a.SendBeginQuorumEpoch?
    case HeartbeatTimeout => a.ResetHeartbeatTimer? || a.SendFetchResponse?
    case VoteRequestEvent(_, _) => a.PersistQuorumState? || a.ResetElectionTimer? || a.SendVoteResponse?
    case VoteResponseEvent(_, _) => a.PersistQuorumState? || a.ResetHeartbeatTimer? || a.SendBeginQuorumEpoch?
    case BeginQuorumEpochEvent(_, _) => a.PersistQuorumState? || a.ResetElectionTimer? || a.RejectPropose?
    case EndQuorumEpochEvent(_, _) => a.PersistQuorumState? || a.ResetElectionTimer? || a.RejectPropose?
    case FetchRequestEvent(_, _) =>
      a.PersistQuorumState? || a.SendFetchResponse? || a.AdvanceHighWatermark? || a.CommitPropose?
    case FetchResponseEvent(_, _) =>
      || a.PersistQuorumState? || a.ResetElectionTimer? || a.RejectPropose? || a.TruncateLog?
      || a.AppendToLog? || a.AdvanceHighWatermark? || a.CommitPropose?
    case Propose(_, _) => a.RejectPropose? || a.AppendToLog?
  }

  lemma ElectionTimeoutEmits(s: NodeState, log: seq<LogEntry>)
    ensures forall a :: a in HandleElectionTimeout(s, log).actions ==> CanEmit(ElectionTimeout, a)
  {
    hide SendVotes, Others;
    SendVotesOnly(Others(s.voters, s.id), VoteRequest(s.currentEpoch + 1, s.id, LastEpoch(log), EndOffset(log)));
  }

  lemma AdvanceEmits(s: NodeState, log: seq<LogEntry>)
    ensures forall a :: a in TryAdvanceHighWatermark(s, log).actions ==> a.AdvanceHighWatermark? || a.CommitPropose?
  {
    hide Commits, EpochAt, QuorumOffset, IsQuorumOffset, StillPending;
    CommitsOnly(s.pending, TryAdvanceHighWatermark(s, log).state.highWatermark);
  }

  lemma FetchRequestEmits(s: NodeState, log: seq<LogEntry>, from: nat, req: FetchRequest)
    ensures forall a :: a in HandleFetchRequest(s, log, from, req).actions ==> CanEmit(FetchRequestEvent(from, req), a)
  {
    hide TryAdvanceHighWatermark, CheckDivergence, EntriesBetween;
    AdvanceEmits(if from in s.voters then s.(voterFetchOffsets := s.voterFetchOffsets[from := req.fetchOffset]) else s, log);
  }

  lemma FetchResponseEmits(s: NodeState, log: seq<LogEntry>, from: nat, resp: FetchResponse)
    ensures forall a :: a in HandleFetchResponse(s, log, resp).actions ==> CanEmit(FetchResponseEvent(from, resp), a)
  {
    hide Appends, Commits, Rejections, StillPending, EndOffset;
    RejectionsOnly(s.pending);
    AppendsOnly(resp.entries);
    CommitsOnly(s.pending, Min(resp.highWatermark, EndOffset(log)));
  }

  /** Every action of every event is of a kind that event can lead to. */
  lemma EventEmits(s: NodeState, log: seq<LogEntry>, event: Event)
    ensures forall a :: a in Handle(s, log, event).actions ==> CanEmit(event, a)
  {
    hide HandleElectionTimeout, HandleFetchRequest, HandleFetchResponse, Heartbeats, Rejections, Others, IsLogUpToDate;
    RejectionsOnly(s.pending);
    match event
    case ElectionTimeout => ElectionTimeoutEmits(s, log);
    case HeartbeatTimeout => HeartbeatsOnly(s, log, Others(s.voters, s.id));
    case FetchRequestEvent(from, req) => FetchRequestEmits(s, log, from, req);
    case FetchResponseEvent(from, resp) => FetchResponseEmits(s, log, from, resp);
    case _ =>
  }

  // ---- what one event does to epoch, vote and collected votes --------------

  /** Whenever an event changes the epoch or the vote, the runner is told to persist;
      epochs never go back; identity and voter list never change. */
  lemma PersistCoversChange(s: NodeState, log: seq<LogEntry>, event: Event)
    ensures var outcome := Handle(s, log, event);
            && (outcome.state.QuorumStateOf() != s.QuorumStateOf() ==> PersistQuorumState in outcome.actions)
            && outcome.state.currentEpoch >= s.currentEpoch
            && outcome.state.id == s.id && outcome.state.voters == s.voters
  {
    hide EpochAt, EpochStart, EntriesBetween, IsLogUpToDate, QuorumOffset, IsQuorumOffset, StillPending, Commits, Rejections, Appends, SendVotes, Others, Heartbeats;
  }

  /** A granted vote response goes to the sender of the vote request being handled, in the
      node's epoch, and only if the vote was free or already that candidate's. */
  lemma GrantNeedsFreeVote(s: NodeState, log: seq<LogEntry>, event: Event, candidate: nat, epoch: nat)
    requires SendVoteResponse(candidate, VoteResponse(epoch, true)) in Handle(s, log, event).actions
    ensures event.VoteRequestEvent? && event.from == candidate
    ensures var t := Handle(s, log, event).state;
            t.currentEpoch == epoch && t.votedFor == Some(candidate)
    ensures s.currentEpoch < epoch || (s.currentEpoch == epoch && (s.votedFor == None || s.votedFor == Some(candidate)))
  {
    hide HandleElectionTimeout, HandleHeartbeatTimeout, HandleVoteRequest, HandleVoteResponse, HandleBeginQuorumEpoch,
      HandleEndQuorumEpoch, HandleFetchRequest, HandleFetchResponse, HandlePropose;
    EventEmits(s, log, event);
    GrantIsFree(s, log, event.from, event.voteRequest, candidate, epoch);
  }

  lemma GrantIsFree(s: NodeState, log: seq<LogEntry>, from: nat, req: VoteRequest, candidate: nat, epoch: nat)
    requires SendVoteResponse(candidate, VoteResponse(epoch, true)) in HandleVoteRequest(s, log, from, req).actions
    ensures from == candidate
    ensures var t := HandleVoteRequest(s, log, from, req).state; t.currentEpoch == epoch && t.votedFor == Some(candidate)
    ensures s.currentEpoch < epoch || (s.currentEpoch == epoch && (s.votedFor == None || s.votedFor == Some(candidate)))
  {
    hide IsLogUpToDate;
  }

  /** The four ways an event can leave the collected votes. */
  ghost predicate VotesMoved(s: NodeState, event: Event, t: NodeState) {
    || t.votesReceived == {}
    || (t.votesReceived == s.votesReceived && t.currentEpoch == s.currentEpoch)
    || (event.ElectionTimeout? && s.role != Leader && t.votesReceived == {s.id} && t.votedFor == Some(s.id))
    || (event.VoteResponseEvent? && event.voteResponse == VoteResponse(s.currentEpoch, true)
        && t.currentEpoch == s.currentEpoch && t.votesReceived == s.votesReceived + {event.from})
  }

  ghost predicate LeaderHasVotes(s: NodeState) { s.role == Leader ==> |s.votesReceived| >= s.Majority() }

  /** Collected votes change in one of these ways, and a leader keeps a majority of them. */
  lemma VotesAfter(s: NodeState, log: seq<LogEntry>, event: Event)
    ensures VotesMoved(s, event, Handle(s, log, event).state)
    ensures LeaderHasVotes(s) ==> LeaderHasVotes(Handle(s, log, event).state)
  {
    hide HandleElectionTimeout, HandleVoteResponse, HandleFetchRequest, HandleFetchResponse, Rejections, Others, Heartbeats,
      IsLogUpToDate;
    match event
    case ElectionTimeout => VotesAfterTimeout(s, log);
    case VoteResponseEvent(from, resp) => VotesAfterResponse(s, from, resp);
    case FetchRequestEvent(from, req) => VotesAfterFetchRequest(s, log, from, req);
    case FetchResponseEvent(from, resp) => VotesAfterFetchResponse(s, log, from, resp);
    case _ =>
  }

  lemma VotesAfterTimeout(s: NodeState, log: seq<LogEntry>)
    ensures var t := HandleElectionTimeout(s, log).state;
            VotesMoved(s, ElectionTimeout, t) && (LeaderHasVotes(s) ==> LeaderHasVotes(t))
  {
    hide SendVotes, Others, NewFetchOffsets;
    assert |{s.id}| == 1;
  }

  lemma VotesAfterResponse(s: NodeState, from: nat, resp: VoteResponse)
    ensures var t := HandleVoteResponse(s, from, resp).state;
            VotesMoved(s, VoteResponseEvent(from, resp), t) && (LeaderHasVotes(s) ==> LeaderHasVotes(t))
  {
    hide Others, NewFetchOffsets;
  }

  lemma VotesAfterFetchRequest(s: NodeState, log: seq<LogEntry>, from: nat, req: FetchRequest)
    ensures var t := HandleFetchRequest(s, log, from, req).state;
            VotesMoved(s, FetchRequestEvent(from, req), t) && (LeaderHasVotes(s) ==> LeaderHasVotes(t))
  {
    hide CheckDivergence, EntriesBetween, EpochAt, QuorumOffset, IsQuorumOffset, StillPending, Commits;
  }

  lemma VotesAfterFetchResponse(s: NodeState, log: seq<LogEntry>, from: nat, resp: FetchResponse)
    ensures var t := HandleFetchResponse(s, log, resp).state;
            VotesMoved(s, FetchResponseEvent(from, resp), t) && (LeaderHasVotes(s) ==> LeaderHasVotes(t))
  {
    hide StillPending, Commits, Appends, Rejections;
  }
}
