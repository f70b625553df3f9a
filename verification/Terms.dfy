/** What every event does to a node's epoch, role, known leader and timers. */
module Terms {
  import opened Bytes
  import opened Options
  import opened RaftTypes
  import opened FlatLog
  import opened NodeSpec
  import NodeFacts
  import VoteRules

  /** The epoch a message speaks of. */
  function SpokenEpoch(event: Event): Option<nat> {
    match event
    case VoteRequestEvent(_, req) => Some(req.epoch)
    case VoteResponseEvent(_, resp) => Some(resp.epoch)
    case BeginQuorumEpochEvent(_, req) => Some(req.epoch)
    case EndQuorumEpochEvent(_, req) => Some(req.epoch)
    case FetchRequestEvent(_, req) => Some(req.epoch)
    case FetchResponseEvent(_, resp) => Some(resp.epoch)
    case _ => None
  }

  /** The event speaks of an epoch later than the node's. */
  ghost predicate IsNews(s: NodeState, event: Event) {
    SpokenEpoch(event).Some? && SpokenEpoch(event).value > s.currentEpoch
  }

  /** The event begins or ends the node's epoch or a later one. */
  ghost predicate TurnsEpoch(s: NodeState, event: Event) {
    (event.BeginQuorumEpochEvent? || event.EndQuorumEpochEvent?) && SpokenEpoch(event).value >= s.currentEpoch
  }

  ghost predicate StartsElection(s: NodeState, event: Event) { event.ElectionTimeout? && s.role != Leader }

  /** For every event: the epoch goes up by one when an election is started, to the epoch spoken
      of when that is later, and not otherwise. */
  lemma EpochAfter(s: NodeState, log: seq<LogEntry>, event: Event)
    ensures Handle(s, log, event).state.currentEpoch ==
            if StartsElection(s, event) then s.currentEpoch + 1
            else if IsNews(s, event) then SpokenEpoch(event).value
            else s.currentEpoch
  {
    hide CheckDivergence, EntriesBetween, EpochAt, QuorumOffset, IsQuorumOffset, IsLogUpToDate, StillPending, Commits,
      Appends, Rejections, SendVotes, Others, Heartbeats, NewFetchOffsets;
  }

  /** For every event: a node is a follower afterwards exactly when a later epoch, a begin or an
      end made it one, or it was one and neither started an election nor was elected. */
  lemma FollowsAfterIff(s: NodeState, log: seq<LogEntry>, event: Event)
    ensures Handle(s, log, event).state.role == Follower <==>
              IsNews(s, event) || TurnsEpoch(s, event) || (s.role == Follower && !event.ElectionTimeout?)
    ensures s.role == Leader ==>
              (Handle(s, log, event).state.role == Leader <==> !IsNews(s, event) && !TurnsEpoch(s, event))
  {
    hide CheckDivergence, EntriesBetween, EpochAt, QuorumOffset, IsQuorumOffset, IsLogUpToDate, StillPending, Commits,
      Appends, Rejections, SendVotes, Others, Heartbeats, NewFetchOffsets;
  }

  /** For every event: the leader known afterwards is the sender of an accepted begin, the node
      itself once elected, nobody after any other news or end, and otherwise who it was. */
  lemma LeaderAfter(s: NodeState, log: seq<LogEntry>, event: Event)
    ensures Handle(s, log, event).state.leaderId ==
            if event.BeginQuorumEpochEvent? && TurnsEpoch(s, event) then Some(event.begin.leaderId)
            else if IsNews(s, event) || TurnsEpoch(s, event) then None
            else if VoteRules.Elects(s, event) then Some(s.id)
            else s.leaderId
  {
    hide CheckDivergence, EntriesBetween, EpochAt, QuorumOffset, IsQuorumOffset, IsLogUpToDate, StillPending, Commits,
      Appends, Rejections, SendVotes, Others, Heartbeats, NewFetchOffsets;
  }

  // ---- timers --------------------------------------------------------------

  /** For every event: the election timer is put back exactly when the node starts an election,
      gives away its vote, hears its epoch turned, or as a follower takes in a fetch response
      that does not cut. */
  lemma ElectionTimerIff(s: NodeState, log: seq<LogEntry>, event: Event)
    ensures ResetElectionTimer in Handle(s, log, event).actions <==>
              || StartsElection(s, event)
              || (event.VoteRequestEvent?
                  && VoteRules.VoteIsFree(s, event.from, event.voteRequest.epoch)
                  && VoteRules.NotBehind(log, event.voteRequest.lastLogEpoch, event.voteRequest.lastLogOffset))
              || TurnsEpoch(s, event)
              || (event.FetchResponseEvent? && !IsNews(s, event) && s.role == Follower && event.fetchResponse.diverging == None)
  {
    hide HandleFetchRequest, HandleHeartbeatTimeout, HandlePropose, HandleVoteResponse, Rejections, Appends, Commits, StillPending,
      SendVotes, Others, NewFetchOffsets, IsLogUpToDate, VoteRules.NotBehind;
    NodeFacts.EventEmits(s, log, event);
    match event
    case VoteRequestEvent(_, req) => VoteRules.UpToDateIffNotBehind(log, req.lastLogEpoch, req.lastLogOffset);
    case FetchResponseEvent(_, resp) => FetchResponseResets(s, log, resp);
    case _ =>
  }

  lemma FetchResponseResets(s: NodeState, log: seq<LogEntry>, resp: FetchResponse)
    ensures ResetElectionTimer in HandleFetchResponse(s, log, resp).actions <==>
              resp.epoch <= s.currentEpoch && s.role == Follower && resp.diverging == None
  {
    hide Appends, Commits, StillPending, Rejections;
    NodeFacts.RejectionsOnly(s.pending);
    var actions := HandleFetchResponse(s, log, resp).actions;
    if resp.epoch <= s.currentEpoch && s.role == Follower && resp.diverging == None {
      assert actions[|actions| - 1] == ResetElectionTimer;
    }
  }

  /** For every event: the heartbeat timer is put back exactly when the node is elected, or
      leads and sends its heartbeats. */
  lemma HeartbeatTimerIff(s: NodeState, log: seq<LogEntry>, event: Event)
    ensures ResetHeartbeatTimer in Handle(s, log, event).actions <==>
              VoteRules.Elects(s, event) || (event.HeartbeatTimeout? && s.role == Leader)
  {
    hide HandleFetchRequest, HandleFetchResponse, HandleVoteRequest, HandleBeginQuorumEpoch, HandleEndQuorumEpoch,
      HandlePropose, SendVotes, Others, Heartbeats, NewFetchOffsets;
    NodeFacts.EventEmits(s, log, event);
    NodeFacts.SendVotesOnly(Others(s.voters, s.id), VoteRequest(s.currentEpoch + 1, s.id, LastEpoch(log), EndOffset(log)));
  }
}
