/** The values that cross the boundary of a Raft node: log entries, requests and
    responses, the events a node consumes and the actions it emits. */
module RaftTypes {
  import opened Bytes
  import opened Options

  datatype LogEntry = LogEntry(epoch: nat, offset: nat, data: seq<byte>)

  datatype VoteRequest = VoteRequest(epoch: nat, candidateId: nat, lastLogEpoch: nat, lastLogOffset: nat)

  datatype VoteResponse = VoteResponse(epoch: nat, granted: bool)

  datatype FetchRequest = FetchRequest(epoch: nat, fetchOffset: nat, lastFetchedEpoch: nat)

  datatype Diverging = Diverging(epoch: nat, endOffset: nat)

  datatype FetchResponse =
    FetchResponse(epoch: nat, highWatermark: nat, entries: seq<LogEntry>, diverging: Option<Diverging>)

  datatype BeginQuorumEpochRequest = BeginQuorumEpochRequest(epoch: nat, leaderId: nat)

  datatype ReplicaState = ReplicaState(id: nat, logEndOffset: nat)

  datatype EndQuorumEpochRequest = EndQuorumEpochRequest(epoch: nat, leaderId: nat, voters: seq<ReplicaState>)

  datatype Event =
    | ElectionTimeout
    | HeartbeatTimeout
    | VoteRequestEvent(from: nat, voteRequest: VoteRequest)
    | VoteResponseEvent(from: nat, voteResponse: VoteResponse)
    | BeginQuorumEpochEvent(from: nat, begin: BeginQuorumEpochRequest)
    | EndQuorumEpochEvent(from: nat, end: EndQuorumEpochRequest)
    | FetchRequestEvent(from: nat, fetchRequest: FetchRequest)
    | FetchResponseEvent(from: nat, fetchResponse: FetchResponse)
    | Propose(data: seq<byte>, proposeId: nat)

  datatype Action =
    | PersistQuorumState
    | AppendToLog(entry: LogEntry)
    | TruncateLog(truncateTo: nat)
    | SendVote(to: nat, voteRequest: VoteRequest)
    | SendVoteResponse(to: nat, voteResponse: VoteResponse)
    | SendBeginQuorumEpoch(targets: seq<nat>, begin: BeginQuorumEpochRequest)
    | SendEndQuorumEpoch(targets: seq<nat>, end: EndQuorumEpochRequest)
    | SendFetchResponse(to: nat, fetchResponse: FetchResponse)
    | SendFetchRequest(to: nat, fetchRequest: FetchRequest)
    | ResetElectionTimer
    | ResetHeartbeatTimer
    | AdvanceHighWatermark(offset: nat)
    | CommitPropose(proposeId: nat)
    | RejectPropose(proposeId: nat)

  datatype Role = Follower | Candidate | Leader

  /** The part of a node's state that survives a crash. */
  datatype QuorumState = QuorumState(currentEpoch: nat, votedFor: Option<nat>)

  /** A proposal the leader has appended but not yet seen committed. */
  datatype Pending = Pending(offset: nat, proposeId: nat)

  datatype RaftMessage =
    | VoteMessage(voteRequest: VoteRequest)
    | VoteResponseMessage(voteResponse: VoteResponse)
    | BeginQuorumEpochMessage(begin: BeginQuorumEpochRequest)
    | EndQuorumEpochMessage(end: EndQuorumEpochRequest)
    | FetchRequestMessage(fetchRequest: FetchRequest)
    | FetchResponseMessage(fetchResponse: FetchResponse)
}
