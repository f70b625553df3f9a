/** What the runner puts on the network for a list of actions. */
module Transport {
  import opened RaftTypes

  datatype Envelope = Envelope(from: nat, to: nat, message: RaftMessage)

  function ToAll(from: nat, targets: seq<nat>, message: RaftMessage): seq<Envelope> {
    seq(|targets|, i requires 0 <= i < |targets| => Envelope(from, targets[i], message))
  }

  function Sends(from: nat, action: Action): seq<Envelope> {
    match action
    case SendVote(to, req) => [Envelope(from, to, VoteMessage(req))]
    case SendVoteResponse(to, resp) => [Envelope(from, to, VoteResponseMessage(resp))]
    case SendBeginQuorumEpoch(targets, req) => ToAll(from, targets, BeginQuorumEpochMessage(req))
    case SendEndQuorumEpoch(targets, req) => ToAll(from, targets, EndQuorumEpochMessage(req))
    case SendFetchResponse(to, resp) => [Envelope(from, to, FetchResponseMessage(resp))]
    case SendFetchRequest(to, req) => [Envelope(from, to, FetchRequestMessage(req))]
    case _ => []
  }

  function Outbox(from: nat, actions: seq<Action>): seq<Envelope> {
    if actions == [] then [] else Sends(from, actions[0]) + Outbox(from, actions[1..])
  }

  /** A vote response on its way was sent by an action of the node it names as sender. */
  lemma {:induction false} VoteResponseWasSent(from: nat, actions: seq<Action>, envelope: Envelope)
    requires envelope in Outbox(from, actions) && envelope.message.VoteResponseMessage?
    ensures envelope.from == from
    ensures SendVoteResponse(envelope.to, envelope.message.voteResponse) in actions
    decreases |actions|
  {
    if envelope !in Sends(from, actions[0]) {
      VoteResponseWasSent(from, actions[1..], envelope);
    }
  }
}
