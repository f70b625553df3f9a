/** Proposals are conserved between the node's pending list and the runner's reply table:
    every proposal is answered at most once, to the client that made it, and is otherwise
    still waiting in both. */
module Proposals {
  import opened Bytes
  import opened Options
  import opened RaftTypes
  import opened FlatLog
  import opened NodeSpec
  import opened Transport
  import opened RunnerSpec
  import NodeFacts
  import Persistence

  function Ids(pending: seq<Pending>): set<nat> {
    set p | p in pending :: p.proposeId
  }

  ghost predicate DistinctIds(pending: seq<Pending>) {
    forall i, j :: 0 <= i < j < |pending| ==> pending[i].proposeId != pending[j].proposeId
  }

  /** The proposals these actions answer, one way or the other. */
  function Answered(actions: seq<Action>): set<nat> {
    set a | a in actions && (a.CommitPropose? || a.RejectPropose?) :: a.proposeId
  }

  // ---- the node ------------------------------------------------------------

  lemma AnsweredConcat(a: seq<Action>, b: seq<Action>)
    ensures Answered(a + b) == Answered(a) + Answered(b)
  {
  }

  lemma {:induction false} RejectionsAnswerAll(pending: seq<Pending>)
    ensures Answered(Rejections(pending)) == Ids(pending)
    decreases |pending|
  {
    if pending != [] {
      RejectionsAnswerAll(pending[1..]);
      AnsweredConcat([RejectPropose(pending[0].proposeId)], Rejections(pending[1..]));
      assert RejectPropose(pending[0].proposeId) in [RejectPropose(pending[0].proposeId)];
      assert Answered([RejectPropose(pending[0].proposeId)]) == {pending[0].proposeId};
      assert pending == [pending[0]] + pending[1..];
      assert Ids(pending) == {pending[0].proposeId} + Ids(pending[1..]);
    } else {
      assert Answered(Rejections(pending)) == {};
    }
  }

  /** Committing splits the pending list by offset: nothing is lost, nothing in both parts. */
  lemma {:induction false} CommitsSplitPending(pending: seq<Pending>, highWatermark: nat)
    requires DistinctIds(pending)
    ensures DistinctIds(StillPending(pending, highWatermark))
    ensures Answered(Commits(pending, highWatermark)) + Ids(StillPending(pending, highWatermark)) == Ids(pending)
    ensures Answered(Commits(pending, highWatermark)) !! Ids(StillPending(pending, highWatermark))
    decreases |pending|
  {
    hide Answered, Ids, DistinctIds;
    if pending == [] {
      NoAnswers([]);
      NoIds();
    } else {
      var head, tail := pending[0], pending[1..];
      HeadApart(pending);
      CommitsSplitPending(tail, highWatermark);
      if head.offset < highWatermark {
        assert [] + StillPending(tail, highWatermark) == StillPending(tail, highWatermark);
        CommitAnswers(head.proposeId);
        AnsweredConcat([CommitPropose(head.proposeId)], Commits(tail, highWatermark));
      } else {
        assert [] + Commits(tail, highWatermark) == Commits(tail, highWatermark);
        HeadJoins(head, StillPending(tail, highWatermark));
      }
    }
  }

  lemma NoIds()
    ensures Ids([]) == {} && DistinctIds([])
  {
  }

  lemma CommitAnswers(id: nat)
    ensures Answered([CommitPropose(id)]) == {id}
  {
    assert CommitPropose(id) in [CommitPropose(id)];
  }

  lemma HeadApart(pending: seq<Pending>)
    requires pending != [] && DistinctIds(pending)
    ensures DistinctIds(pending[1..]) && pending[0].proposeId !in Ids(pending[1..])
    ensures Ids(pending) == {pending[0].proposeId} + Ids(pending[1..])
  {
    assert pending == [pending[0]] + pending[1..];
  }

  lemma HeadJoins(head: Pending, rest: seq<Pending>)
    requires DistinctIds(rest) && head.proposeId !in Ids(rest)
    ensures DistinctIds([head] + rest) && Ids([head] + rest) == {head.proposeId} + Ids(rest)
  {
    forall i | 0 <= i < |rest| ensures rest[i].proposeId in Ids(rest) {}
  }

  lemma {:induction false} StillPendingSubset(pending: seq<Pending>, highWatermark: nat)
    ensures forall p :: p in StillPending(pending, highWatermark) ==> p in pending
    decreases |pending|
  {
    if pending != [] { StillPendingSubset(pending[1..], highWatermark); }
  }

  lemma NoAnswers(actions: seq<Action>)
    requires forall a :: a in actions ==> !a.CommitPropose? && !a.RejectPropose?
    ensures Answered(actions) == {}
  {
  }

  /** What the ids in play are after an event. */
  ghost function Played(s: NodeState, event: Event): set<nat> {
    Ids(s.pending) + if event.Propose? then {event.proposeId} else {}
  }

  /** The outcome keeps or answers each of these ids, never both, never neither. */
  ghost predicate Accounted(ids: set<nat>, o: Outcome) {
    && DistinctIds(o.state.pending)
    && Answered(o.actions) + Ids(o.state.pending) == ids
    && Answered(o.actions) !! Ids(o.state.pending)
  }

  /** An outcome that answers nothing keeps them all. */
  lemma KeptAccounts(s: NodeState, o: Outcome)
    requires DistinctIds(s.pending) && o.state.pending == s.pending
    requires forall a :: a in o.actions ==> !a.CommitPropose? && !a.RejectPropose?
    ensures Accounted(Ids(s.pending), o)
  {
    hide Answered, Ids;
    NoAnswers(o.actions);
  }

  /** One that rejects them all, after these actions, keeps none. */
  lemma RejectedAccounts(s: NodeState, o: Outcome, prefix: seq<Action>)
    requires o.state.pending == [] && o.actions == prefix + Rejections(s.pending)
    requires forall a :: a in prefix ==> !a.CommitPropose? && !a.RejectPropose?
    ensures Accounted(Ids(s.pending), o)
  {
    hide Answered, Rejections;
    RejectionsAnswerAll(s.pending);
    AnsweredConcat(prefix, Rejections(s.pending));
    NoAnswers(prefix);
    assert Ids([]) == {};
  }

  /** One that commits those below a watermark, between these actions, keeps the others. */
  lemma CommittedAccounts(s: NodeState, o: Outcome, prefix: seq<Action>, h: nat, suffix: seq<Action>)
    requires DistinctIds(s.pending) && o.state.pending == StillPending(s.pending, h)
    requires o.actions == prefix + Commits(s.pending, h) + suffix
    requires forall a :: a in prefix + suffix ==> !a.CommitPropose? && !a.RejectPropose?
    ensures Accounted(Ids(s.pending), o)
  {
    hide Answered, Commits, StillPending, Ids;
    CommitsSplitPending(s.pending, h);
    AnsweredConcat(prefix, Commits(s.pending, h));
    AnsweredConcat(prefix + Commits(s.pending, h), suffix);
    NoAnswers(prefix);
    NoAnswers(suffix);
  }

  /** Every event either keeps a proposal pending or answers it, never both, never neither. */
  lemma EventAccounts(s: NodeState, log: seq<LogEntry>, event: Event)
    requires DistinctIds(s.pending)
    requires event.Propose? ==> event.proposeId !in Ids(s.pending)
    ensures Accounted(Played(s, event), Handle(s, log, event))
  {
    hide Accounted, Ids, DistinctIds, HandleFetchRequest, HandleFetchResponse, HandlePropose, Rejections;
    if event.Propose? {
      ProposeAccounts(s, log, event.data, event.proposeId);
    } else {
      assert Played(s, event) == Ids(s.pending);
      match event
      case BeginQuorumEpochEvent(_, req) => BeginAccounts(s, req);
      case EndQuorumEpochEvent(_, req) => EndAccounts(s, req);
      case FetchRequestEvent(from, req) => FetchRequestAccounts(s, log, from, req);
      case FetchResponseEvent(_, resp) => FetchResponseAccounts(s, log, resp);
      case _ =>
        SilentEventKeeps(s, log, event);
        KeptAccounts(s, Handle(s, log, event));
    }
  }

  /** Elections, heartbeats and votes answer no proposal and drop none. */
  lemma SilentEventKeeps(s: NodeState, log: seq<LogEntry>, event: Event)
    requires event.ElectionTimeout? || event.HeartbeatTimeout? || event.VoteRequestEvent? || event.VoteResponseEvent?
    ensures Handle(s, log, event).state.pending == s.pending
    ensures forall a :: a in Handle(s, log, event).actions ==> !a.CommitPropose? && !a.RejectPropose?
  {
    hide SendVotes, Others, Heartbeats, IsLogUpToDate, NewFetchOffsets;
    NodeFacts.EventEmits(s, log, event);
  }

  lemma BeginAccounts(s: NodeState, req: BeginQuorumEpochRequest)
    requires DistinctIds(s.pending)
    ensures Accounted(Ids(s.pending), HandleBeginQuorumEpoch(s, req))
  {
    hide Accounted, Ids, Rejections;
    var o := HandleBeginQuorumEpoch(s, req);
    if req.epoch >= s.currentEpoch { RejectedAccounts(s, o, [PersistQuorumState, ResetElectionTimer]); } else { KeptAccounts(s, o); }
  }

  lemma EndAccounts(s: NodeState, req: EndQuorumEpochRequest)
    requires DistinctIds(s.pending)
    ensures Accounted(Ids(s.pending), HandleEndQuorumEpoch(s, req))
  {
    hide Accounted, Ids, Rejections;
    var o := HandleEndQuorumEpoch(s, req);
    if req.epoch >= s.currentEpoch { RejectedAccounts(s, o, [PersistQuorumState, ResetElectionTimer]); } else { KeptAccounts(s, o); }
  }

  lemma FetchRequestAccounts(s: NodeState, log: seq<LogEntry>, from: nat, req: FetchRequest)
    requires DistinctIds(s.pending)
    ensures Accounted(Ids(s.pending), HandleFetchRequest(s, log, from, req))
  {
    hide Accounted, Ids, CheckDivergence, EntriesBetween, Commits, StillPending, EpochAt, QuorumOffset, IsQuorumOffset;
    var o := HandleFetchRequest(s, log, from, req);
    var h := o.state.highWatermark;
    if h != s.highWatermark {
      var response := o.actions[..1];
      CommittedAccounts(s, o, response + [AdvanceHighWatermark(h)], h, []);
    } else {
      KeptAccounts(s, o);
    }
  }

  lemma FetchResponseAccounts(s: NodeState, log: seq<LogEntry>, resp: FetchResponse)
    requires DistinctIds(s.pending)
    ensures Accounted(Ids(s.pending), HandleFetchResponse(s, log, resp))
  {
    hide Accounted, Ids, Appends, Commits, Rejections, StillPending;
    var o := HandleFetchResponse(s, log, resp);
    NodeFacts.AppendsOnly(resp.entries);
    if resp.epoch > s.currentEpoch {
      RejectedAccounts(s, o, [PersistQuorumState]);
    } else if s.role == Follower && resp.diverging == None && resp.highWatermark > s.highWatermark {
      var h := o.state.highWatermark;
      CommittedAccounts(s, o, Appends(resp.entries) + [AdvanceHighWatermark(h)], h, [ResetElectionTimer]);
    } else {
      KeptAccounts(s, o);
    }
  }

  lemma ProposeAccounts(s: NodeState, log: seq<LogEntry>, data: seq<byte>, proposeId: nat)
    requires DistinctIds(s.pending) && proposeId !in Ids(s.pending)
    ensures Accounted(Ids(s.pending) + {proposeId}, HandlePropose(s, log, data, proposeId))
  {
    if s.role != Leader {
      assert RejectPropose(proposeId) in [RejectPropose(proposeId)];
      assert Answered([RejectPropose(proposeId)]) == {proposeId};
    } else {
      var p := Pending(EndOffset(log), proposeId);
      NoAnswers(HandlePropose(s, log, data, proposeId).actions);
      assert Ids(s.pending + [p]) == Ids(s.pending) + {proposeId};
    }
  }

  // ---- the runner ----------------------------------------------------------

  /** The ids replied to, in order. */
  function RepliedIds(effects: seq<Effect>): seq<nat> {
    if effects == [] then []
    else (if effects[0].Replied? then [effects[0].proposeId] else []) + RepliedIds(effects[1..])
  }

  function AsSet(ids: seq<nat>): set<nat> { set id | id in ids }

  ghost predicate NoDuplicates(ids: seq<nat>) {
    forall i, j :: 0 <= i < j < |ids| ==> ids[i] != ids[j]
  }

  lemma DisjointConcat(a: seq<nat>, b: seq<nat>)
    requires NoDuplicates(a) && NoDuplicates(b) && AsSet(a) !! AsSet(b)
    ensures NoDuplicates(a + b) && AsSet(a + b) == AsSet(a) + AsSet(b)
  {
    forall i, j | 0 <= i < |a| && 0 <= j < |b| ensures a[i] != b[j] {
      assert a[i] in AsSet(a) && b[j] in AsSet(b);
    }
  }

  lemma {:induction false} RepliedConcat(a: seq<Effect>, b: seq<Effect>)
    ensures RepliedIds(a + b) == RepliedIds(a) + RepliedIds(b)
    decreases |a|
  {
    if a == [] {
      assert a + b == b;
    } else {
      assert (a + b)[1..] == a[1..] + b && (a + b)[0] == a[0];
      RepliedConcat(a[1..], b);
      var head := if a[0].Replied? then [a[0].proposeId] else [];
      assert RepliedIds(a) == head + RepliedIds(a[1..]);
      assert RepliedIds(a + b) == head + RepliedIds(a[1..] + b);
      assert (head + RepliedIds(a[1..])) + RepliedIds(b) == head + (RepliedIds(a[1..]) + RepliedIds(b));
    }
  }

  lemma {:induction false} NoReplies(effects: seq<Effect>)
    requires forall i :: 0 <= i < |effects| ==> !effects[i].Replied?
    ensures RepliedIds(effects) == []
    decreases |effects|
  {
    if effects != [] { NoReplies(effects[1..]); }
  }

  /** Replies go to the client recorded for the proposal. */
  ghost predicate RightClients(effects: seq<Effect>, clients: map<nat, nat>) {
    forall e :: e in effects && e.Replied? ==> e.proposeId in clients && e.client == clients[e.proposeId]
  }

  lemma OneActionReplies(from: nat, waiting: map<nat, nat>, action: Action)
    ensures var ids, left := RepliedIds(NotifyEffects(from, waiting, action)), WaitingAfterOne(waiting, action);
            && NoDuplicates(ids) && AsSet(ids) == waiting.Keys - left.Keys
            && left.Keys == waiting.Keys - Answered([action])
            && left == map id | id in waiting && id in left :: waiting[id]
    ensures RightClients(NotifyEffects(from, waiting, action), waiting)
  {
    var now := NotifyEffects(from, waiting, action);
    if action.CommitPropose? || action.RejectPropose? {
      assert action in [action];
      assert Answered([action]) == {action.proposeId};
      if action.proposeId in waiting {
        assert now[1..] == [];
        assert RepliedIds(now) == [action.proposeId];
      } else {
        NoReplies(now);
      }
    } else {
      NoAnswers([action]);
      NoReplies(now);
    }
  }

  /** The second pass replies once to each waiting proposal its actions answer, and those
      leave the table. */
  lemma {:induction false} RepliesAreRemovals(from: nat, waiting: map<nat, nat>, actions: seq<Action>)
    ensures var ids, left := RepliedIds(SecondPass(from, waiting, actions)), WaitingAfter(waiting, actions);
            && NoDuplicates(ids) && AsSet(ids) == waiting.Keys - left.Keys
            && left.Keys == waiting.Keys - Answered(actions)
            && (forall id :: id in left ==> left[id] == waiting[id])
    ensures RightClients(SecondPass(from, waiting, actions), waiting)
    decreases |actions|
  {
    if actions == [] {
      NoAnswers(actions);
    } else {
      var head, tail := actions[0], actions[1..];
      var next := WaitingAfterOne(waiting, head);
      var now, later := NotifyEffects(from, waiting, head), SecondPass(from, next, tail);
      OneActionReplies(from, waiting, head);
      RepliesAreRemovals(from, next, tail);
      assert actions == [head] + tail;
      assert SecondPass(from, waiting, actions) == now + later && WaitingAfter(waiting, actions) == WaitingAfter(next, tail);
      hide *;
      RepliedConcat(now, later);
      DisjointConcat(RepliedIds(now), RepliedIds(later));
      AnsweredConcat([head], tail);
    }
  }

  /** The pending list and the reply table name the same proposals. */
  ghost predicate Tracked(r: RunnerState) {
    && r.waiting.Keys == Ids(r.node.pending) && DistinctIds(r.node.pending)
    && forall id :: id in r.waiting ==> id < r.nextProposeId
  }

  /** One turn: the tables stay in step, and the replies are exactly the proposals that were
      waiting (the new one included) and no longer are, each to the client that made it. */
  lemma TurnConserves(r: RunnerState, input: Input)
    requires Tracked(r) && ValidInput(input)
    ensures var p, before := Advance(r, input), Registered(r, input);
            var ids := RepliedIds(p.effects);
            && Tracked(p.state) && p.state.nextProposeId == before.nextProposeId
            && NoDuplicates(ids) && AsSet(ids) == before.waiting.Keys - p.state.waiting.Keys
            && p.state.waiting.Keys <= before.waiting.Keys
            && (forall id :: id in p.state.waiting ==> p.state.waiting[id] == before.waiting[id])
            && RightClients(p.effects, before.waiting)
  {
    hide Handle, FirstPass, SecondPass, RepliedIds, Answered;
    var event := EventOf(r, input);
    var o := Handle(r.node, r.log, event);
    var before := Registered(r, input).(node := o.state);
    EventAccounts(r.node, r.log, event);
    RepliesAreRemovals(o.state.id, before.waiting, o.actions);
    Persistence.FirstPassShape(o.state.QuorumStateOf(), o.actions);
    NoReplies(FirstPass(o.state.QuorumStateOf(), o.actions));
    RepliedConcat(FirstPass(o.state.QuorumStateOf(), o.actions), SecondPass(o.state.id, before.waiting, o.actions));
    assert before.waiting.Keys == Played(r.node, event);
  }

  // ---- whole runs ----------------------------------------------------------

  /** The clients that made proposals, in order: proposal id i was made by client i of these. */
  function Clients(inputs: seq<Input>): seq<nat> {
    if inputs == [] then []
    else
      var last := inputs[|inputs| - 1];
      Clients(inputs[..|inputs| - 1]) + if last.Proposal? then [last.client] else []
  }

  function ClientMap(clients: seq<nat>): map<nat, nat> {
    map id: nat | id < |clients| :: clients[id]
  }

  /** Over any sequence of inputs to a freshly spawned runner: each proposal made so far is
      either waiting (in both tables) or has been replied to, exactly once and to the client
      that made it; none is in neither place and none in both. */
  lemma {:induction false} ProposalsConserved(r: RunnerState, inputs: seq<Input>)
    requires Spawned(r) && forall i :: 0 <= i < |inputs| ==> ValidInput(inputs[i])
    ensures var p := RunAll(r, inputs);
            var ids, clients := RepliedIds(p.effects), ClientMap(Clients(inputs));
            && Tracked(p.state)
            && NoDuplicates(ids) && AsSet(ids) !! p.state.waiting.Keys
            && AsSet(ids) + p.state.waiting.Keys == clients.Keys
            && (forall id :: id in p.state.waiting ==> id in clients && p.state.waiting[id] == clients[id])
            && RightClients(p.effects, clients)
            && p.state.nextProposeId == |Clients(inputs)|
    decreases |inputs|
  {
    if inputs != [] {
      var n := |inputs| - 1;
      ProposalsConserved(r, inputs[..n]);
      TurnConserves(RunAll(r, inputs[..n]).state, inputs[n]);
      TurnJoins(RunAll(r, inputs[..n]), inputs[n], Clients(inputs[..n]), Clients(inputs));
    }
  }

  /** Joining one turn to a conserved run. */
  lemma TurnJoins(before: Progress, input: Input, clients: seq<nat>, more: seq<nat>)
    requires ValidInput(input) && Tracked(before.state) && before.state.nextProposeId == |clients|
    requires more == clients + if input.Proposal? then [input.client] else []
    requires var ids := RepliedIds(before.effects);
             && NoDuplicates(ids) && AsSet(ids) !! before.state.waiting.Keys
             && AsSet(ids) + before.state.waiting.Keys == ClientMap(clients).Keys
    requires forall id :: id in before.state.waiting ==> id in ClientMap(clients) && before.state.waiting[id] == ClientMap(clients)[id]
    requires RightClients(before.effects, ClientMap(clients))
    ensures var p := Advance(before.state, input);
            var effects := before.effects + p.effects;
            && NoDuplicates(RepliedIds(effects)) && AsSet(RepliedIds(effects)) !! p.state.waiting.Keys
            && AsSet(RepliedIds(effects)) + p.state.waiting.Keys == ClientMap(more).Keys
            && (forall id :: id in p.state.waiting ==> id in ClientMap(more) && p.state.waiting[id] == ClientMap(more)[id])
            && RightClients(effects, ClientMap(more))
            && p.state.nextProposeId == |more|
  {
    hide Advance, RepliedIds, AsSet, NoDuplicates, Tracked;
    var p, registered := Advance(before.state, input), Registered(before.state, input);
    TurnConserves(before.state, input);
    RepliedConcat(before.effects, p.effects);
    var earlier, later := RepliedIds(before.effects), RepliedIds(p.effects);
    assert ClientMap(more).Keys == ClientMap(clients).Keys + if input.Proposal? then {|clients|} else {};
    assert registered.waiting.Keys == before.state.waiting.Keys + if input.Proposal? then {|clients|} else {};
    assert |clients| !in ClientMap(clients).Keys;
    DisjointConcat(earlier, later);
  }
}
