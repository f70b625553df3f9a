/** What a client may conclude from a commit reply: always that its proposal's recorded
    offset is below the watermark; that the proposal itself is there as long as the node,
    become a follower with proposals pending, never cut its log at or below one of them. */
module Commitment {
  import opened Bytes
  import opened RaftTypes
  import opened FlatLog
  import opened NodeSpec
  import opened RunnerSpec
  import opened Proposals
  import opened Watermark
  import NodeFacts
  import Persistence

  // ---- what one turn's commit reply means ----------------------------------

  lemma {:induction false} CommitsAreBelow(pending: seq<Pending>, highWatermark: nat, id: nat)
    requires CommitPropose(id) in Commits(pending, highWatermark)
    ensures exists p :: p in pending && p.proposeId == id && p.offset < highWatermark
    decreases |pending|
  {
    if pending[0].offset < highWatermark && pending[0].proposeId == id {
      assert pending[0] in pending;
    } else {
      CommitsAreBelow(pending[1..], highWatermark, id);
    }
  }

  lemma CommitActionIsBelow(s: NodeState, log: seq<LogEntry>, event: Event, id: nat)
    requires CommitPropose(id) in Handle(s, log, event).actions
    ensures exists p :: p in s.pending && p.proposeId == id && p.offset < Handle(s, log, event).state.highWatermark
    ensures event.FetchRequestEvent? || event.FetchResponseEvent?
  {
    hide HandleFetchRequest, HandleFetchResponse;
    CommitNeedsFetch(s, log, event, id);
    match event
    case FetchRequestEvent(from, req) => CommitOnFetchRequest(s, log, from, req, id);
    case FetchResponseEvent(_, resp) => CommitOnFetchResponse(s, log, resp, id);
  }

  lemma CommitNeedsFetch(s: NodeState, log: seq<LogEntry>, event: Event, id: nat)
    requires CommitPropose(id) in Handle(s, log, event).actions
    ensures event.FetchRequestEvent? || event.FetchResponseEvent?
  {
    hide Handle;
    NodeFacts.EventEmits(s, log, event);
  }

  lemma CommitOnFetchRequest(s: NodeState, log: seq<LogEntry>, from: nat, req: FetchRequest, id: nat)
    requires CommitPropose(id) in HandleFetchRequest(s, log, from, req).actions
    ensures exists p :: p in s.pending && p.proposeId == id && p.offset < HandleFetchRequest(s, log, from, req).state.highWatermark
  {
    hide Commits, CheckDivergence, EntriesBetween, EpochAt, QuorumOffset, IsQuorumOffset, StillPending;
    CommitsAreBelow(s.pending, HandleFetchRequest(s, log, from, req).state.highWatermark, id);
  }

  lemma CommitOnFetchResponse(s: NodeState, log: seq<LogEntry>, resp: FetchResponse, id: nat)
    requires CommitPropose(id) in HandleFetchResponse(s, log, resp).actions
    ensures exists p :: p in s.pending && p.proposeId == id && p.offset < HandleFetchResponse(s, log, resp).state.highWatermark
  {
    hide Commits, Rejections, Appends, StillPending;
    NodeFacts.RejectionsOnly(s.pending);
    NodeFacts.AppendsOnly(resp.entries);
    CommitsAreBelow(s.pending, HandleFetchResponse(s, log, resp).state.highWatermark, id);
  }

  lemma {:induction false} CommitReplyFromAction(from: nat, waiting: map<nat, nat>, actions: seq<Action>, client: nat,
          id: nat)
    requires Replied(client, id, true) in SecondPass(from, waiting, actions)
    ensures CommitPropose(id) in actions
    decreases |actions|
  {
    if Replied(client, id, true) !in NotifyEffects(from, waiting, actions[0]) {
      CommitReplyFromAction(from, WaitingAfterOne(waiting, actions[0]), actions[1..], client, id);
    }
  }

  /** In any turn, a commit reply is for a pending proposal recorded below the new watermark. */
  lemma CommitReplyIsBelowWatermark(r: RunnerState, input: Input, client: nat, id: nat)
    requires Replied(client, id, true) in Advance(r, input).effects
    ensures exists p :: p in r.node.pending && p.proposeId == id && p.offset < Advance(r, input).state.node.highWatermark
    ensures CommitPropose(id) in Handle(r.node, r.log, EventOf(r, input)).actions
  {
    hide Handle;
    var event := EventOf(r, input);
    var o := Handle(r.node, r.log, event);
    Persistence.FirstPassShape(o.state.QuorumStateOf(), o.actions);
    var reply := Replied(client, id, true);
    assert reply in SecondPass(o.state.id, Registered(r, input).waiting, o.actions);
    CommitReplyFromAction(o.state.id, Registered(r, input).waiting, o.actions, client, id);
    CommitActionIsBelow(r.node, r.log, event, id);
  }

  // ---- when the proposal itself is committed -------------------------------

  /** A follower still holding proposals takes a cut at or below where one was recorded. */
  ghost predicate CutsPending(s: NodeState, event: Event) {
    && event.FetchResponseEvent? && event.fetchResponse.epoch <= s.currentEpoch && s.role == Follower
    && event.fetchResponse.diverging.Some?
    && exists p :: p in s.pending && event.fetchResponse.diverging.value.endOffset <= p.offset
  }

  /** Each pending proposal's data is in the log where it was recorded. */
  ghost predicate Logged(s: NodeState, log: seq<LogEntry>, payloads: seq<seq<byte>>) {
    forall p :: p in s.pending ==> Carries(log, p.offset, payloads, p.proposeId)
  }

  ghost predicate Carries(log: seq<LogEntry>, offset: nat, payloads: seq<seq<byte>>, id: nat) {
    && id < |payloads| && offset < |log|
    && log[offset].offset == offset && log[offset].data == payloads[id]
  }

  /** For every event, in any role: what is pending stays logged exactly unless the event cuts
      it. */
  lemma EventKeepsLoggedIff(s: NodeState, log: seq<LogEntry>, event: Event, payloads: seq<seq<byte>>, more: seq<seq<byte>>)
    requires WellPlaced(s, log) && Logged(s, log, payloads)
    requires more == if event.Propose? then payloads + [event.data] else payloads
    requires event.Propose? ==> event.proposeId == |payloads|
    ensures var o := Handle(s, log, event);
            Logged(o.state, LogAfter(log, o.actions), more) <==> !CutsPending(s, event)
  {
    hide EpochAt, EntriesBetween, LogAfter, Appends, IsLogUpToDate, Rejections, SendVotes, Others, Heartbeats, Commits;
    EndOfDense(log);
    forall h { StillPendingSubset(s.pending, h); }
    match event
    case FetchResponseEvent(_, resp) =>
      LogAfterFetchResponse(s, log, resp);
      assert DenseFrom(log, 0);
      if resp.diverging.Some? { TruncatedDenseFrom(log, 0, resp.diverging.value.endOffset); }
    case Propose(data, proposeId) => ProposeAppends(s, log, data, proposeId);
    case _ => OtherEventsKeepLog(s, log, event);
  }

  /** The data of the proposals made so far: proposal id i carried the i-th of these. */
  function Payloads(inputs: seq<Input>): seq<seq<byte>> {
    if inputs == [] then []
    else
      var last := inputs[|inputs| - 1];
      Payloads(inputs[..|inputs| - 1]) + if last.Proposal? then [last.data] else []
  }

  lemma {:induction false} AsManyPayloads(inputs: seq<Input>)
    ensures |Payloads(inputs)| == |Clients(inputs)|
    decreases |inputs|
  {
    if inputs != [] { AsManyPayloads(inputs[..|inputs| - 1]); }
  }

  ghost predicate NextCuts(r: RunnerState, before: seq<Input>, input: Input) {
    var at := RunAll(r, before).state;
    CutsPending(at.node, EventOf(at, input))
  }

  ghost predicate NeverCuts(r: RunnerState, inputs: seq<Input>) {
    forall n :: 0 <= n < |inputs| ==> !NextCuts(r, inputs[..n], inputs[n])
  }

  ghost predicate LoggedAfter(r: RunnerState, inputs: seq<Input>) {
    var at := RunAll(r, inputs).state;
    Logged(at.node, at.log, Payloads(inputs))
  }

  /** After every number of inputs each pending proposal's data is in the log. */
  ghost predicate LoggedThroughout(r: RunnerState, inputs: seq<Input>) {
    forall n :: 0 <= n <= |inputs| ==> LoggedAfter(r, inputs[..n])
  }

  lemma LastOfCuts(r: RunnerState, inputs: seq<Input>, input: Input)
    ensures NeverCuts(r, inputs + [input]) <==> NeverCuts(r, inputs) && !NextCuts(r, inputs, input)
  {
    hide NextCuts;
    var all := inputs + [input];
    assert all[..|inputs|] == inputs && all[|inputs|] == input;
    forall k | 0 <= k < |inputs| ensures all[..k] == inputs[..k] && all[k] == inputs[k] {}
  }

  lemma LastOfLogged(r: RunnerState, inputs: seq<Input>, input: Input)
    ensures LoggedThroughout(r, inputs + [input]) <==> LoggedThroughout(r, inputs) && LoggedAfter(r, inputs + [input])
    ensures LoggedThroughout(r, inputs) ==> LoggedAfter(r, inputs)
  {
    hide LoggedAfter;
    var all := inputs + [input];
    assert all[..|all|] == all && inputs[..|inputs|] == inputs;
    forall k | 0 <= k <= |inputs| ensures all[..k] == inputs[..k] {}
  }

  lemma NextKeepsLogged(r: RunnerState, before: seq<Input>, input: Input)
    requires Spawned(r) && (forall i :: 0 <= i < |before| ==> ValidInput(before[i])) && ValidInput(input)
    requires PlacedAfter(r, before) && LoggedAfter(r, before)
    ensures LoggedAfter(r, before + [input]) <==> !NextCuts(r, before, input)
  {
    hide Handle, WellPlaced, Orderly, LogAfter, Logged, CutsPending, RunAll, Payloads, Spawned;
    var at := RunAll(r, before).state;
    ProposalsNumbered(r, before);
    OneMore(r, before, input);
    EventKeepsLoggedIff(at.node, at.log, EventOf(at, input), Payloads(before), Payloads(before + [input]));
  }

  lemma ProposalsNumbered(r: RunnerState, before: seq<Input>)
    requires Spawned(r) && forall i :: 0 <= i < |before| ==> ValidInput(before[i])
    ensures RunAll(r, before).state.nextProposeId == |Payloads(before)|
  {
    hide RunAll;
    ProposalsConserved(r, before);
    AsManyPayloads(before);
  }

  lemma OneMore(r: RunnerState, before: seq<Input>, input: Input)
    ensures RunAll(r, before + [input]).state == Advance(RunAll(r, before).state, input).state
    ensures Payloads(before + [input]) == Payloads(before) + if input.Proposal? then [input.data] else []
  {
    hide Advance;
    assert (before + [input])[..|before|] == before;
  }

  lemma NothingPending(r: RunnerState)
    requires Spawned(r)
    ensures LoggedThroughout(r, []) && NeverCuts(r, [])
  {
    var none: seq<Input> := [];
    assert none[..0] == none;
  }

  /** Over every orderly run, what is pending is in the log at every point exactly when no
      input cuts it. */
  lemma {:induction false} RunKeepsLoggedIff(r: RunnerState, inputs: seq<Input>)
    requires Spawned(r) && Dense(r.log) && OrderlyRun(r, inputs)
    requires forall i :: 0 <= i < |inputs| ==> ValidInput(inputs[i])
    ensures LoggedThroughout(r, inputs) <==> NeverCuts(r, inputs)
    decreases |inputs|
  {
    hide RunAll, OrderlyRun, OrderlyNext, PlacedThroughout, LoggedThroughout, NeverCuts, LoggedAfter, NextCuts;
    if inputs == [] {
      NothingPending(r);
    } else {
      var last := |inputs| - 1;
      var before := inputs[..last];
      assert before + [inputs[last]] == inputs;
      LastOfOrderly(r, before, inputs[last]);
      RunKeepsLoggedIff(r, before);
      LastOfCuts(r, before, inputs[last]);
      LastOfLogged(r, before, inputs[last]);
      RunKeepsWatermarkIff(r, inputs);
      LastOfPlaced(r, before, inputs[last]);
      if LoggedThroughout(r, before) { NextKeepsLogged(r, before, inputs[last]); }
    }
  }

  /** A commit leaves every entry of the log where it is. */
  lemma CommitKeepsEntries(s: NodeState, log: seq<LogEntry>, event: Event, id: nat)
    requires CommitPropose(id) in Handle(s, log, event).actions
    ensures log <= LogAfter(log, Handle(s, log, event).actions)
  {
    hide LogAfter, Appends, Commits, StillPending, TryAdvanceHighWatermark;
    CommitActionIsBelow(s, log, event, id);
    if event.FetchRequestEvent? {
      OtherEventsKeepLog(s, log, event);
    } else {
      LogAfterFetchResponse(s, log, event.fetchResponse);
    }
  }

  /** In a run that never cuts what is pending, a commit reply means the client's own entry
      is in the log below the watermark. */
  lemma CommitReplyMeansLogged(r: RunnerState, inputs: seq<Input>, input: Input, client: nat, id: nat)
    requires Spawned(r) && Dense(r.log) && OrderlyRun(r, inputs + [input]) && NeverCuts(r, inputs)
    requires forall i :: 0 <= i < |inputs| ==> ValidInput(inputs[i])
    requires Replied(client, id, true) in Advance(RunAll(r, inputs).state, input).effects
    ensures var end := Advance(RunAll(r, inputs).state, input).state;
            exists offset: nat :: offset < end.node.highWatermark <= |end.log| && Carries(end.log, offset, Payloads(inputs), id)
  {
    hide Handle, RunAll, LogAfter, Payloads, OrderlyRun, OrderlyNext, PlacedThroughout, LoggedThroughout, NeverCuts;
    LastOfOrderly(r, inputs, input);
    RunKeepsLoggedIff(r, inputs);
    RunKeepsWatermarkIff(r, inputs);
    LastOfPlaced(r, inputs, input);
    LastOfLogged(r, inputs, input);
    ReplyMeansCarried(r, inputs, input, client, id);
  }

  lemma ReplyMeansCarried(r: RunnerState, inputs: seq<Input>, input: Input, client: nat, id: nat)
    requires PlacedAfter(r, inputs) && OrderlyNext(r, inputs, input) && LoggedAfter(r, inputs)
    requires Replied(client, id, true) in Advance(RunAll(r, inputs).state, input).effects
    ensures var end := Advance(RunAll(r, inputs).state, input).state;
            exists offset: nat :: offset < end.node.highWatermark <= |end.log| && Carries(end.log, offset, Payloads(inputs), id)
  {
    hide Handle, RunAll, LogAfter, Payloads, Orderly;
    var at, end := RunAll(r, inputs).state, Advance(RunAll(r, inputs).state, input).state;
    var event := EventOf(at, input);
    EventKeepsWatermark(at.node, at.log, event);
    CommitReplyIsBelowWatermark(at, input, client, id);
    CommitKeepsEntries(at.node, at.log, event, id);
    var p :| p in at.node.pending && p.proposeId == id && p.offset < end.node.highWatermark;
    assert Carries(end.log, p.offset, Payloads(inputs), id);
  }
}
