/** What a turn of the runner does to the outside world, effect by effect. */
module Effects {
  import opened Bytes
  import opened Options
  import opened RaftTypes
  import opened FlatLog
  import opened NodeSpec
  import opened Transport
  import opened RunnerSpec
  import NodeFacts

  /** The action that puts a message on the network is among these. */
  ghost predicate IsSent(actions: seq<Action>, to: nat, message: RaftMessage) {
    match message
    case VoteMessage(req) => SendVote(to, req) in actions
    case VoteResponseMessage(resp) => SendVoteResponse(to, resp) in actions
    case BeginQuorumEpochMessage(req) => exists targets :: SendBeginQuorumEpoch(targets, req) in actions && to in targets
    case EndQuorumEpochMessage(req) => exists targets :: SendEndQuorumEpoch(targets, req) in actions && to in targets
    case FetchRequestMessage(req) => SendFetchRequest(to, req) in actions
    case FetchResponseMessage(resp) => SendFetchResponse(to, resp) in actions
  }

  /** An effect other than a reply is called for by these actions of node `from`. */
  ghost predicate IsCalledFor(from: nat, quorum: QuorumState, actions: seq<Action>, effect: Effect) {
    match effect
    case Persisted(q) => PersistQuorumState in actions && q == quorum
    case Appended(entry) => AppendToLog(entry) in actions
    case CutTo(offset) => TruncateLog(offset) in actions
    case Sent(envelope) => envelope.from == from && IsSent(actions, envelope.to, envelope.message)
    case ElectionTimerReset => ResetElectionTimer in actions
    case HeartbeatTimerReset => ResetHeartbeatTimer in actions
    case Replied(_, _, _) => false
  }

  /** One action calls for exactly the effects it has in the two passes. */
  lemma OneActionIff(from: nat, quorum: QuorumState, waiting: map<nat, nat>, action: Action, effect: Effect)
    requires !effect.Replied?
    ensures (effect in PersistEffects(quorum, action) || effect in NotifyEffects(from, waiting, action)) <==>
              IsCalledFor(from, quorum, [action], effect)
  {
    var envelopes := Sends(from, action);
    assert |SentEffects(envelopes)| == |envelopes|;
    forall i | 0 <= i < |envelopes| ensures SentEffects(envelopes)[i] == Sent(envelopes[i]) {}
    if effect.Sent? {
      assert effect in SentEffects(envelopes) <==> effect.envelope in envelopes by {
        if effect.envelope in envelopes {
          var i :| 0 <= i < |envelopes| && envelopes[i] == effect.envelope;
          assert SentEffects(envelopes)[i] == effect;
        }
      }
      OneSendIff(from, action, effect.envelope);
    }
  }

  lemma OneSendIff(from: nat, action: Action, envelope: Envelope)
    ensures envelope in Sends(from, action) <==> envelope.from == from && IsSent([action], envelope.to, envelope.message)
  {
    assert action in [action];
    match action
    case SendBeginQuorumEpoch(targets, req) => AllTold(from, targets, BeginQuorumEpochMessage(req), envelope);
    case SendEndQuorumEpoch(targets, req) => AllTold(from, targets, EndQuorumEpochMessage(req), envelope);
    case _ =>
  }

  lemma AllTold(from: nat, targets: seq<nat>, message: RaftMessage, envelope: Envelope)
    ensures envelope in ToAll(from, targets, message) <==>
              envelope.from == from && envelope.to in targets && envelope.message == message
  {
    var all := ToAll(from, targets, message);
    if envelope.from == from && envelope.to in targets && envelope.message == message {
      var i :| 0 <= i < |targets| && targets[i] == envelope.to;
      assert all[i] == envelope;
    }
  }

  lemma CalledForByEither(from: nat, quorum: QuorumState, a: seq<Action>, b: seq<Action>, effect: Effect)
    ensures IsCalledFor(from, quorum, a + b, effect) <==>
              IsCalledFor(from, quorum, a, effect) || IsCalledFor(from, quorum, b, effect)
  {
  }

  lemma {:induction false} PassesIff(from: nat, quorum: QuorumState, waiting: map<nat, nat>, actions: seq<Action>, effect: Effect)
    requires !effect.Replied?
    ensures (effect in FirstPass(quorum, actions) || effect in SecondPass(from, waiting, actions)) <==>
              IsCalledFor(from, quorum, actions, effect)
    decreases |actions|
  {
    hide PersistEffects, NotifyEffects, WaitingAfterOne, IsCalledFor;
    if actions == [] {
      NothingCalledFor(from, quorum, effect);
    } else {
      OneActionIff(from, quorum, waiting, actions[0], effect);
      PassesIff(from, quorum, WaitingAfterOne(waiting, actions[0]), actions[1..], effect);
      assert actions == [actions[0]] + actions[1..];
      CalledForByEither(from, quorum, [actions[0]], actions[1..], effect);
    }
  }

  lemma NothingCalledFor(from: nat, quorum: QuorumState, effect: Effect)
    ensures !IsCalledFor(from, quorum, [], effect)
  {
  }

  /** In every turn, an effect other than a reply happens exactly when the node's actions call
      for it: what is persisted is the node's epoch and vote by then, and every message goes out
      under the node's own id to whom it is addressed. */
  lemma TurnEffectsIff(r: RunnerState, input: Input, effect: Effect)
    requires !effect.Replied?
    ensures var o := Handle(r.node, r.log, EventOf(r, input));
            effect in Advance(r, input).effects <==>
              IsCalledFor(o.state.id, o.state.QuorumStateOf(), o.actions, effect)
  {
    hide Handle, FirstPass, SecondPass, IsCalledFor;
    var o := Handle(r.node, r.log, EventOf(r, input));
    PassesIff(o.state.id, o.state.QuorumStateOf(), Registered(r, input).waiting, o.actions, effect);
  }

  // ---- the applied watermark -----------------------------------------------

  /** Every announced watermark is the node's watermark by then, and every change is announced. */
  lemma MovesAnnounced(s: NodeState, log: seq<LogEntry>, event: Event, h: nat)
    ensures var o := Handle(s, log, event);
            && (AdvanceHighWatermark(h) in o.actions ==> h == o.state.highWatermark)
            && (o.state.highWatermark != s.highWatermark ==> AdvanceHighWatermark(o.state.highWatermark) in o.actions)
  {
    hide HandleElectionTimeout, TryAdvanceHighWatermark, CheckDivergence, EntriesBetween, HandleFetchResponse, Rejections,
      Heartbeats, Others, NewFetchOffsets, IsLogUpToDate;
    NodeFacts.EventEmits(s, log, event);
    match event
    case ElectionTimeout => TimeoutKeepsWatermark(s, log);
    case FetchRequestEvent(from, req) =>
      AdvanceAnnounced(if from in s.voters then s.(voterFetchOffsets := s.voterFetchOffsets[from := req.fetchOffset]) else s, log, h);
    case FetchResponseEvent(_, resp) => ResponseAnnounced(s, log, resp, h);
    case _ =>
  }

  lemma TimeoutKeepsWatermark(s: NodeState, log: seq<LogEntry>)
    ensures HandleElectionTimeout(s, log).state.highWatermark == s.highWatermark
  {
    hide SendVotes, Others, NewFetchOffsets;
  }

  lemma AdvanceAnnounced(t: NodeState, log: seq<LogEntry>, h: nat)
    ensures var o := TryAdvanceHighWatermark(t, log);
            && (AdvanceHighWatermark(h) in o.actions ==> h == o.state.highWatermark)
            && (o.state.highWatermark != t.highWatermark ==> AdvanceHighWatermark(o.state.highWatermark) in o.actions)
  {
    hide Commits, StillPending, EpochAt, QuorumOffset, IsQuorumOffset;
    NodeFacts.CommitsOnly(t.pending, TryAdvanceHighWatermark(t, log).state.highWatermark);
  }

  lemma ResponseAnnounced(s: NodeState, log: seq<LogEntry>, resp: FetchResponse, h: nat)
    ensures var o := HandleFetchResponse(s, log, resp);
            && (AdvanceHighWatermark(h) in o.actions ==> h == o.state.highWatermark)
            && (o.state.highWatermark != s.highWatermark ==> AdvanceHighWatermark(o.state.highWatermark) in o.actions)
  {
    hide Commits, StillPending, Appends, Rejections, EndOffset;
    NodeFacts.RejectionsOnly(s.pending);
    NodeFacts.AppendsOnly(resp.entries);
    NodeFacts.CommitsOnly(s.pending, HandleFetchResponse(s, log, resp).state.highWatermark);
  }

  lemma {:induction false} AppliedIs(hwm: nat, actions: seq<Action>, h: nat)
    requires forall a :: a in actions && a.AdvanceHighWatermark? ==> a.offset == h
    ensures AppliedAfter(hwm, actions) == if AdvanceHighWatermark(h) in actions then h else hwm
    decreases |actions|
  {
    if actions != [] {
      AppliedIs(if actions[0].AdvanceHighWatermark? then actions[0].offset else hwm, actions[1..], h);
      assert actions == [actions[0]] + actions[1..];
    }
  }

  /** Over every run, what the runner has applied is the node's watermark, if it was at first. */
  lemma {:induction false} AppliedFollowsWatermark(r: RunnerState, inputs: seq<Input>)
    requires r.lastAppliedHwm == r.node.highWatermark
    ensures RunAll(r, inputs).state.lastAppliedHwm == RunAll(r, inputs).state.node.highWatermark
    decreases |inputs|
  {
    hide Handle, LogAfter, WaitingAfter, AppliedAfter, FirstPass, SecondPass;
    if inputs != [] {
      var n := |inputs| - 1;
      AppliedFollowsWatermark(r, inputs[..n]);
      var at := RunAll(r, inputs[..n]).state;
      var o := Handle(at.node, at.log, EventOf(at, inputs[n]));
      forall h { MovesAnnounced(at.node, at.log, EventOf(at, inputs[n]), h); }
      AppliedIs(at.lastAppliedHwm, o.actions, o.state.highWatermark);
    }
  }
}
