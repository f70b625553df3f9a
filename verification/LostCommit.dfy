/** The condition of `Commitment.CommitReplyMeansLogged` is needed: an orderly run, with one cut
    at a pending proposal, in which a client is told its proposal is committed although no
    entry of the log carries it. */
module LostCommit {
  import opened Bytes
  import opened Options
  import opened RaftTypes
  import opened FlatLog
  import opened NodeSpec
  import opened RunnerSpec
  import opened Proposals
  import opened Watermark
  import opened Commitment

  /** The node and log a run has led to; the run was orderly and delivered only messages. */
  ghost predicate Reached(r: RunnerState, inputs: seq<Input>, node: NodeState, log: seq<LogEntry>) {
    && Spawned(r) && OrderlyRun(r, inputs)
    && (forall i :: 0 <= i < |inputs| ==> ValidInput(inputs[i]))
    && RunAll(r, inputs).state.node == node && RunAll(r, inputs).state.log == log
  }

  lemma Extend(r: RunnerState, inputs: seq<Input>, node: NodeState, log: seq<LogEntry>, input: Input)
    requires Reached(r, inputs, node, log) && ValidInput(input)
    requires Orderly(node, log, EventOf(RunAll(r, inputs).state, input))
    ensures var o := Handle(node, log, EventOf(RunAll(r, inputs).state, input));
            Reached(r, inputs + [input], o.state, LogAfter(log, o.actions))
  {
    hide Handle, RunAll, LogAfter, Orderly, OrderlyRun;
    LastOfOrderly(r, inputs, input);
    OneMore(r, inputs, input);
    assert OrderlyNext(r, inputs, input);
  }

  const Mine: seq<byte> := [42]
  const Theirs: seq<byte> := [9]

  const Idle := Restarted(1, [1, 2, 3], QuorumState(0, None))
  const Running := Idle.(currentEpoch := 1, role := Candidate, votedFor := Some(1), votesReceived := {1})
  const Leading := Running.(role := Leader, leaderId := Some(1), votesReceived := {1, 2}, voterFetchOffsets := map[2 := 0, 3 := 0])
  const Waiting := Leading.(pending := [Pending(0, 0)])
  const Deposed := Waiting.(currentEpoch := 2, role := Follower, leaderId := None, votedFor := Some(2), votesReceived := {})
  const Told := Deposed.(highWatermark := 1, pending := [])

  const Asked := VoteRequestEvent(2, VoteRequest(2, 2, 1, 1))
  const Cut := FetchResponseEvent(2, FetchResponse(2, 0, [], Some(Diverging(1, 0))))
  const Fill := FetchResponseEvent(2, FetchResponse(2, 0, [LogEntry(2, 0, Theirs)], None))
  const Committed := FetchResponseEvent(2, FetchResponse(2, 1, [], None))

  const Before: seq<Input> :=
    [ElectionElapsed, Network(VoteResponseEvent(2, VoteResponse(1, true))), Proposal(Mine, 7), Network(Asked), Network(Cut), Network(Fill)]

  lemma Elected()
    ensures Handle(Idle, [], ElectionTimeout).state == Running
    ensures LogAfter([], Handle(Idle, [], ElectionTimeout).actions) == []
    ensures Handle(Running, [], VoteResponseEvent(2, VoteResponse(1, true))).state == Leading
    ensures LogAfter([], Handle(Running, [], VoteResponseEvent(2, VoteResponse(1, true))).actions) == []
  {
    hide LogAfter, SendVotes, Others;
    OtherEventsKeepLog(Idle, [], ElectionTimeout);
    OtherEventsKeepLog(Running, [], VoteResponseEvent(2, VoteResponse(1, true)));
    WinsVote();
  }

  lemma WinsVote()
    ensures HandleVoteResponse(Running, 2, VoteResponse(1, true)).state == Leading
  {
    hide Others;
    var votes := {1} + {2};
    assert |votes| == 2 && votes == {1, 2};
    var voters := Idle.voters;
    assert voters[0] == 1 && voters[1] == 2 && voters[2] == 3;
    assert NewFetchOffsets(voters, 1) == map[2 := 0, 3 := 0];
  }

  lemma Deposes()
    ensures var log := [LogEntry(1, 0, Mine)];
            && Handle(Leading, [], Propose(Mine, 0)).state == Waiting
            && LogAfter([], Handle(Leading, [], Propose(Mine, 0)).actions) == log
            && Handle(Waiting, log, Asked).state == Deposed
            && LogAfter(log, Handle(Waiting, log, Asked).actions) == log
  {
    var log := [LogEntry(1, 0, Mine)];
    ProposeAppends(Leading, [], Mine, 0);
    OtherEventsKeepLog(Waiting, log, Asked);
  }

  lemma Replaces()
    ensures var mine, theirs := [LogEntry(1, 0, Mine)], [LogEntry(2, 0, Theirs)];
            && Handle(Deposed, mine, Cut).state == Deposed
            && LogAfter(mine, Handle(Deposed, mine, Cut).actions) == []
            && Handle(Deposed, [], Fill).state == Deposed
            && LogAfter([], Handle(Deposed, [], Fill).actions) == theirs
            && Handle(Deposed, theirs, Committed) == Outcome(Told, [AdvanceHighWatermark(1), CommitPropose(0), ResetElectionTimer])
            && LogAfter(theirs, Handle(Deposed, theirs, Committed).actions) == theirs
  {
    var mine, theirs := [LogEntry(1, 0, Mine)], [LogEntry(2, 0, Theirs)];
    LogAfterFetchResponse(Deposed, mine, Cut.fetchResponse);
    assert mine[1..] == [];
    LogAfterFetchResponse(Deposed, [], Fill.fetchResponse);
    assert Deposed.pending[1..] == [];
    assert Commits(Deposed.pending, 1) == [CommitPropose(0)] && StillPending(Deposed.pending, 1) == [];
    LogAfterFetchResponse(Deposed, theirs, Committed.fetchResponse);
  }

  lemma Reach(r: RunnerState)
    requires Spawned(r) && r.node == Idle && r.log == []
    ensures Reached(r, Before, Deposed, [LogEntry(2, 0, Theirs)])
  {
    hide Handle, LogAfter, RunAll;
    var mine, theirs := [LogEntry(1, 0, Mine)], [LogEntry(2, 0, Theirs)];
    Nothing(r);
    Elected();
    Deposes();
    Replaces();
    var a := [ElectionElapsed];
    Extend(r, [], Idle, [], ElectionElapsed);
    assert [] + [ElectionElapsed] == a;
    var b := a + [Before[1]];
    Extend(r, a, Running, [], Before[1]);
    NoProposals(r, b, Leading, []);
    var c := b + [Before[2]];
    Extend(r, b, Leading, [], Before[2]);
    var d := c + [Before[3]];
    Extend(r, c, Waiting, mine, Before[3]);
    var e := d + [Before[4]];
    Extend(r, d, Deposed, mine, Before[4]);
    var f := e + [Before[5]];
    Extend(r, e, Deposed, [], Before[5]);
    assert f == Before;
  }

  lemma Nothing(r: RunnerState)
    requires Spawned(r)
    ensures Reached(r, [], r.node, r.log)
  {
  }

  lemma NoProposals(r: RunnerState, inputs: seq<Input>, node: NodeState, log: seq<LogEntry>)
    requires Reached(r, inputs, node, log) && inputs == [ElectionElapsed, Before[1]]
    ensures RunAll(r, inputs).state.nextProposeId == 0
  {
    ProposalsConserved(r, inputs);
    assert inputs[..1] == [ElectionElapsed] && [ElectionElapsed][..0] == [];
    assert Clients(inputs) == Clients(inputs[..1]) == [];
  }

  /** Node 1 leads epoch 1 and logs client 7's proposal; a vote request of epoch 2 takes it
      down without rejecting the proposal; the new leader replaces the entry; its watermark
      then makes node 1 answer client 7 that the proposal is committed. */
  lemma CommittedButNotLogged()
    ensures exists r: RunnerState, inputs: seq<Input>, input: Input, client: nat, id: nat ::
              && Spawned(r) && Dense(r.log) && OrderlyRun(r, inputs + [input])
              && Replied(client, id, true) in Advance(RunAll(r, inputs).state, input).effects
              && id < |Payloads(inputs)|
              && forall entry :: entry in Advance(RunAll(r, inputs).state, input).state.log ==> entry.data != Payloads(inputs)[id]
  {
    hide Handle, RunAll, Advance, LogAfter;
    var r := RunnerState(Idle, [], QuorumState(0, None), map[], 0, 0);
    Reach(r);
    Replaces();
    Extend(r, Before, Deposed, [LogEntry(2, 0, Theirs)], Network(Committed));
    ReplyIsSent(r);
    OnlyPayload();
  }

  lemma OnlyPayload()
    ensures Payloads(Before) == [Mine]
  {
    assert Before[..5][..4] == Before[..4] && Before[..4][..3] == Before[..3] && Before[..3][..2] == Before[..2];
    assert Before[..2][..1] == Before[..1] && Before[..1][..0] == [];
    assert Payloads(Before[..1]) == [] && Payloads(Before[..2]) == [];
    assert Payloads(Before[..3]) == [Mine] && Payloads(Before[..4]) == [Mine] && Payloads(Before[..5]) == [Mine];
  }

  lemma ReplyIsSent(r: RunnerState)
    requires Reached(r, Before, Deposed, [LogEntry(2, 0, Theirs)])
    ensures var p := Advance(RunAll(r, Before).state, Network(Committed));
            Replied(7, 0, true) in p.effects && p.state.log == [LogEntry(2, 0, Theirs)]
  {
    hide Handle, RunAll, LogAfter;
    var at := RunAll(r, Before).state;
    ProposalsConserved(r, Before);
    SevenAsked();
    Replaces();
    assert at.node.pending[0] in at.node.pending;
    assert 0 in at.waiting && at.waiting[0] == 7;
    var actions := [AdvanceHighWatermark(1), CommitPropose(0), ResetElectionTimer];
    assert actions[1..] == [CommitPropose(0), ResetElectionTimer];
    var reply := Replied(7, 0, true);
    assert SecondPass(1, at.waiting, actions[1..]) == [reply] + SecondPass(1, at.waiting - {0}, actions[1..][1..]);
    assert SecondPass(1, at.waiting, actions) == NotifyEffects(1, at.waiting, actions[0]) + SecondPass(1, at.waiting, actions[1..]);
    assert reply in SecondPass(1, at.waiting, actions[1..]);
  }

  lemma SevenAsked()
    ensures Clients(Before) == [7]
  {
    assert Before[..5][..4] == Before[..4] && Before[..4][..3] == Before[..3] && Before[..3][..2] == Before[..2];
    assert Before[..2][..1] == Before[..1] && Before[..1][..0] == [];
    assert Clients(Before[..1]) == [] && Clients(Before[..2]) == [];
    assert Clients(Before[..3]) == [7] && Clients(Before[..4]) == [7] && Clients(Before[..5]) == [7];
  }
}
