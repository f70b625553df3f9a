/** The condition of `Election.OneLeaderPerEpoch` is needed: a run of three nodes, with no
    message lost and none forged, in which two of them lead the same epoch. */
module ElectionReset {
  import opened Options
  import opened RaftTypes
  import opened FlatLog
  import opened NodeSpec
  import opened Transport
  import opened Election

  const Voters: seq<nat> := [1, 2, 3]

  const Fresh := QuorumState(0, None)

  function Ask(candidate: nat): VoteRequest { VoteRequest(1, candidate, 0, 0) }

  const Granting := VoteResponse(1, true)

  ghost function Start(): Cluster {
    Cluster(Voters,
            map n | n in Distinct(Voters) :: Restarted(n, Voters, Fresh),
            map n | n in Distinct(Voters) :: Fresh,
            {})
  }

  ghost function AllSent(c: Cluster, n: nat, event: Event): set<Envelope>
    requires n in c.nodes
  {
    set m | m in Outbox(n, Handle(c.nodes[n], [], event).actions)
  }

  ghost function DeliverAll(c: Cluster, n: nat, event: Event): Step
    requires n in c.nodes
  {
    Deliver(n, event, [], AllSent(c, n, event))
  }

  lemma OutboxOfOne(from: nat, a: Action)
    ensures Outbox(from, [a]) == Sends(from, a)
  {
    assert [a][1..] == [];
  }

  lemma OutboxOfTwo(from: nat, a: Action, b: Action)
    ensures Outbox(from, [a, b]) == Sends(from, a) + Sends(from, b)
  {
    assert [a, b][1..] == [b];
    OutboxOfOne(from, b);
  }

  lemma OutboxOfThree(from: nat, a: Action, b: Action, c: Action)
    ensures Outbox(from, [a, b, c]) == Sends(from, a) + Sends(from, b) + Sends(from, c)
  {
    assert [a, b, c][1..] == [b, c];
    OutboxOfTwo(from, b, c);
  }

  /** The other two voters, in the order they are listed. */
  lemma OthersOf(n: nat)
    requires n == 1 || n == 3
    ensures Others(Voters, n) == if n == 1 then [2, 3] else [1, 2]
  {
    assert Voters[1..] == [2, 3] && [2, 3][1..] == [3] && [3][1..] == [];
    assert Others([3], n) == if n == 3 then [] else [3];
    assert Others([2, 3], n) == [2] + Others([3], n);
    assert Others(Voters, n) == (if 1 != n then [1] else []) + Others([2, 3], n);
  }

  ghost predicate IsFresh(s: NodeState, n: nat) { s == Restarted(n, Voters, Fresh) }

  /** A fresh node that times out asks the two others for their vote. */
  lemma Campaigns(c: Cluster, n: nat)
    requires n in c.nodes && n in c.disk && IsFresh(c.nodes[n], n) && (n == 1 || n == 3)
    ensures var step := DeliverAll(c, n, ElectionTimeout);
            && Enabled(c, step)
            && var d := After(c, step);
               && d.voters == c.voters && d.nodes.Keys == c.nodes.Keys && d.disk.Keys == c.disk.Keys
               && c.network <= d.network
               && Envelope(n, 2, VoteMessage(Ask(n))) in d.network
               && (forall o :: o in c.nodes && o != n ==> d.nodes[o] == c.nodes[o])
               && d.nodes[n] == c.nodes[n].(currentEpoch := 1, role := Candidate, votedFor := Some(n), votesReceived := {n})
  {
    CampaignActions(c.nodes[n], n);
    var actions := Handle(c.nodes[n], [], ElectionTimeout).actions;
    var mine := Envelope(n, 2, VoteMessage(Ask(n)));
    assert mine in Outbox(n, actions);
    assert mine in AllSent(c, n, ElectionTimeout);
  }

  lemma CampaignActions(s: NodeState, n: nat)
    requires IsFresh(s, n) && (n == 1 || n == 3)
    ensures Envelope(n, 2, VoteMessage(Ask(n))) in Outbox(n, Handle(s, [], ElectionTimeout).actions)
  {
    hide Handle, SendVotes;
    var targets := if n == 1 then [2, 3] else [1, 2];
    CampaignAsks(s, n, targets);
    var a, b := SendVote(targets[0], Ask(n)), SendVote(targets[1], Ask(n));
    var actions := [PersistQuorumState, ResetElectionTimer, a, b];
    assert actions[1..] == [ResetElectionTimer, a, b];
    OutboxOfThree(n, ResetElectionTimer, a, b);
    var mine := Envelope(n, 2, VoteMessage(Ask(n)));
    assert Outbox(n, actions)[if n == 1 then 0 else 1] == mine;
  }

  lemma CampaignAsks(s: NodeState, n: nat, targets: seq<nat>)
    requires IsFresh(s, n) && (n == 1 || n == 3) && targets == if n == 1 then [2, 3] else [1, 2]
    ensures Handle(s, [], ElectionTimeout).actions
         == [PersistQuorumState, ResetElectionTimer, SendVote(targets[0], Ask(n)), SendVote(targets[1], Ask(n))]
  {
    OthersOf(n);
    assert targets[1..][1..] == [];
    assert SendVotes(targets[1..], Ask(n)) == [SendVote(targets[1], Ask(n))] + SendVotes(targets[1..][1..], Ask(n));
    assert SendVotes(targets, Ask(n)) == [SendVote(targets[0], Ask(n)), SendVote(targets[1], Ask(n))];
  }

  /** Node 2, with no vote in epoch 1, grants it. */
  lemma Grants(c: Cluster, candidate: nat)
    requires 2 in c.nodes && 2 in c.disk && c.nodes[2].currentEpoch <= 1
    requires c.nodes[2].currentEpoch == 1 ==> c.nodes[2].votedFor == None
    requires Envelope(candidate, 2, VoteMessage(Ask(candidate))) in c.network
    ensures var step := DeliverAll(c, 2, VoteRequestEvent(candidate, Ask(candidate)));
            && Enabled(c, step)
            && var d := After(c, step);
               && d.voters == c.voters && d.nodes.Keys == c.nodes.Keys && d.disk.Keys == c.disk.Keys
               && c.network <= d.network
               && Envelope(2, candidate, VoteResponseMessage(Granting)) in d.network
               && (forall o :: o in c.nodes && o != 2 ==> d.nodes[o] == c.nodes[o])
               && d.nodes[2].currentEpoch == 1
  {
    var actions := Handle(c.nodes[2], [], VoteRequestEvent(candidate, Ask(candidate))).actions;
    var reply := SendVoteResponse(candidate, Granting);
    var tail := [PersistQuorumState, ResetElectionTimer, reply];
    assert actions == tail || actions == [PersistQuorumState] + tail;
    OutboxOfThree(2, PersistQuorumState, ResetElectionTimer, reply);
    assert ([PersistQuorumState] + tail)[1..] == tail;
    assert Outbox(2, actions) == [Envelope(2, candidate, VoteResponseMessage(Granting))];
    assert Outbox(2, actions)[0] == Envelope(2, candidate, VoteResponseMessage(Granting));
  }

  /** A candidate that holds its own vote and gets node 2's leads, and tells the others. */
  lemma Wins(c: Cluster, n: nat)
    requires n in c.nodes && n in c.disk && (n == 1 || n == 3)
    requires c.nodes[n] == Restarted(n, Voters, Fresh).(currentEpoch := 1, role := Candidate, votedFor := Some(n), votesReceived := {n})
    requires Envelope(2, n, VoteResponseMessage(Granting)) in c.network
    ensures var step := DeliverAll(c, n, VoteResponseEvent(2, Granting));
            && Enabled(c, step)
            && var d := After(c, step);
               && d.voters == c.voters && d.nodes.Keys == c.nodes.Keys && d.disk.Keys == c.disk.Keys
               && c.network <= d.network
               && Envelope(n, 2, BeginQuorumEpochMessage(BeginQuorumEpochRequest(1, n))) in d.network
               && (forall o :: o in c.nodes && o != n ==> d.nodes[o] == c.nodes[o])
               && LeaderOf(d, n, 1)
  {
    hide Handle, Outbox;
    WinActions(c.nodes[n], n);
    var actions := Handle(c.nodes[n], [], VoteResponseEvent(2, Granting)).actions;
    var mine := Envelope(n, 2, BeginQuorumEpochMessage(BeginQuorumEpochRequest(1, n)));
    assert mine in Outbox(n, actions);
    assert mine in AllSent(c, n, VoteResponseEvent(2, Granting));
  }

  lemma WinActions(s: NodeState, n: nat)
    requires n == 1 || n == 3
    requires s == Restarted(n, Voters, Fresh).(currentEpoch := 1, role := Candidate, votedFor := Some(n), votesReceived := {n})
    ensures var o := Handle(s, [], VoteResponseEvent(2, Granting));
            && o.state.role == Leader && o.state.currentEpoch == 1
            && Envelope(n, 2, BeginQuorumEpochMessage(BeginQuorumEpochRequest(1, n))) in Outbox(n, o.actions)
  {
    hide Others, NewFetchOffsets;
    OthersOf(n);
    var votes := {n} + {2};
    assert |votes| == 2;
    var begin := BeginQuorumEpochRequest(1, n);
    var actions := [ResetHeartbeatTimer, SendBeginQuorumEpoch(Others(Voters, n), begin)];
    assert Handle(s, [], VoteResponseEvent(2, Granting)).actions == actions;
    OutboxOfTwo(n, actions[0], actions[1]);
    assert Outbox(n, actions)[if n == 1 then 0 else 1] == Envelope(n, 2, BeginQuorumEpochMessage(begin));
  }

  /** Node 2 learns who leads epoch 1, its own epoch, and forgets whom it voted for. */
  lemma Forgets(c: Cluster)
    requires 2 in c.nodes && 2 in c.disk && c.nodes[2].currentEpoch == 1
    requires Envelope(1, 2, BeginQuorumEpochMessage(BeginQuorumEpochRequest(1, 1))) in c.network
    ensures var step := DeliverAll(c, 2, BeginQuorumEpochEvent(1, BeginQuorumEpochRequest(1, 1)));
            && Enabled(c, step)
            && var d := After(c, step);
               && d.voters == c.voters && d.nodes.Keys == c.nodes.Keys && d.disk.Keys == c.disk.Keys
               && c.network <= d.network
               && (forall o :: o in c.nodes && o != 2 ==> d.nodes[o] == c.nodes[o])
               && d.nodes[2].currentEpoch == 1 && d.nodes[2].votedFor == None
  {
  }

  lemma StartIsInitial()
    ensures Init(Start()) && Start().voters == Voters && Start().nodes.Keys == Start().disk.Keys == {1, 2, 3}
    ensures forall n :: n in Start().nodes ==> IsFresh(Start().nodes[n], n)
    ensures Run(Trace([Start()], [])) && Last(Trace([Start()], [])) == Start()
  {
    assert 1 in Voters && 2 in Voters && 3 in Voters;
    assert Distinct(Voters) == {1, 2, 3};
  }

  ghost function Last(tr: Trace): Cluster
    requires Run(tr)
  {
    tr.states[|tr.states| - 1]
  }

  /** A run that takes one more enabled step. */
  lemma Extend(tr: Trace, step: Step) returns (longer: Trace)
    requires Run(tr) && Enabled(Last(tr), step)
    ensures Run(longer) && Last(longer) == After(Last(tr), step)
  {
    longer := Trace(tr.states + [After(Last(tr), step)], tr.steps + [step]);
    forall k: nat | k < |longer.steps| ensures Taken(longer, k) {
      if k < |tr.steps| {
        assert Taken(tr, k);
      }
    }
  }

  /** Nodes 1 and 3 both lead epoch 1: node 2 votes for 1, handles 1's begin of the epoch,
      and votes for 3. */
  lemma TwoLeadersReachable()
    ensures exists tr: Trace, i: nat ::
              Run(tr) && i < |tr.states| && LeaderOf(tr.states[i], 1, 1) && LeaderOf(tr.states[i], 3, 1)
  {
    hide Handle, After, Enabled, DeliverAll, AllSent, Start, Run;
    var tr := Trace([Start()], []);
    StartIsInitial();
    Campaigns(Last(tr), 1);
    tr := Extend(tr, DeliverAll(Last(tr), 1, ElectionTimeout));
    Grants(Last(tr), 1);
    tr := Extend(tr, DeliverAll(Last(tr), 2, VoteRequestEvent(1, Ask(1))));
    Wins(Last(tr), 1);
    tr := Extend(tr, DeliverAll(Last(tr), 1, VoteResponseEvent(2, Granting)));
    Forgets(Last(tr));
    tr := Extend(tr, DeliverAll(Last(tr), 2, BeginQuorumEpochEvent(1, BeginQuorumEpochRequest(1, 1))));
    Campaigns(Last(tr), 3);
    tr := Extend(tr, DeliverAll(Last(tr), 3, ElectionTimeout));
    Grants(Last(tr), 3);
    tr := Extend(tr, DeliverAll(Last(tr), 2, VoteRequestEvent(3, Ask(3))));
    Wins(Last(tr), 3);
    tr := Extend(tr, DeliverAll(Last(tr), 3, VoteResponseEvent(2, Granting)));
    assert LeaderOf(Last(tr), 1, 1) && LeaderOf(Last(tr), 3, 1);
  }
}
