/** A cluster of nodes run by their runners over an unreliable network: messages may be
    lost, duplicated and reordered, nodes may crash and restart from what they persisted.
    Main result: two leaders of one epoch need a voter whose vote was cleared inside that
    very epoch between its two grants. */
module Election {
  import opened Options
  import opened RaftTypes
  import opened FlatLog
  import opened NodeSpec
  import opened NodeFacts
  import opened Transport

  /** `network` only grows: a message once sent can be delivered at any time, any number
      of times, or never. */
  datatype Cluster = Cluster(
    voters: seq<nat>,
    nodes: map<nat, NodeState>,
    disk: map<nat, QuorumState>,
    network: set<Envelope>)

  /** Deliver: the node handles the event, whatever its log holds, the runner persists if
      told to, and of the messages it should send exactly `sent` leave the machine (a crash
      may cut the sending short). Restart: the node comes back from its disk. */
  datatype Step =
    | Deliver(node: nat, event: Event, log: seq<LogEntry>, sent: set<Envelope>)
    | Restart(node: nat)

  datatype Trace = Trace(states: seq<Cluster>, steps: seq<Step>)

  function Distinct(voters: seq<nat>): set<nat> { set v | v in voters }

  ghost predicate Init(c: Cluster) {
    && c.nodes.Keys == c.disk.Keys == Distinct(c.voters)
    && c.network == {}
    && forall n :: n in c.nodes ==> c.nodes[n] == Restarted(n, c.voters, c.disk[n])
  }

  /** Messages of the kinds that nodes send must have been sent to this node; timeouts,
      proposals, fetch requests and epoch ends come from outside the cluster. */
  ghost predicate Genuine(c: Cluster, n: nat, event: Event) {
    match event
    case VoteRequestEvent(from, req) => Envelope(from, n, VoteMessage(req)) in c.network
    case VoteResponseEvent(from, resp) => Envelope(from, n, VoteResponseMessage(resp)) in c.network
    case BeginQuorumEpochEvent(from, req) => Envelope(from, n, BeginQuorumEpochMessage(req)) in c.network
    case FetchResponseEvent(from, resp) => Envelope(from, n, FetchResponseMessage(resp)) in c.network
    case _ => true
  }

  ghost predicate Enabled(c: Cluster, step: Step) {
    && step.node in c.nodes && step.node in c.disk
    && (step.Deliver? ==>
          && Genuine(c, step.node, step.event)
          && forall m :: m in step.sent ==> m in Outbox(step.node, Handle(c.nodes[step.node], step.log, step.event).actions))
  }

  ghost function After(c: Cluster, step: Step): Cluster
    requires Enabled(c, step)
  {
    var n := step.node;
    match step
    case Deliver(_, event, log, sent) =>
      var outcome := Handle(c.nodes[n], log, event);
      c.(nodes := c.nodes[n := outcome.state],
         disk := if PersistQuorumState in outcome.actions then c.disk[n := outcome.state.QuorumStateOf()] else c.disk,
         network := c.network + sent)
    case Restart(_) =>
      c.(nodes := c.nodes[n := Restarted(n, c.voters, c.disk[n])])
  }

  ghost predicate Next(c: Cluster, step: Step, d: Cluster) {
    Enabled(c, step) && d == After(c, step)
  }

  ghost predicate Taken(tr: Trace, k: nat)
    requires |tr.states| == |tr.steps| + 1
  {
    k < |tr.steps| && Next(tr.states[k], tr.steps[k], tr.states[k + 1])
  }

  ghost predicate Run(tr: Trace) {
    && |tr.states| == |tr.steps| + 1
    && Init(tr.states[0])
    && forall k: nat :: k < |tr.steps| ==> Taken(tr, k)
  }

  ghost predicate LeaderOf(c: Cluster, n: nat, epoch: nat) {
    n in c.nodes && c.nodes[n].role == Leader && c.nodes[n].currentEpoch == epoch
  }

  // ---- history -------------------------------------------------------------

  /** At step k voter v gives its vote to `candidate` in `epoch`: by answering a vote
      request, or to itself when it starts an election. */
  ghost predicate Granted(tr: Trace, k: nat, v: nat, candidate: nat, epoch: nat)
    requires Run(tr)
  {
    && Taken(tr, k) && tr.steps[k].Deliver? && tr.steps[k].node == v
    && var before := tr.states[k].nodes[v];
       var outcome := Handle(before, tr.steps[k].log, tr.steps[k].event);
       && outcome.state.currentEpoch == epoch && outcome.state.votedFor == Some(candidate)
       && (|| SendVoteResponse(candidate, VoteResponse(epoch, true)) in outcome.actions
           || (candidate == v && tr.steps[k].event.ElectionTimeout? && before.role != Leader))
  }

  /** At step k voter v, already in `epoch`, handles a begin or end of that epoch, which
      clears its vote. */
  ghost predicate SameEpochReset(tr: Trace, k: nat, v: nat, epoch: nat)
    requires Run(tr)
  {
    && Taken(tr, k) && tr.steps[k].Deliver? && tr.steps[k].node == v
    && ResetsEpoch(tr.states[k].nodes[v], tr.steps[k].event, epoch)
  }

  /** How one step changes one node. */
  lemma NodeAfter(c: Cluster, step: Step, d: Cluster, n: nat)
    requires Next(c, step, d) && n in c.nodes
    ensures n in d.nodes
    ensures d.nodes[n] ==
            if step.node != n then c.nodes[n]
            else if step.Deliver? then Handle(c.nodes[n], step.log, step.event).state
            else Restarted(n, c.voters, c.disk[n])
  {
  }

  /** Disk and memory agree on epoch and vote, and every node is who it should be. */
  ghost predicate DiskMatches(c: Cluster, voters: seq<nat>) {
    && c.voters == voters && c.nodes.Keys == c.disk.Keys == Distinct(voters)
    && forall n :: n in c.nodes ==>
         c.disk[n] == c.nodes[n].QuorumStateOf() && c.nodes[n].id == n && c.nodes[n].voters == voters
  }

  lemma StepKeepsDisk(c: Cluster, step: Step, d: Cluster, voters: seq<nat>)
    requires Next(c, step, d) && DiskMatches(c, voters)
    ensures DiskMatches(d, voters)
  {
    hide Handle, Genuine, Outbox;
    if step.Deliver? {
      PersistCoversChange(c.nodes[step.node], step.log, step.event);
    }
  }

  lemma StartMatches(c: Cluster)
    requires Init(c)
    ensures DiskMatches(c, c.voters)
  {
  }

  /** In every run each node's disk holds its current epoch and vote, so a restart loses
      neither. */
  lemma {:induction false} DiskMatchesNodes(tr: Trace, i: nat)
    requires Run(tr) && i < |tr.states|
    ensures DiskMatches(tr.states[i], tr.states[0].voters)
    decreases i
  {
    hide DiskMatches, Next, Init;
    if i == 0 {
      StartMatches(tr.states[0]);
    } else {
      DiskMatchesNodes(tr, i - 1);
      assert Taken(tr, i - 1);
      StepKeepsDisk(tr.states[i - 1], tr.steps[i - 1], tr.states[i], tr.states[0].voters);
    }
  }

  /** A node's epoch never decreases along a run, crashes included. */
  lemma {:induction false} EpochsNeverDecrease(tr: Trace, i: nat, j: nat, n: nat)
    requires Run(tr) && i <= j < |tr.states| && n in tr.states[i].nodes
    ensures n in tr.states[j].nodes && tr.states[i].nodes[n].currentEpoch <= tr.states[j].nodes[n].currentEpoch
    decreases j - i
  {
    if i < j {
      EpochsNeverDecrease(tr, i, j - 1, n);
      DiskMatchesNodes(tr, j - 1);
      assert Taken(tr, j - 1);
      StepKeepsEpoch(tr.states[j - 1], tr.steps[j - 1], tr.states[j], tr.states[0].voters, n);
    }
  }

  lemma StepKeepsEpoch(c: Cluster, step: Step, d: Cluster, voters: seq<nat>, n: nat)
    requires Next(c, step, d) && DiskMatches(c, voters) && n in c.nodes
    ensures n in d.nodes && c.nodes[n].currentEpoch <= d.nodes[n].currentEpoch
  {
    NodeAfter(c, step, d, n);
    if step.Deliver? {
      PersistCoversChange(c.nodes[n], step.log, step.event);
    }
  }

  /** A begin or end of `epoch` handled inside `epoch`. */
  ghost predicate ResetsEpoch(s: NodeState, event: Event, epoch: nat) {
    && s.currentEpoch == epoch
    && match event
       case BeginQuorumEpochEvent(_, req) => req.epoch == epoch
       case EndQuorumEpochEvent(_, req) => req.epoch == epoch
       case _ => false
  }

  ghost predicate HoldsVote(s: NodeState, candidate: nat, epoch: nat) {
    s.currentEpoch > epoch || (s.currentEpoch == epoch && s.votedFor == Some(candidate))
  }

  /** Every event keeps a vote given in `epoch` exactly unless it resets it inside that epoch. */
  lemma EventKeepsVote(s: NodeState, log: seq<LogEntry>, event: Event, candidate: nat, epoch: nat)
    requires HoldsVote(s, candidate, epoch)
    ensures HoldsVote(Handle(s, log, event).state, candidate, epoch) <==> !ResetsEpoch(s, event, epoch)
  {
  }

  lemma GrantHolds(tr: Trace, a: nat, v: nat, candidate: nat, epoch: nat)
    requires Run(tr) && Granted(tr, a, v, candidate, epoch)
    ensures v in tr.states[a + 1].nodes && HoldsVote(tr.states[a + 1].nodes[v], candidate, epoch)
  {
    hide Handle;
  }

  lemma {:induction false} VoteKept(tr: Trace, a: nat, b: nat, v: nat, candidate: nat, epoch: nat)
    requires Run(tr) && Granted(tr, a, v, candidate, epoch) && a < b < |tr.states|
    requires forall r: nat :: a < r < b ==> !SameEpochReset(tr, r, v, epoch)
    ensures v in tr.states[b].nodes && HoldsVote(tr.states[b].nodes[v], candidate, epoch)
    decreases b - a
  {
    hide ResetsEpoch, DiskMatches, Granted, Handle;
    assert Taken(tr, b - 1);
    if b == a + 1 {
      GrantHolds(tr, a, v, candidate, epoch);
    } else {
      VoteKept(tr, a, b - 1, v, candidate, epoch);
      DiskMatchesNodes(tr, b - 1);
      assert !SameEpochReset(tr, b - 1, v, epoch);
      StepKeepsVote(tr.states[b - 1], tr.steps[b - 1], tr.states[b], tr.states[0].voters, v, candidate, epoch);
    }
  }

  lemma StepKeepsVote(c: Cluster, step: Step, d: Cluster, voters: seq<nat>, v: nat, candidate: nat, epoch: nat)
    requires Next(c, step, d) && DiskMatches(c, voters)
    requires v in c.nodes && HoldsVote(c.nodes[v], candidate, epoch)
    requires step.Deliver? && step.node == v ==> !ResetsEpoch(c.nodes[v], step.event, epoch)
    ensures v in d.nodes && HoldsVote(d.nodes[v], candidate, epoch)
  {
    NodeAfter(c, step, d, v);
    if step.Deliver? && step.node == v {
      EventKeepsVote(c.nodes[v], step.log, step.event, candidate, epoch);
    }
  }

  /** Two grants of one voter in one epoch to different candidates have a same-epoch reset
      of that voter between them. */
  lemma SecondGrantNeedsReset(tr: Trace, a: nat, b: nat, v: nat, first: nat, second: nat, epoch: nat)
    requires Run(tr) && a < b
    requires Granted(tr, a, v, first, epoch) && Granted(tr, b, v, second, epoch) && first != second
    ensures exists r: nat :: a < r < b && SameEpochReset(tr, r, v, epoch)
  {
    if forall r: nat :: a < r < b ==> !SameEpochReset(tr, r, v, epoch) {
      VoteKept(tr, a, b, v, first, epoch);
      var s, step := tr.states[b].nodes[v], tr.steps[b];
      PersistCoversChange(s, step.log, step.event);
      if SendVoteResponse(second, VoteResponse(epoch, true)) in Handle(s, step.log, step.event).actions {
        GrantNeedsFreeVote(s, step.log, step.event, second, epoch);
      }
      assert false;
    }
  }

  /** Every vote on the network or in a candidate's hands was granted earlier in the run,
      and a leader holds a majority of them. */
  ghost predicate VotesAreGrants(tr: Trace, i: nat)
    requires Run(tr) && i < |tr.states|
  {
    var c := tr.states[i];
    && (forall m :: m in c.network && m.message.VoteResponseMessage? && m.message.voteResponse.granted ==>
          exists k: nat :: k < i && Granted(tr, k, m.from, m.to, m.message.voteResponse.epoch))
    && (forall n, v :: n in c.nodes && v in c.nodes[n].votesReceived ==>
          exists k: nat :: k < i && Granted(tr, k, v, n, c.nodes[n].currentEpoch))
    && (forall n :: n in c.nodes && c.nodes[n].role == Leader ==>
          |c.nodes[n].votesReceived| >= c.nodes[n].Majority())
  }

  lemma {:induction false} VotesAreAlwaysGrants(tr: Trace, i: nat)
    requires Run(tr) && i < |tr.states|
    ensures VotesAreGrants(tr, i)
    decreases i
  {
    if i > 0 {
      VotesAreAlwaysGrants(tr, i - 1);
      if tr.steps[i - 1].Deliver? {
        NetworkStaysGranted(tr, i - 1);
        CollectedStaysGranted(tr, i - 1);
      } else {
        RestartStaysGranted(tr, i - 1);
      }
    }
  }

  lemma RestartStaysGranted(tr: Trace, i: nat)
    requires Run(tr) && i < |tr.steps| && tr.steps[i].Restart? && VotesAreGrants(tr, i)
    ensures VotesAreGrants(tr, i + 1)
  {
    hide Granted, Handle;
    assert Taken(tr, i);
    var c, d := tr.states[i], tr.states[i + 1];
    forall m | m in d.network && m.message.VoteResponseMessage? && m.message.voteResponse.granted
      ensures exists k: nat :: k < i + 1 && Granted(tr, k, m.from, m.to, m.message.voteResponse.epoch)
    {
      var k: nat :| k < i && Granted(tr, k, m.from, m.to, m.message.voteResponse.epoch);
      assert k < i + 1;
    }
    forall n, v | n in d.nodes && v in d.nodes[n].votesReceived
      ensures exists k: nat :: k < i + 1 && Granted(tr, k, v, n, d.nodes[n].currentEpoch)
    {
      assert d.nodes[n] == c.nodes[n];
      var k: nat :| k < i && Granted(tr, k, v, n, c.nodes[n].currentEpoch);
      assert k < i + 1;
    }
  }

  lemma NetworkStaysGranted(tr: Trace, i: nat)
    requires Run(tr) && i < |tr.steps| && tr.steps[i].Deliver? && VotesAreGrants(tr, i)
    ensures forall m :: m in tr.states[i + 1].network && m.message.VoteResponseMessage? && m.message.voteResponse.granted ==>
              exists k: nat :: k < i + 1 && Granted(tr, k, m.from, m.to, m.message.voteResponse.epoch)
  {
    assert Taken(tr, i);
    var c, step := tr.states[i], tr.steps[i];
    var outcome := Handle(c.nodes[step.node], step.log, step.event);
    forall m | m in tr.states[i + 1].network && m.message.VoteResponseMessage? && m.message.voteResponse.granted
      ensures exists k: nat :: k < i + 1 && Granted(tr, k, m.from, m.to, m.message.voteResponse.epoch)
    {
      if m in c.network {
        var k: nat :| k < i && Granted(tr, k, m.from, m.to, m.message.voteResponse.epoch);
        assert k < i + 1;
      } else {
        VoteResponseWasSent(step.node, outcome.actions, m);
        GrantNeedsFreeVote(c.nodes[step.node], step.log, step.event, m.to, m.message.voteResponse.epoch);
        assert m.message.voteResponse == VoteResponse(m.message.voteResponse.epoch, true);
        assert Granted(tr, i, m.from, m.to, m.message.voteResponse.epoch);
      }
    }
  }

  lemma CollectedStaysGranted(tr: Trace, i: nat)
    requires Run(tr) && i < |tr.steps| && tr.steps[i].Deliver? && VotesAreGrants(tr, i)
    ensures var d := tr.states[i + 1];
            && (forall n, v :: n in d.nodes && v in d.nodes[n].votesReceived ==>
                  exists k: nat :: k < i + 1 && Granted(tr, k, v, n, d.nodes[n].currentEpoch))
            && (forall n :: n in d.nodes && d.nodes[n].role == Leader ==>
                  |d.nodes[n].votesReceived| >= d.nodes[n].Majority())
  {
    assert Taken(tr, i);
    var c, d, step := tr.states[i], tr.states[i + 1], tr.steps[i];
    forall n, v | n in d.nodes && v in d.nodes[n].votesReceived
      ensures exists k: nat :: k < i + 1 && Granted(tr, k, v, n, d.nodes[n].currentEpoch)
    {
      if n == step.node {
        CollectedByReceiver(tr, i, v);
      } else {
        EarlierGrant(tr, i, v, n);
      }
    }
    VotesAfter(c.nodes[step.node], step.log, step.event);
  }

  lemma DeliveredTo(tr: Trace, i: nat)
    requires Run(tr) && i < |tr.steps| && tr.steps[i].Deliver? && Taken(tr, i)
    ensures var n, event := tr.steps[i].node, tr.steps[i].event;
            && n in tr.states[i].nodes && tr.states[i].nodes[n].id == n
            && (event.VoteResponseEvent? ==>
                  Envelope(event.from, n, VoteResponseMessage(event.voteResponse)) in tr.states[i].network)
  {
    hide Handle;
    DiskMatchesNodes(tr, i);
  }

  /** A node that starts an election gives itself its vote. */
  lemma OwnGrant(tr: Trace, i: nat)
    requires Run(tr) && Taken(tr, i) && i < |tr.steps| && tr.steps[i].Deliver? && tr.steps[i].event.ElectionTimeout?
    requires var s := tr.states[i].nodes[tr.steps[i].node]; s.role != Leader && s.id == tr.steps[i].node
    ensures var n := tr.steps[i].node;
            Granted(tr, i, n, n, Handle(tr.states[i].nodes[n], tr.steps[i].log, ElectionTimeout).state.currentEpoch)
  {
    hide Run, Others, SendVotes, NewFetchOffsets;
  }

  lemma DeliveredGrant(tr: Trace, i: nat, v: nat, n: nat, resp: VoteResponse)
    requires Run(tr) && i < |tr.steps| && VotesAreGrants(tr, i) && resp.granted
    requires Envelope(v, n, VoteResponseMessage(resp)) in tr.states[i].network
    ensures exists k: nat :: k < i + 1 && Granted(tr, k, v, n, resp.epoch)
  {
    hide Granted, Run;
    var m := Envelope(v, n, VoteResponseMessage(resp));
    var k: nat :| k < i && Granted(tr, k, m.from, m.to, m.message.voteResponse.epoch);
    assert k < i + 1;
  }

  lemma EarlierGrant(tr: Trace, i: nat, v: nat, n: nat)
    requires Run(tr) && i < |tr.steps| && VotesAreGrants(tr, i)
    requires n in tr.states[i].nodes && v in tr.states[i].nodes[n].votesReceived
    ensures exists k: nat :: k < i + 1 && Granted(tr, k, v, n, tr.states[i].nodes[n].currentEpoch)
  {
    var k: nat :| k < i && Granted(tr, k, v, n, tr.states[i].nodes[n].currentEpoch);
    assert k < i + 1;
  }

  lemma CollectedByReceiver(tr: Trace, i: nat, v: nat)
    requires Run(tr) && i < |tr.steps| && tr.steps[i].Deliver? && VotesAreGrants(tr, i) && Taken(tr, i)
    requires v in Handle(tr.states[i].nodes[tr.steps[i].node], tr.steps[i].log, tr.steps[i].event).state.votesReceived
    ensures var n := tr.steps[i].node;
            exists k: nat :: k < i + 1
              && Granted(tr, k, v, n, Handle(tr.states[i].nodes[n], tr.steps[i].log, tr.steps[i].event).state.currentEpoch)
  {
    hide Handle, VotesAreGrants, LeaderHasVotes, Granted, Next;
    DeliveredTo(tr, i);
    var c, step := tr.states[i], tr.steps[i];
    var n := step.node;
    var s := c.nodes[n];
    var t := Handle(s, step.log, step.event).state;
    VotesAfter(s, step.log, step.event);
    if t.votesReceived == s.votesReceived && t.currentEpoch == s.currentEpoch {
      EarlierGrant(tr, i, v, n);
    } else if step.event.ElectionTimeout? {
      OwnGrant(tr, i);
    } else if v in s.votesReceived {
      EarlierGrant(tr, i, v, n);
    } else {
      DeliveredGrant(tr, i, v, n, step.event.voteResponse);
    }
  }

  // ---- quorums intersect ---------------------------------------------------

  lemma {:induction false} DistinctAtMostLength(voters: seq<nat>)
    ensures |Distinct(voters)| <= |voters|
    decreases |voters|
  {
    if voters != [] {
      DistinctAtMostLength(voters[1..]);
      assert Distinct(voters) == Distinct(voters[1..]) + {voters[0]};
    }
  }

  lemma QuorumsIntersect(all: set<nat>, a: set<nat>, b: set<nat>, size: nat)
    requires a <= all && b <= all && |all| <= size
    requires |a| >= size / 2 + 1 && |b| >= size / 2 + 1
    ensures exists v :: v in a && v in b
  {
    if a * b == {} {
      assert |a + b| == |a| + |b|;
      SubsetSize(a + b, all);
      assert false;
    }
    var v :| v in a * b;
  }

  // ---- main results --------------------------------------------------------

  /** Voter v is in the quorums of both leaders, granted both votes in `epoch`, and between
      the two grants handled a begin or end of that very epoch. */
  ghost predicate VotedTwice(tr: Trace, i: nat, j: nat, m: nat, n: nat, epoch: nat, v: nat, a: nat, r: nat, b: nat)
    requires Run(tr) && i < |tr.states| && j < |tr.states|
    requires m in tr.states[i].nodes && n in tr.states[j].nodes
  {
    && v in tr.states[i].nodes[m].votesReceived && v in tr.states[j].nodes[n].votesReceived
    && a < r < b && SameEpochReset(tr, r, v, epoch)
    && (|| (Granted(tr, a, v, m, epoch) && Granted(tr, b, v, n, epoch))
        || (Granted(tr, a, v, n, epoch) && Granted(tr, b, v, m, epoch)))
  }

  /** A leader's collected votes come from voters, each of which granted it, and are a majority. */
  lemma LeaderHasQuorum(tr: Trace, i: nat, n: nat, epoch: nat)
    requires Run(tr) && i < |tr.states| && LeaderOf(tr.states[i], n, epoch)
    ensures var quorum, voters := tr.states[i].nodes[n].votesReceived, tr.states[0].voters;
            && quorum <= Distinct(voters) && |quorum| >= |voters| / 2 + 1
            && forall v :: v in quorum ==> exists k: nat :: k < i && Granted(tr, k, v, n, epoch)
  {
    hide Handle;
    VotesAreAlwaysGrants(tr, i);
    DiskMatchesNodes(tr, i);
    forall v | v in tr.states[i].nodes[n].votesReceived ensures v in tr.states[0].voters {
      var k: nat :| k < i && Granted(tr, k, v, n, epoch);
      DiskMatchesNodes(tr, k);
      assert v in Distinct(tr.states[0].voters);
    }
  }

  /** If two different nodes are ever leader of the same epoch, some voter voted twice in it. */
  lemma TwoLeadersNeedReset(tr: Trace, i: nat, j: nat, m: nat, n: nat, epoch: nat)
    requires Run(tr) && i < |tr.states| && j < |tr.states|
    requires LeaderOf(tr.states[i], m, epoch) && LeaderOf(tr.states[j], n, epoch) && m != n
    ensures exists v, a, r, b :: VotedTwice(tr, i, j, m, n, epoch, v, a, r, b)
  {
    hide Handle;
    LeaderHasQuorum(tr, i, m, epoch);
    LeaderHasQuorum(tr, j, n, epoch);
    var mine, theirs := tr.states[i].nodes[m].votesReceived, tr.states[j].nodes[n].votesReceived;
    DistinctAtMostLength(tr.states[0].voters);
    QuorumsIntersect(Distinct(tr.states[0].voters), mine, theirs, |tr.states[0].voters|);
    var v :| v in mine && v in theirs;
    var a: nat :| a < i && Granted(tr, a, v, m, epoch);
    var b: nat :| b < j && Granted(tr, b, v, n, epoch);
    if a < b {
      SecondGrantNeedsReset(tr, a, b, v, m, n, epoch);
      var r: nat :| a < r < b && SameEpochReset(tr, r, v, epoch);
      assert VotedTwice(tr, i, j, m, n, epoch, v, a, r, b);
    } else {
      SecondGrantNeedsReset(tr, b, a, v, n, m, epoch);
      var r: nat :| b < r < a && SameEpochReset(tr, r, v, epoch);
      assert VotedTwice(tr, i, j, m, n, epoch, v, b, r, a);
    }
  }

  /** Without a same-epoch reset there is at most one leader per epoch in the whole run. */
  lemma OneLeaderPerEpoch(tr: Trace, epoch: nat)
    requires Run(tr)
    requires forall r: nat, v :: !SameEpochReset(tr, r, v, epoch)
    ensures forall i, j, m, n | 0 <= i < |tr.states| && 0 <= j < |tr.states| ::
              LeaderOf(tr.states[i], m, epoch) && LeaderOf(tr.states[j], n, epoch) ==> m == n
  {
    forall i, j, m, n | 0 <= i < |tr.states| && 0 <= j < |tr.states|
                        && LeaderOf(tr.states[i], m, epoch) && LeaderOf(tr.states[j], n, epoch)
      ensures m == n
    {
      if m != n {
        TwoLeadersNeedReset(tr, i, j, m, n, epoch);
      }
    }
  }
}
