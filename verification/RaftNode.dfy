/** The Raft node itself: mutable fields and one handler per event, each proved to move
    the node to the state, and to emit the actions, that `NodeSpec` prescribes. */
module RaftNode {
  import opened Bytes
  import opened Options
  import opened RaftTypes
  import opened FlatLog
  import opened NodeSpec

  // ---- counting and sorting offsets ----------------------------------------

  function CountAtLeast(offsets: seq<nat>, bound: nat): nat {
    if offsets == [] then 0
    else (if offsets[0] >= bound then 1 else 0) + CountAtLeast(offsets[1..], bound)
  }

  ghost predicate Descending(offsets: seq<nat>) {
    forall i, j :: 0 <= i < j < |offsets| ==> offsets[i] >= offsets[j]
  }

  function InsertDescending(x: nat, offsets: seq<nat>): seq<nat> {
    if offsets == [] || x >= offsets[0] then [x] + offsets
    else [offsets[0]] + InsertDescending(x, offsets[1..])
  }

  /** The standard library's sort, largest first. */
  function SortDescending(offsets: seq<nat>): seq<nat> {
    if offsets == [] then [] else InsertDescending(offsets[0], SortDescending(offsets[1..]))
  }

  lemma {:induction false} InsertKeepsOrder(x: nat, offsets: seq<nat>, bound: nat)
    requires Descending(offsets)
    ensures Descending(InsertDescending(x, offsets))
    ensures |InsertDescending(x, offsets)| == |offsets| + 1
    ensures CountAtLeast(InsertDescending(x, offsets), bound)
         == CountAtLeast(offsets, bound) + if x >= bound then 1 else 0
    ensures forall y :: y in InsertDescending(x, offsets) ==> y == x || y in offsets
    decreases |offsets|
  {
    if offsets == [] || x >= offsets[0] {
      assert ([x] + offsets)[1..] == offsets;
    } else {
      InsertKeepsOrder(x, offsets[1..], bound);
      assert InsertDescending(x, offsets)[1..] == InsertDescending(x, offsets[1..]);
    }
  }

  /** Sorting keeps every count and puts the larger offsets first. */
  lemma {:induction false} SortKeepsCounts(offsets: seq<nat>, bound: nat)
    ensures Descending(SortDescending(offsets))
    ensures |SortDescending(offsets)| == |offsets|
    ensures CountAtLeast(SortDescending(offsets), bound) == CountAtLeast(offsets, bound)
    decreases |offsets|
  {
    if offsets != [] {
      SortKeepsCounts(offsets[1..], bound);
      InsertKeepsOrder(offsets[0], SortDescending(offsets[1..]), bound);
    }
  }

  /** In a descending list, element k tells how many reach it and how many reach more. */
  lemma {:induction false} CountInDescending(offsets: seq<nat>, k: nat, bound: nat)
    requires Descending(offsets) && k < |offsets|
    ensures offsets[k] >= bound ==> CountAtLeast(offsets, bound) >= k + 1
    ensures offsets[k] < bound ==> CountAtLeast(offsets, bound) <= k
    decreases |offsets|
  {
    if k > 0 {
      CountInDescending(offsets[1..], k - 1, bound);
    } else if offsets[0] < bound {
      CountNone(offsets, bound);
    }
  }

  lemma {:induction false} CountNone(offsets: seq<nat>, bound: nat)
    requires forall i :: 0 <= i < |offsets| ==> offsets[i] < bound
    ensures CountAtLeast(offsets, bound) == 0
    decreases |offsets|
  {
    if offsets != [] { CountNone(offsets[1..], bound); }
  }

  lemma {:induction false} CountAppend(offsets: seq<nat>, x: nat, bound: nat)
    ensures CountAtLeast(offsets + [x], bound) == CountAtLeast(offsets, bound) + if x >= bound then 1 else 0
    decreases |offsets|
  {
    if offsets != [] {
      assert (offsets + [x])[1..] == offsets[1..] + [x];
      CountAppend(offsets[1..], x, bound);
    }
  }

  /** The k-th largest of the sorted offsets is the offset a quorum of k has reached. */
  lemma KthLargestIsQuorumOffset(fetchOffsets: map<nat, nat>, logEnd: nat, offsets: seq<nat>, quorum: nat)
    requires 1 <= quorum <= |offsets|
    requires forall bound: nat :: CountAtLeast(offsets, bound) == Reached(fetchOffsets, logEnd, bound)
    ensures |SortDescending(offsets)| == |offsets|
    ensures IsQuorumOffset(fetchOffsets, logEnd, quorum, SortDescending(offsets)[quorum - 1])
  {
    SortKeepsCounts(offsets, 0);
    var sorted := SortDescending(offsets);
    var kth := sorted[quorum - 1];
    SortKeepsCounts(offsets, kth);
    CountInDescending(sorted, quorum - 1, kth);
    forall larger: nat | larger > kth ensures Reached(fetchOffsets, logEnd, larger) < quorum {
      SortKeepsCounts(offsets, larger);
      CountInDescending(sorted, quorum - 1, larger);
    }
  }

  function AtLeast(voters: set<nat>, fetchOffsets: map<nat, nat>, bound: nat): set<nat> {
    set v | v in voters && v in fetchOffsets && fetchOffsets[v] >= bound
  }

  lemma AtLeastWithOneMore(voters: set<nat>, v: nat, fetchOffsets: map<nat, nat>, bound: nat)
    requires v in fetchOffsets && v !in voters
    ensures |AtLeast(voters + {v}, fetchOffsets, bound)|
         == |AtLeast(voters, fetchOffsets, bound)| + if fetchOffsets[v] >= bound then 1 else 0
  {
    var before := AtLeast(voters, fetchOffsets, bound);
    if fetchOffsets[v] >= bound {
      assert AtLeast(voters + {v}, fetchOffsets, bound) == before + {v};
    } else {
      assert AtLeast(voters + {v}, fetchOffsets, bound) == before;
    }
  }

  // ---- lists of actions built front to back --------------------------------

  lemma {:induction false} OthersAppend(voters: seq<nat>, v: nat, id: nat)
    ensures Others(voters + [v], id) == if v != id then Others(voters, id) + [v] else Others(voters, id)
    decreases |voters|
  {
    if voters != [] {
      assert (voters + [v])[1..] == voters[1..] + [v];
      OthersAppend(voters[1..], v, id);
    }
  }

  lemma {:induction false} SendVotesAppend(targets: seq<nat>, v: nat, req: VoteRequest)
    ensures SendVotes(targets + [v], req) == SendVotes(targets, req) + [SendVote(v, req)]
    decreases |targets|
  {
    if targets != [] {
      assert (targets + [v])[1..] == targets[1..] + [v];
      SendVotesAppend(targets[1..], v, req);
    }
  }

  lemma {:induction false} HeartbeatsAppend(s: NodeState, log: seq<LogEntry>, targets: seq<nat>, v: nat)
    ensures Heartbeats(s, log, targets + [v]) == Heartbeats(s, log, targets) + Heartbeats(s, log, [v])
    decreases |targets|
  {
    if targets != [] {
      assert (targets + [v])[1..] == targets[1..] + [v];
      HeartbeatsAppend(s, log, targets[1..], v);
    } else {
      assert targets + [v] == [v];
    }
  }

  lemma {:induction false} RejectionsAppend(pending: seq<Pending>, p: Pending)
    ensures Rejections(pending + [p]) == Rejections(pending) + [RejectPropose(p.proposeId)]
    decreases |pending|
  {
    if pending != [] {
      assert (pending + [p])[1..] == pending[1..] + [p];
      RejectionsAppend(pending[1..], p);
    }
  }

  lemma ReachedIs(fetchOffsets: map<nat, nat>, logEnd: nat, offset: nat)
    ensures Reached(fetchOffsets, logEnd, offset) == |AtOrBeyond(fetchOffsets, offset)| + if logEnd >= offset then 1 else 0
  {
  }

  lemma NobodyBeaten(s: NodeState, log: seq<LogEntry>)
    ensures Heartbeats(s, log, Others([], s.id)) == []
  {
  }

  lemma OneBeaten(s: NodeState, log: seq<LogEntry>, v: nat)
    ensures Heartbeats(s, log, [v]) ==
            [SendFetchResponse(v, FetchResponse(s.currentEpoch, s.highWatermark,
                                                EntriesBetween(log, FetchOffsetOf(s, v), EndOffset(log)), None))]
  {
    assert [v][1..] == [];
  }

  lemma NothingAppended()
    ensures Appends([]) == []
  {
  }

  lemma NobodyTold(id: nat)
    ensures Others([], id) == [] && NewFetchOffsets([], id) == map[]
  {
  }

  lemma NewFetchOffsetsAppend(voters: seq<nat>, v: nat, id: nat)
    ensures NewFetchOffsets(voters + [v], id) ==
            if v != id then NewFetchOffsets(voters, id)[v := 0] else NewFetchOffsets(voters, id)
  {
  }

  lemma NobodyAsked(id: nat, req: VoteRequest)
    ensures SendVotes(Others([], id), req) == []
  {
  }

  lemma {:induction false} CommitsAppend(pending: seq<Pending>, n: nat, highWatermark: nat)
    requires n < |pending|
    ensures StillPending(pending[..n + 1], highWatermark)
         == StillPending(pending[..n], highWatermark) + if pending[n].offset < highWatermark then [] else [pending[n]]
    ensures Commits(pending[..n + 1], highWatermark)
         == Commits(pending[..n], highWatermark)
            + if pending[n].offset < highWatermark then [CommitPropose(pending[n].proposeId)] else []
    decreases n
  {
    if n > 0 {
      assert pending[..n + 1][1..] == pending[1..][..n] && pending[..n][1..] == pending[1..][..n - 1];
      CommitsAppend(pending[1..], n - 1, highWatermark);
    } else {
      assert pending[..1][1..] == [];
    }
  }

  /** Removing, or stepping over, the element right after a prefix. */
  lemma SplitAfter<T>(kept: seq<T>, was: seq<T>, n: nat)
    requires n < |was|
    ensures var now := kept + was[n..];
            && now[|kept|] == was[n]
            && now[..|kept|] + now[|kept| + 1..] == kept + was[n + 1..]
            && now == (kept + [was[n]]) + was[n + 1..]
  {
  }

  lemma {:induction false} AppendsAppend(entries: seq<LogEntry>, e: LogEntry)
    ensures Appends(entries + [e]) == Appends(entries) + [AppendToLog(e)]
    decreases |entries|
  {
    if entries != [] {
      assert (entries + [e])[1..] == entries[1..] + [e];
      AppendsAppend(entries[1..], e);
    }
  }

  class Node {
    const id: nat
    const voters: seq<nat>
    const log: VecLog
    var currentEpoch: nat
    var votedFor: Option<nat>
    var role: Role
    var leaderId: Option<nat>
    var votesReceived: set<nat>
    var voterFetchOffsets: map<nat, nat>
    var highWatermark: nat
    var pending: seq<Pending>

    ghost function State(): NodeState
      reads this
    {
      NodeState(id, voters, currentEpoch, votedFor, role, leaderId, votesReceived, voterFetchOffsets, highWatermark, pending)
    }

    constructor (id: nat, voters: seq<nat>, quorumState: QuorumState, log: VecLog)
      ensures State() == Restarted(id, voters, quorumState) && this.log == log
    {
      this.id := id;
      this.voters := voters;
      this.log := log;
      currentEpoch := quorumState.currentEpoch;
      votedFor := quorumState.votedFor;
      role := Follower;
      leaderId := None;
      votesReceived := {};
      voterFetchOffsets := map[];
      highWatermark := 0;
      pending := [];
    }

    function Majority(): nat { |voters| / 2 + 1 }

    method BecomeFollower(epoch: nat, leaderId: Option<nat>)
      modifies this
      ensures State() == NodeSpec.BecomeFollower(old(State()), epoch, leaderId)
    {
      currentEpoch := epoch;
      role := Follower;
      this.leaderId := leaderId;
      votedFor := None;
      votesReceived := {};
    }

    method RejectPendingProposes() returns (actions: seq<Action>)
      modifies this
      ensures State() == old(State()).(pending := [])
      ensures actions == Rejections(old(pending))
    {
      actions := [];
      var i := 0;
      while i < |pending|
        invariant 0 <= i <= |pending|
        invariant State() == old(State())
        invariant actions == Rejections(pending[..i])
      {
        assert pending[..i + 1] == pending[..i] + [pending[i]];
        RejectionsAppend(pending[..i], pending[i]);
        actions := actions + [RejectPropose(pending[i].proposeId)];
        i := i + 1;
      }
      assert pending[..i] == pending;
      pending := [];
    }

    method BecomeLeader() returns (actions: seq<Action>)
      modifies this
      ensures Outcome(State(), actions) == NodeSpec.BecomeLeader(old(State()))
    {
      hide Others, NewFetchOffsets;
      NobodyTold(id);
      role := Leader;
      leaderId := Some(id);
      voterFetchOffsets := map[];
      var targets: seq<nat> := [];
      var i := 0;
      while i < |voters|
        invariant 0 <= i <= |voters|
        invariant State() == old(State()).(role := Leader, leaderId := Some(id), voterFetchOffsets := voterFetchOffsets)
        invariant voterFetchOffsets == NewFetchOffsets(voters[..i], id)
        invariant targets == Others(voters[..i], id)
      {
        assert voters[..i + 1] == voters[..i] + [voters[i]];
        OthersAppend(voters[..i], voters[i], id);
        NewFetchOffsetsAppend(voters[..i], voters[i], id);
        if voters[i] != id {
          voterFetchOffsets := voterFetchOffsets[voters[i] := 0];
          targets := targets + [voters[i]];
        }
        i := i + 1;
      }
      assert voters[..i] == voters;
      actions := [ResetHeartbeatTimer, SendBeginQuorumEpoch(targets, BeginQuorumEpochRequest(currentEpoch, id))];
    }

    method HandleElectionTimeout() returns (actions: seq<Action>)
      modifies this
      ensures Outcome(State(), actions) == NodeSpec.HandleElectionTimeout(old(State()), old(log.entries))
    {
      hide SendVotes, Others, NewFetchOffsets;
      if role == Leader { return []; }
      currentEpoch := currentEpoch + 1;
      role := Candidate;
      votedFor := Some(id);
      votesReceived := {id};
      actions := [PersistQuorumState, ResetElectionTimer];
      if |votesReceived| >= Majority() {
        var won := BecomeLeader();
        return actions + won;
      }
      var req := VoteRequest(currentEpoch, id, LastEpoch(log.entries), EndOffset(log.entries));
      NobodyAsked(id, req);
      ghost var asked := State();
      var sends: seq<Action> := [];
      var i := 0;
      while i < |voters|
        invariant 0 <= i <= |voters|
        invariant State() == asked
        invariant sends == SendVotes(Others(voters[..i], id), req)
      {
        assert voters[..i + 1] == voters[..i] + [voters[i]];
        OthersAppend(voters[..i], voters[i], id);
        if voters[i] != id {
          SendVotesAppend(Others(voters[..i], id), voters[i], req);
          sends := sends + [SendVote(voters[i], req)];
        }
        i := i + 1;
      }
      assert voters[..i] == voters;
      actions := actions + sends;
    }

    method HandleVoteRequest(from: nat, req: VoteRequest) returns (actions: seq<Action>)
      modifies this
      ensures Outcome(State(), actions) == NodeSpec.HandleVoteRequest(old(State()), old(log.entries), from, req)
    {
      actions := [];
      if req.epoch > currentEpoch {
        BecomeFollower(req.epoch, None);
        actions := actions + [PersistQuorumState];
      }
      if req.epoch < currentEpoch {
        actions := actions + [SendVoteResponse(from, VoteResponse(currentEpoch, false))];
        return;
      }
      var canVote := votedFor == None || votedFor == Some(from);
      var logOk := IsLogUpToDate(log.entries, req.lastLogEpoch, req.lastLogOffset);
      if canVote && logOk {
        votedFor := Some(from);
        actions := actions + [PersistQuorumState];
        actions := actions + [ResetElectionTimer];
        actions := actions + [SendVoteResponse(from, VoteResponse(currentEpoch, true))];
      } else {
        actions := actions + [SendVoteResponse(from, VoteResponse(currentEpoch, false))];
      }
    }

    method HandleVoteResponse(from: nat, resp: VoteResponse) returns (actions: seq<Action>)
      modifies this
      ensures Outcome(State(), actions) == NodeSpec.HandleVoteResponse(old(State()), from, resp)
    {
      if resp.epoch > currentEpoch {
        BecomeFollower(resp.epoch, None);
        return [PersistQuorumState];
      }
      if role != Candidate || resp.epoch != currentEpoch { return []; }
      if resp.granted {
        votesReceived := votesReceived + {from};
        if |votesReceived| >= Majority() {
          actions := BecomeLeader();
          return;
        }
      }
      return [];
    }

    method HandleBeginQuorumEpoch(from: nat, req: BeginQuorumEpochRequest) returns (actions: seq<Action>)
      modifies this
      ensures Outcome(State(), actions) == NodeSpec.HandleBeginQuorumEpoch(old(State()), req)
    {
      actions := [];
      if req.epoch >= currentEpoch {
        BecomeFollower(req.epoch, Some(req.leaderId));
        var rejected := RejectPendingProposes();
        actions := [PersistQuorumState, ResetElectionTimer] + rejected;
      }
    }

    method HandleEndQuorumEpoch(from: nat, req: EndQuorumEpochRequest) returns (actions: seq<Action>)
      modifies this
      ensures Outcome(State(), actions) == NodeSpec.HandleEndQuorumEpoch(old(State()), req)
    {
      if req.epoch >= currentEpoch {
        BecomeFollower(req.epoch, None);
        var rejected := RejectPendingProposes();
        return [PersistQuorumState, ResetElectionTimer] + rejected;
      }
      return [];
    }

    /** Removes the committed proposals from the list one at a time. */
    method CheckCommittedProposes() returns (actions: seq<Action>)
      modifies this
      ensures State() == old(State()).(pending := StillPending(old(pending), highWatermark))
      ensures actions == Commits(old(pending), highWatermark)
    {
      actions := [];
      var i := 0;
      ghost var was := pending;
      ghost var seen := 0;
      ghost var kept: seq<Pending> := [];
      while i < |pending|
        invariant 0 <= seen <= |was|
        invariant State() == old(State()).(pending := pending)
        invariant kept == StillPending(was[..seen], highWatermark) && i == |kept|
        invariant pending == kept + was[seen..]
        invariant actions == Commits(was[..seen], highWatermark)
        decreases |was| - seen
      {
        SplitAfter(kept, was, seen);
        CommitsAppend(was, seen, highWatermark);
        if pending[i].offset < highWatermark {
          actions := actions + [CommitPropose(pending[i].proposeId)];
          pending := pending[..i] + pending[i + 1..];
        } else {
          kept := kept + [pending[i]];
          i := i + 1;
        }
        seen := seen + 1;
      }
      assert was[..seen] == was;
    }

    /** The values of the fetch-offset table, in whatever order the table yields them. */
    method FetchOffsetValues() returns (offsets: seq<nat>)
      ensures |offsets| == |voterFetchOffsets|
      ensures forall bound: nat :: CountAtLeast(offsets, bound) == |AtOrBeyond(voterFetchOffsets, bound)|
    {
      offsets := [];
      var left := voterFetchOffsets.Keys;
      ghost var taken: set<nat> := {};
      while left != {}
        invariant taken + left == voterFetchOffsets.Keys && taken !! left
        invariant |offsets| == |taken|
        invariant forall bound: nat :: CountAtLeast(offsets, bound) == |AtLeast(taken, voterFetchOffsets, bound)|
        decreases left
      {
        var v :| v in left;
        forall bound: nat
          ensures CountAtLeast(offsets + [voterFetchOffsets[v]], bound) == |AtLeast(taken + {v}, voterFetchOffsets, bound)|
        {
          CountAppend(offsets, voterFetchOffsets[v], bound);
          AtLeastWithOneMore(taken, v, voterFetchOffsets, bound);
        }
        offsets := offsets + [voterFetchOffsets[v]];
        taken := taken + {v};
        left := left - {v};
      }
      assert taken == voterFetchOffsets.Keys;
      forall bound: nat
        ensures CountAtLeast(offsets, bound) == |AtOrBeyond(voterFetchOffsets, bound)|
      {
        assert AtLeast(taken, voterFetchOffsets, bound) == AtOrBeyond(voterFetchOffsets, bound);
      }
    }

    method TryAdvanceHighWatermark() returns (actions: seq<Action>)
      modifies this
      ensures Outcome(State(), actions) == NodeSpec.TryAdvanceHighWatermark(old(State()), old(log.entries))
    {
      hide EpochAt, EndOffset, StillPending, Commits, IsQuorumOffset, Reached;
      var myOffset := EndOffset(log.entries);
      var offsets := FetchOffsetValues();
      forall bound: nat
        ensures CountAtLeast(offsets + [myOffset], bound) == Reached(voterFetchOffsets, myOffset, bound)
      {
        CountAppend(offsets, myOffset, bound);
        ReachedIs(voterFetchOffsets, myOffset, bound);
      }
      offsets := offsets + [myOffset];
      SortKeepsCounts(offsets, 0);
      var sorted := SortDescending(offsets);
      if |sorted| < Majority() { return []; }
      var newHwm := sorted[Majority() - 1];
      KthLargestIsQuorumOffset(voterFetchOffsets, myOffset, offsets, Majority());
      QuorumOffsetUnique(voterFetchOffsets, myOffset, Majority(), newHwm,
                         QuorumOffset(voterFetchOffsets, myOffset, Majority()));
      if newHwm <= highWatermark { return []; }
      var at := EpochAt(log.entries, newHwm - 1);
      if at.Some? && at.value != currentEpoch { return []; }
      highWatermark := newHwm;
      var committed := CheckCommittedProposes();
      actions := [AdvanceHighWatermark(newHwm)] + committed;
    }

    method HandleFetchRequest(from: nat, req: FetchRequest) returns (actions: seq<Action>)
      modifies this
      ensures Outcome(State(), actions) == NodeSpec.HandleFetchRequest(old(State()), old(log.entries), from, req)
    {
      if req.epoch > currentEpoch {
        BecomeFollower(req.epoch, None);
        return [PersistQuorumState, SendFetchResponse(from, FetchResponse(currentEpoch, highWatermark, [], None))];
      }
      if req.epoch < currentEpoch || role != Leader {
        return [SendFetchResponse(from, FetchResponse(currentEpoch, highWatermark, [], None))];
      }
      var diverging := CheckDivergence(log.entries, req.fetchOffset, req.lastFetchedEpoch);
      if diverging.Some? {
        return [SendFetchResponse(from, FetchResponse(currentEpoch, highWatermark, [], diverging))];
      }
      var entries := EntriesBetween(log.entries, req.fetchOffset, EndOffset(log.entries));
      if from in voters {
        voterFetchOffsets := voterFetchOffsets[from := req.fetchOffset];
      }
      var response := FetchResponse(currentEpoch, highWatermark, entries, None);
      var advanced := TryAdvanceHighWatermark();
      actions := [SendFetchResponse(from, response)] + advanced;
    }

    method HandleFetchResponse(from: nat, resp: FetchResponse) returns (actions: seq<Action>)
      modifies this
      ensures Outcome(State(), actions) == NodeSpec.HandleFetchResponse(old(State()), old(log.entries), resp)
    {
      hide Appends, Commits, Rejections, StillPending, EndOffset;
      NothingAppended();
      if resp.epoch > currentEpoch {
        BecomeFollower(resp.epoch, None);
        var rejected := RejectPendingProposes();
        return [PersistQuorumState] + rejected;
      }
      if role != Follower { return []; }
      if resp.diverging.Some? { return [TruncateLog(resp.diverging.value.endOffset)]; }
      actions := [];
      var i := 0;
      while i < |resp.entries|
        invariant 0 <= i <= |resp.entries| && State() == old(State()) && log.entries == old(log.entries)
        invariant actions == Appends(resp.entries[..i])
      {
        assert resp.entries[..i + 1] == resp.entries[..i] + [resp.entries[i]];
        AppendsAppend(resp.entries[..i], resp.entries[i]);
        actions := actions + [AppendToLog(resp.entries[i])];
        i := i + 1;
      }
      assert resp.entries[..i] == resp.entries;
      if resp.highWatermark > highWatermark {
        highWatermark := Min(resp.highWatermark, EndOffset(log.entries));
        actions := actions + [AdvanceHighWatermark(highWatermark)];
        var committed := CheckCommittedProposes();
        actions := actions + committed;
      }
      actions := actions + [ResetElectionTimer];
    }

    method HandleHeartbeatTimeout() returns (actions: seq<Action>)
      modifies this
      ensures Outcome(State(), actions) == NodeSpec.HandleHeartbeatTimeout(old(State()), old(log.entries))
    {
      hide Heartbeats, Others, EntriesBetween, EndOffset;
      if role != Leader { return []; }
      ghost var s := State();
      NobodyBeaten(s, log.entries);
      var sends: seq<Action> := [];
      var i := 0;
      while i < |voters|
        invariant 0 <= i <= |voters|
        invariant State() == s && log.entries == old(log.entries)
        invariant sends == Heartbeats(s, log.entries, Others(voters[..i], id))
      {
        assert voters[..i + 1] == voters[..i] + [voters[i]];
        OthersAppend(voters[..i], voters[i], id);
        if voters[i] != id {
          HeartbeatsAppend(s, log.entries, Others(voters[..i], id), voters[i]);
          OneBeaten(s, log.entries, voters[i]);
          var fetchOffset := if voters[i] in voterFetchOffsets then voterFetchOffsets[voters[i]] else 0;
          var entries := EntriesBetween(log.entries, fetchOffset, EndOffset(log.entries));
          sends := sends + [SendFetchResponse(voters[i], FetchResponse(currentEpoch, highWatermark, entries, None))];
        }
        i := i + 1;
      }
      assert voters[..i] == voters;
      actions := [ResetHeartbeatTimer] + sends;
    }

    method HandlePropose(data: seq<byte>, proposeId: nat) returns (actions: seq<Action>)
      modifies this
      ensures Outcome(State(), actions) == NodeSpec.HandlePropose(old(State()), old(log.entries), data, proposeId)
    {
      if role != Leader { return [RejectPropose(proposeId)]; }
      var offset := EndOffset(log.entries);
      pending := pending + [Pending(offset, proposeId)];
      actions := [AppendToLog(LogEntry(currentEpoch, offset, data))];
    }

    method Handle(event: Event) returns (actions: seq<Action>)
      modifies this
      ensures Outcome(State(), actions) == NodeSpec.Handle(old(State()), old(log.entries), event)
    {
      match event
      case ElectionTimeout => actions := HandleElectionTimeout();
      case HeartbeatTimeout => actions := HandleHeartbeatTimeout();
      case VoteRequestEvent(from, req) => actions := HandleVoteRequest(from, req);
      case VoteResponseEvent(from, resp) => actions := HandleVoteResponse(from, resp);
      case BeginQuorumEpochEvent(from, req) => actions := HandleBeginQuorumEpoch(from, req);
      case EndQuorumEpochEvent(from, req) => actions := HandleEndQuorumEpoch(from, req);
      case FetchRequestEvent(from, req) => actions := HandleFetchRequest(from, req);
      case FetchResponseEvent(from, resp) => actions := HandleFetchResponse(from, resp);
      case Propose(data, proposeId) => actions := HandlePropose(data, proposeId);
    }
  }
}
