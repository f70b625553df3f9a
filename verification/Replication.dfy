/** What leaders answer and send, and what followers and clients learn from it, said over the
    entries of gap-free logs. */
module Replication {
  import opened Bytes
  import opened Options
  import opened RaftTypes
  import opened FlatLog
  import opened NodeSpec
  import opened Watermark
  import RunnerSpec
  import NodeFacts
  import VoteRules

  // ---- answers to a fetch --------------------------------------------------

  /** The first entry of the epoch, or zero when there is none. */
  ghost predicate StartsAt(log: seq<LogEntry>, epoch: nat, at: nat) {
    if exists i :: 0 <= i < |log| && log[i].epoch == epoch then
      at < |log| && log[at].epoch == epoch && forall i :: 0 <= i < at ==> log[i].epoch != epoch
    else at == 0
  }

  lemma EpochStartsAt(log: seq<LogEntry>, epoch: nat)
    requires Dense(log)
    ensures StartsAt(log, epoch, EpochStart(log, epoch))
  {
    if exists i :: 0 <= i < |log| && log[i].epoch == epoch {
      var at := EpochStartIsFirst(log, epoch);
    } else {
      EpochStartOfAbsent(log, epoch);
    }
  }

  /** What a node answers to a fetch, over a gap-free log: its epoch by then and the watermark
      from before, and, from the leader of the epoch, either all entries from an offset that
      matches, or where the asker's last epoch starts. */
  ghost predicate IsAnswer(s: NodeState, log: seq<LogEntry>, req: FetchRequest, resp: FetchResponse) {
    && resp.epoch == (if req.epoch > s.currentEpoch then req.epoch else s.currentEpoch)
    && resp.highWatermark == s.highWatermark
    && if AcceptsFetch(s, log, req) then resp.diverging == None && resp.entries == log[req.fetchOffset..]
       else
         && resp.entries == []
         && if req.epoch == s.currentEpoch && s.role == Leader then
              && resp.diverging.Some? && resp.diverging.value.epoch == req.lastFetchedEpoch
              && StartsAt(log, req.lastFetchedEpoch, resp.diverging.value.endOffset)
            else resp.diverging == None
  }

  lemma AnswersIff(s: NodeState, log: seq<LogEntry>, from: nat, req: FetchRequest, to: nat, resp: FetchResponse)
    requires Dense(log)
    ensures SendFetchResponse(to, resp) in HandleFetchRequest(s, log, from, req).actions <==>
              to == from && IsAnswer(s, log, req, resp)
  {
    hide TryAdvanceHighWatermark, EntriesBetween, EpochAt, EpochStart, StartsAt;
    AcceptsIffNoDivergence(s, log, req);
    EpochStartsAt(log, req.lastFetchedEpoch);
    assert DenseFrom(log, 0);
    EndOfDense(log);
    if AcceptsFetch(s, log, req) {
      EntriesDenseFrom(log, 0, req.fetchOffset, |log|);
      assert log[req.fetchOffset..|log|] == log[req.fetchOffset..];
    }
    if resp.diverging.Some? {
      StartIsOne(log, req.lastFetchedEpoch, resp.diverging.value.endOffset, EpochStart(log, req.lastFetchedEpoch));
    }
    var actions := HandleFetchRequest(s, log, from, req).actions;
    NodeFacts.AdvanceEmits(Noted(s, from, req.fetchOffset), log);
    var i := if req.epoch > s.currentEpoch then 1 else 0;
    assert actions[i].SendFetchResponse? && IsAnswer(s, log, req, actions[i].fetchResponse);
    assert to == from && IsAnswer(s, log, req, resp) ==> actions[i] == SendFetchResponse(to, resp);
  }

  lemma StartIsOne(log: seq<LogEntry>, epoch: nat, a: nat, b: nat)
    requires StartsAt(log, epoch, b)
    ensures StartsAt(log, epoch, a) <==> a == b
  {
  }

  // ---- heartbeats ----------------------------------------------------------

  function From(log: seq<LogEntry>, offset: nat): seq<LogEntry> { if offset <= |log| then log[offset..] else [] }

  /** A heartbeat to a voter: all entries from where it last fetched, or all when it never did. */
  ghost predicate IsHeartbeat(s: NodeState, log: seq<LogEntry>, to: nat, resp: FetchResponse) {
    resp == FetchResponse(s.currentEpoch, s.highWatermark,
                          From(log, if to in s.voterFetchOffsets then s.voterFetchOffsets[to] else 0), None)
  }

  lemma EntriesFrom(log: seq<LogEntry>, offset: nat)
    requires Dense(log)
    ensures EntriesBetween(log, offset, EndOffset(log)) == From(log, offset)
  {
    EndOfDense(log);
    assert DenseFrom(log, 0);
    if offset <= |log| {
      EntriesDenseFrom(log, 0, offset, |log|);
      assert log[offset..|log|] == log[offset..];
    } else {
      NoEntries(log, offset, |log|);
    }
  }

  lemma {:induction false} HeartbeatsSentTo(s: NodeState, log: seq<LogEntry>, targets: seq<nat>, to: nat, resp: FetchResponse)
    requires Dense(log)
    ensures SendFetchResponse(to, resp) in Heartbeats(s, log, targets) <==> to in targets && IsHeartbeat(s, log, to, resp)
    decreases |targets|
  {
    hide EntriesBetween, EndOffset, From, Dense;
    if targets != [] {
      EntriesFrom(log, FetchOffsetOf(s, targets[0]));
      HeartbeatsSentTo(s, log, targets[1..], to, resp);
      assert targets == [targets[0]] + targets[1..];
    }
  }

  /** For every event, over a gap-free log: fetch responses go out exactly as the answer to the
      sender of a fetch request, and as a leader's heartbeats, one to each other voter with all
      entries from where that voter last fetched. */
  lemma SendsFetchResponseIff(s: NodeState, log: seq<LogEntry>, event: Event, to: nat, resp: FetchResponse)
    requires Dense(log)
    ensures SendFetchResponse(to, resp) in Handle(s, log, event).actions <==>
              || (event.FetchRequestEvent? && to == event.from && IsAnswer(s, log, event.fetchRequest, resp))
              || (event.HeartbeatTimeout? && s.role == Leader && to in s.voters && to != s.id && IsHeartbeat(s, log, to, resp))
  {
    hide HandleElectionTimeout, HandleVoteRequest, HandleVoteResponse, HandleBeginQuorumEpoch, HandleEndQuorumEpoch,
      HandleFetchRequest, HandleFetchResponse, HandlePropose, IsAnswer, IsHeartbeat, Heartbeats, Others, Dense;
    NodeFacts.EventEmits(s, log, event);
    match event
    case FetchRequestEvent(from, req) => AnswersIff(s, log, from, req, to, resp);
    case HeartbeatTimeout =>
      VoteRules.OthersAre(s.voters, s.id, to);
      HeartbeatsSentTo(s, log, Others(s.voters, s.id), to, resp);
    case _ =>
  }

  // ---- committing ----------------------------------------------------------

  /** Nothing pending lies below the watermark. */
  ghost predicate NothingOverdue(s: NodeState) {
    forall p :: p in s.pending ==> p.offset >= s.highWatermark
  }

  lemma {:induction false} StillPendingAre(pending: seq<Pending>, h: nat, p: Pending)
    ensures p in StillPending(pending, h) <==> p in pending && p.offset >= h
    decreases |pending|
  {
    if pending != [] {
      StillPendingAre(pending[1..], h, p);
      assert pending == [pending[0]] + pending[1..];
    }
  }

  lemma {:induction false} CommitsAre(pending: seq<Pending>, h: nat, id: nat)
    ensures CommitPropose(id) in Commits(pending, h) <==> exists p :: p in pending && p.proposeId == id && p.offset < h
    decreases |pending|
  {
    if pending != [] {
      CommitsAre(pending[1..], h, id);
      assert pending == [pending[0]] + pending[1..];
      assert pending[0] in pending;
    }
  }

  lemma AdvanceCommits(t: NodeState, log: seq<LogEntry>, id: nat)
    requires NothingOverdue(t)
    ensures var o := TryAdvanceHighWatermark(t, log);
            && NothingOverdue(o.state)
            && (CommitPropose(id) in o.actions <==>
                  exists p :: p in t.pending && p.proposeId == id && p.offset < o.state.highWatermark)
            && (forall p :: p in o.state.pending <==> p in t.pending && p.offset >= o.state.highWatermark)
  {
    hide Commits, StillPending, QuorumOffset, IsQuorumOffset, EpochAt;
    var h := TryAdvanceHighWatermark(t, log).state.highWatermark;
    CommitsAre(t.pending, h, id);
    forall p { StillPendingAre(t.pending, h, p); }
  }

  lemma FetchRequestCommits(s: NodeState, log: seq<LogEntry>, from: nat, req: FetchRequest, id: nat)
    requires NothingOverdue(s)
    ensures var o := HandleFetchRequest(s, log, from, req);
            && NothingOverdue(o.state)
            && (CommitPropose(id) in o.actions <==>
                  exists p :: p in s.pending && p.proposeId == id && p.offset < o.state.highWatermark)
            && (forall p :: p in o.state.pending <==> p in s.pending && p.offset >= o.state.highWatermark)
  {
    hide TryAdvanceHighWatermark, CheckDivergence, EntriesBetween;
    AdvanceCommits(Noted(s, from, req.fetchOffset), log, id);
  }

  lemma FetchResponseCommits(s: NodeState, log: seq<LogEntry>, resp: FetchResponse, id: nat)
    requires NothingOverdue(s)
    ensures var o := HandleFetchResponse(s, log, resp);
            && NothingOverdue(o.state)
            && (CommitPropose(id) in o.actions <==>
                  resp.epoch <= s.currentEpoch
                  && exists p :: p in s.pending && p.proposeId == id && p.offset < o.state.highWatermark)
            && (resp.epoch <= s.currentEpoch ==>
                  forall p :: p in o.state.pending <==> p in s.pending && (p.offset >= o.state.highWatermark || o.state == s))
  {
    hide Commits, StillPending, Appends, Rejections, EndOffset;
    NodeFacts.RejectionsOnly(s.pending);
    NodeFacts.AppendsOnly(resp.entries);
    var h := HandleFetchResponse(s, log, resp).state.highWatermark;
    CommitsAre(s.pending, h, id);
    forall p { StillPendingAre(s.pending, h, p); }
  }

  /** For every event: nothing comes to be pending below the watermark, and a proposal is
      committed exactly when it was pending and the watermark is now above where it was
      recorded. */
  lemma CommitsIff(s: NodeState, log: seq<LogEntry>, event: Event, id: nat)
    requires NothingOverdue(s) && WellPlaced(s, log)
    ensures var o := Handle(s, log, event);
            && NothingOverdue(o.state)
            && (CommitPropose(id) in o.actions <==>
                  exists p :: p in s.pending && p.proposeId == id && p.offset < o.state.highWatermark)
  {
    hide HandleFetchRequest, HandleFetchResponse, Rejections, Others, SendVotes, Heartbeats, NewFetchOffsets, IsLogUpToDate;
    NodeFacts.EventEmits(s, log, event);
    EndOfDense(log);
    match event
    case FetchRequestEvent(from, req) => FetchRequestCommits(s, log, from, req, id);
    case FetchResponseEvent(_, resp) =>
      FetchResponseCommits(s, log, resp, id);
      NewsKeepsWatermark(s, log, resp);
    case _ =>
  }

  lemma NewsKeepsWatermark(s: NodeState, log: seq<LogEntry>, resp: FetchResponse)
    ensures resp.epoch > s.currentEpoch ==> HandleFetchResponse(s, log, resp).state.highWatermark == s.highWatermark
  {
    hide Rejections, Appends, Commits, StillPending;
  }

  /** Over every orderly run: no proposal is ever left pending below the watermark. */
  lemma {:induction false} NeverOverdue(r: RunnerSpec.RunnerState, inputs: seq<RunnerSpec.Input>)
    requires WellPlaced(r.node, r.log) && OrderlyRun(r, inputs) && NothingOverdue(r.node)
    ensures NothingOverdue(RunnerSpec.RunAll(r, inputs).state.node)
    decreases |inputs|
  {
    hide OrderlyRun, OrderlyNext, Handle, NothingOverdue, WellPlaced, RunnerSpec.LogAfter;
    if inputs == [] {
      RunOfNothing(r);
    } else {
      var last := |inputs| - 1;
      var before := inputs[..last];
      assert before + [inputs[last]] == inputs;
      LastOfOrderly(r, before, inputs[last]);
      NeverOverdue(r, before);
      WatermarkNeverGoesBack(r, before, last);
      var at := RunnerSpec.RunAll(r, before).state;
      CommitsIff(at.node, at.log, RunnerSpec.EventOf(at, inputs[last]), 0);
    }
  }

  // ---- what a follower learns ----------------------------------------------

  /** A follower takes in what the response carries. */
  ghost predicate TakesIn(s: NodeState, resp: FetchResponse) {
    resp.epoch <= s.currentEpoch && s.role == Follower && resp.diverging == None
  }

  /** For every fetch response and every h: the watermark afterwards is h exactly when h is the
      largest offset that is in the log and that the response or the follower itself already
      vouches for; if the response is not taken in, it stays. */
  lemma FollowerLearnsIff(s: NodeState, log: seq<LogEntry>, resp: FetchResponse, h: nat)
    requires Dense(log) && s.highWatermark <= |log|
    ensures HandleFetchResponse(s, log, resp).state.highWatermark == h <==>
              if TakesIn(s, resp) then
                Vouched(s, log, resp, h) && forall larger: nat :: larger > h ==> !Vouched(s, log, resp, larger)
              else h == s.highWatermark
    ensures AdvanceHighWatermark(h) in HandleFetchResponse(s, log, resp).actions <==>
              TakesIn(s, resp) && h == HandleFetchResponse(s, log, resp).state.highWatermark && resp.highWatermark > s.highWatermark
  {
    hide Rejections, Appends, Commits, StillPending;
    EndOfDense(log);
    NodeFacts.RejectionsOnly(s.pending);
    NodeFacts.AppendsOnly(resp.entries);
    var now := HandleFetchResponse(s, log, resp).state.highWatermark;
    NodeFacts.CommitsOnly(s.pending, now);
    if TakesIn(s, resp) {
      assert Vouched(s, log, resp, now) && forall larger: nat :: larger > now ==> !Vouched(s, log, resp, larger);
    }
  }

  ghost predicate Vouched(s: NodeState, log: seq<LogEntry>, resp: FetchResponse, h: nat) {
    h <= |log| && (h <= resp.highWatermark || h <= s.highWatermark)
  }

  /** A follower of the leader's epoch whose log equals the leader's, and whose watermark is no
      higher, ends an exchange with the watermark the leader had when it answered, and with
      exactly the proposals below it no longer pending. */
  lemma ExchangeEvensWatermark(leader: NodeState, s: NodeState, log: seq<LogEntry>, resp: FetchResponse)
    requires leader.role == Leader && s.role == Follower && s.currentEpoch == leader.currentEpoch
    requires WellPlaced(leader, log) && s.highWatermark <= leader.highWatermark && NothingOverdue(s)
    requires SendFetchResponse(s.id, resp) in
               HandleFetchRequest(leader, log, s.id, FetchRequest(s.currentEpoch, EndOffset(log), LastEpoch(log))).actions
    ensures var o := HandleFetchResponse(s, log, resp);
            && o.state.highWatermark == leader.highWatermark
            && (forall p :: p in o.state.pending <==> p in s.pending && p.offset >= leader.highWatermark)
            && RunnerSpec.LogAfter(log, o.actions) == log
  {
    hide HandleFetchRequest, HandleFetchResponse, StartsAt, RunnerSpec.LogAfter;
    EndOfDense(log);
    var req := FetchRequest(s.currentEpoch, EndOffset(log), LastEpoch(log));
    AnswersIff(leader, log, s.id, req, s.id, resp);
    assert AcceptsFetch(leader, log, req);
    assert log + [] == log;
    FollowerLearnsIff(s, log, resp, leader.highWatermark);
    FetchResponseCommits(s, log, resp, 0);
    LogAfterFetchResponse(s, log, resp);
  }
}
