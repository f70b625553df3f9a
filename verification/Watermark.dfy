/** The high watermark: what a leader's advance means, and that it stays inside the log and
    never goes back, over whole runs of a runner. */
module Watermark {
  import opened Bytes
  import opened Options
  import opened RaftTypes
  import opened FlatLog
  import opened NodeSpec
  import opened RunnerSpec
  import NodeFacts

  // ---- what a quorum offset means ------------------------------------------

  /** The voters known to hold everything below `offset`: the leader itself by its log, the
      others by the offset they last fetched from. */
  ghost function Holders(s: NodeState, logEnd: nat, offset: nat): set<nat> {
    AtOrBeyond(s.voterFetchOffsets, offset) + if logEnd >= offset then {s.id} else {}
  }

  /** The leader's table covers other voters only. */
  ghost predicate TableOfOthers(s: NodeState) {
    s.id in s.voters && forall v :: v in s.voterFetchOffsets ==> v in s.voters && v != s.id
  }

  lemma HoldersCounted(s: NodeState, logEnd: nat, offset: nat)
    requires TableOfOthers(s)
    ensures |Holders(s, logEnd, offset)| == Reached(s.voterFetchOffsets, logEnd, offset)
    ensures forall v :: v in Holders(s, logEnd, offset) ==> v in s.voters
  {
    var others := AtOrBeyond(s.voterFetchOffsets, offset);
    if logEnd >= offset {
      assert Holders(s, logEnd, offset) == others + {s.id} && s.id !in others;
    } else {
      assert Holders(s, logEnd, offset) == others;
    }
  }

  /** Nothing beyond every offset is reached by anyone. */
  lemma QuorumOffsetInLog(fetchOffsets: map<nat, nat>, logEnd: nat, quorum: nat, offset: nat)
    requires IsQuorumOffset(fetchOffsets, logEnd, quorum, offset) && quorum >= 1
    requires forall v :: v in fetchOffsets ==> fetchOffsets[v] <= logEnd
    ensures offset <= logEnd
  {
    forall beyond: nat | beyond > logEnd ensures Reached(fetchOffsets, logEnd, beyond) == 0 {
      assert AtOrBeyond(fetchOffsets, beyond) == {};
    }
  }

  /** What the fetch request accepted by a leader leaves in its table. */
  ghost function Noted(s: NodeState, from: nat, fetchOffset: nat): NodeState {
    if from in s.voters then s.(voterFetchOffsets := s.voterFetchOffsets[from := fetchOffset]) else s
  }

  ghost predicate TableInLog(s: NodeState, log: seq<LogEntry>) {
    forall v :: v in s.voterFetchOffsets ==> s.voterFetchOffsets[v] <= |log|
  }

  lemma AcceptedOffsetInLog(log: seq<LogEntry>, fetchOffset: nat, lastFetchedEpoch: nat)
    requires Dense(log) && CheckDivergence(log, fetchOffset, lastFetchedEpoch) == None
    ensures fetchOffset <= |log|
    ensures fetchOffset > 0 ==> log[fetchOffset - 1].epoch == lastFetchedEpoch
  {
    assert DenseFrom(log, 0);
    if fetchOffset > 0 { EpochAtDenseFrom(log, 0, fetchOffset - 1); }
  }

  /** An advance from s to h, with the table of t: a majority of distinct voters hold everything
      below h, no larger offset has one, h is inside the log, above the old watermark, and the
      entry just below h is of the leader's own epoch. */
  ghost predicate SoundAdvance(s: NodeState, t: NodeState, log: seq<LogEntry>, h: nat) {
    && |Holders(t, |log|, h)| >= s.Majority()
    && (forall v :: v in Holders(t, |log|, h) ==> v in s.voters)
    && (forall larger: nat :: larger > h ==> |Holders(t, |log|, larger)| < s.Majority())
    && s.highWatermark < h <= |log|
    && log[h - 1].epoch == s.currentEpoch
  }

  /** When a fetch from another node moves a leader's watermark, the advance is sound. */
  lemma AdvanceHasMajority(s: NodeState, log: seq<LogEntry>, from: nat, req: FetchRequest)
    requires Dense(log) && s.role == Leader && TableOfOthers(s) && TableInLog(s, log) && from != s.id
    requires HandleFetchRequest(s, log, from, req).state.highWatermark != s.highWatermark
    ensures SoundAdvance(s, Noted(s, from, req.fetchOffset), log, HandleFetchRequest(s, log, from, req).state.highWatermark)
  {
    hide HandleFetchRequest, TryAdvanceHighWatermark, CheckDivergence, Holders, Reached;
    var t := Noted(s, from, req.fetchOffset);
    AdvanceIsOfNoted(s, log, from, req);
    AcceptedOffsetInLog(log, req.fetchOffset, req.lastFetchedEpoch);
    AdvanceInside(t, log);
    var h := HandleFetchRequest(s, log, from, req).state.highWatermark;
    assert TableOfOthers(t);
    HoldersCounted(t, |log|, h);
    forall larger: nat | larger > h ensures |Holders(t, |log|, larger)| < s.Majority() {
      HoldersCounted(t, |log|, larger);
    }
  }

  /** A leader's watermark moves only on an accepted fetch, and then as the noted table says. */
  lemma AdvanceIsOfNoted(s: NodeState, log: seq<LogEntry>, from: nat, req: FetchRequest)
    requires s.role == Leader && HandleFetchRequest(s, log, from, req).state.highWatermark != s.highWatermark
    ensures CheckDivergence(log, req.fetchOffset, req.lastFetchedEpoch) == None
    ensures HandleFetchRequest(s, log, from, req).state.highWatermark
         == TryAdvanceHighWatermark(Noted(s, from, req.fetchOffset), log).state.highWatermark
  {
  }

  lemma AdvanceInside(t: NodeState, log: seq<LogEntry>)
    requires Dense(log) && TableInLog(t, log)
    ensures var h := TryAdvanceHighWatermark(t, log).state.highWatermark;
            h == t.highWatermark
            || (t.highWatermark < h <= |log| && log[h - 1].epoch == t.currentEpoch
                && IsQuorumOffset(t.voterFetchOffsets, |log|, t.Majority(), h))
  {
    EndOfDense(log);
    var h := TryAdvanceHighWatermark(t, log).state.highWatermark;
    if h != t.highWatermark {
      QuorumOffsetInLog(t.voterFetchOffsets, |log|, t.Majority(), h);
      assert DenseFrom(log, 0);
      EpochAtDenseFrom(log, 0, h - 1);
    }
  }

  /** The leader accepts the position a fetch names: nothing, or an entry it has itself. */
  ghost predicate AcceptsFetch(s: NodeState, log: seq<LogEntry>, req: FetchRequest) {
    && s.role == Leader && req.epoch == s.currentEpoch
    && (req.fetchOffset == 0 || (req.fetchOffset <= |log| && log[req.fetchOffset - 1].epoch == req.lastFetchedEpoch))
  }

  lemma AcceptsIffNoDivergence(s: NodeState, log: seq<LogEntry>, req: FetchRequest)
    requires Dense(log)
    ensures AcceptsFetch(s, log, req) <==>
              s.role == Leader && req.epoch == s.currentEpoch && CheckDivergence(log, req.fetchOffset, req.lastFetchedEpoch) == None
  {
    assert DenseFrom(log, 0);
    if req.fetchOffset > 0 { EpochAtDenseFrom(log, 0, req.fetchOffset - 1); }
  }

  /** The quorum offset, told by who holds what. */
  lemma QuorumOffsetIffHeld(t: NodeState, logEnd: nat, h: nat)
    requires TableOfOthers(t)
    ensures IsQuorumOffset(t.voterFetchOffsets, logEnd, t.Majority(), h) <==>
              && |Holders(t, logEnd, h)| >= t.Majority()
              && forall larger: nat :: larger > h ==> |Holders(t, logEnd, larger)| < t.Majority()
  {
    hide Holders, Reached;
    forall offset: nat ensures |Holders(t, logEnd, offset)| == Reached(t.voterFetchOffsets, logEnd, offset) {
      HoldersCounted(t, logEnd, offset);
    }
  }

  /** The watermark of a table moves to h exactly when h is such an offset, above the watermark,
      with the entry below it of the node's epoch. */
  lemma AdvancesToIff(t: NodeState, log: seq<LogEntry>, h: nat)
    requires Dense(log) && TableOfOthers(t) && TableInLog(t, log)
    ensures var u := TryAdvanceHighWatermark(t, log).state;
            (u.highWatermark == h && h != t.highWatermark) <==> SoundAdvance(t, t, log, h)
  {
    hide Holders, Reached;
    EndOfDense(log);
    QuorumOffsetIffHeld(t, |log|, h);
    HoldersCounted(t, |log|, h);
    AdvanceInside(t, log);
    if IsQuorumOffset(t.voterFetchOffsets, |log|, t.Majority(), h) {
      QuorumOffsetInLog(t.voterFetchOffsets, |log|, t.Majority(), h);
      EnoughReplicas(t.voterFetchOffsets, |log|, t.Majority(), h);
      QuorumOffsetUnique(t.voterFetchOffsets, |log|, t.Majority(), h, QuorumOffset(t.voterFetchOffsets, |log|, t.Majority()));
      assert DenseFrom(log, 0);
      if h > 0 { EpochAtDenseFrom(log, 0, h - 1); }
    }
  }

  lemma EnoughReplicas(fetchOffsets: map<nat, nat>, logEnd: nat, quorum: nat, h: nat)
    requires Reached(fetchOffsets, logEnd, h) >= quorum
    ensures |fetchOffsets| + 1 >= quorum
  {
    SubsetSize(AtOrBeyond(fetchOffsets, h), fetchOffsets.Keys);
  }

  /** For every fetch request of another node and every h: the watermark moves to h exactly when
      the leader accepts the fetch and, with its offset noted, the advance to h is sound. So it
      must move whenever a majority is known to hold more, and only then. */
  lemma FetchAdvancesIff(s: NodeState, log: seq<LogEntry>, from: nat, req: FetchRequest, h: nat)
    requires Dense(log) && TableOfOthers(s) && TableInLog(s, log) && from != s.id
    ensures var o := HandleFetchRequest(s, log, from, req);
            && ((o.state.highWatermark == h && h != s.highWatermark) <==>
                  AcceptsFetch(s, log, req) && SoundAdvance(s, Noted(s, from, req.fetchOffset), log, h))
            && (AdvanceHighWatermark(h) in o.actions <==> o.state.highWatermark == h && h != s.highWatermark)
  {
    hide TryAdvanceHighWatermark, CheckDivergence, EntriesBetween, SoundAdvance, AcceptsFetch;
    AcceptsIffNoDivergence(s, log, req);
    var t := Noted(s, from, req.fetchOffset);
    MovesAreAnnounced(t, log, h);
    if AcceptsFetch(s, log, req) {
      AcceptedOffsetInLog(log, req.fetchOffset, req.lastFetchedEpoch);
      AdvancesToIff(t, log, h);
      SameAdvance(s, t, log, h);
    }
  }

  lemma MovesAreAnnounced(t: NodeState, log: seq<LogEntry>, h: nat)
    ensures var o := TryAdvanceHighWatermark(t, log);
            AdvanceHighWatermark(h) in o.actions <==> o.state.highWatermark == h && h != t.highWatermark
  {
    hide Commits, StillPending, QuorumOffset, IsQuorumOffset, EpochAt;
    NodeFacts.CommitsOnly(t.pending, TryAdvanceHighWatermark(t, log).state.highWatermark);
  }

  lemma SameAdvance(s: NodeState, t: NodeState, log: seq<LogEntry>, h: nat)
    requires t == s.(voterFetchOffsets := t.voterFetchOffsets)
    ensures SoundAdvance(t, t, log, h) <==> SoundAdvance(s, t, log, h)
  {
    hide Holders;
  }

  /** A leader of the epoch accepts a fetch from its own id. */
  ghost predicate OwnFetch(s: NodeState, log: seq<LogEntry>, event: Event) {
    && event.FetchRequestEvent? && event.from == s.id && s.role == Leader
    && event.fetchRequest.epoch == s.currentEpoch
    && CheckDivergence(log, event.fetchRequest.fetchOffset, event.fetchRequest.lastFetchedEpoch) == None
  }

  /** For every event: the table goes on covering other voters only exactly unless the leader
      accepts a fetch from itself. */
  lemma TableStaysOfOthersIff(s: NodeState, log: seq<LogEntry>, event: Event)
    requires TableOfOthers(s)
    ensures TableOfOthers(Handle(s, log, event).state) <==> !OwnFetch(s, log, event)
  {
    hide CheckDivergence, EntriesBetween, TryAdvanceHighWatermark, StillPending, Commits, IsLogUpToDate, Rejections,
      SendVotes, Others, Heartbeats, Appends, NewFetchOffsets;
    NewTableOfOthers(s.voters, s.id);
    if OwnFetch(s, log, event) {
      TableAfterAdvance(Noted(s, s.id, event.fetchRequest.fetchOffset), log);
      assert s.id in Noted(s, s.id, event.fetchRequest.fetchOffset).voterFetchOffsets;
    } else if event.FetchRequestEvent? {
      TableAfterAdvance(Noted(s, event.from, event.fetchRequest.fetchOffset), log);
    }
  }

  lemma NewTableOfOthers(voters: seq<nat>, id: nat)
    ensures forall v :: v in NewFetchOffsets(voters, id) ==> v in voters && v != id && NewFetchOffsets(voters, id)[v] == 0
  {
  }

  lemma TableAfterAdvance(t: NodeState, log: seq<LogEntry>)
    ensures var u := TryAdvanceHighWatermark(t, log).state;
            u.voterFetchOffsets == t.voterFetchOffsets && u.voters == t.voters && u.id == t.id
  {
  }

  const SelfServed := map[1 := 1, 2 := 0, 3 := 0]

  lemma SelfServedReachesOne()
    ensures |SelfServed| == 3 && QuorumOffset(SelfServed, 1, 2) == 1
  {
    assert SelfServed.Keys == {1, 2, 3};
    assert |{1, 2, 3}| == 3;
    forall h: nat | h >= 1 ensures Reached(SelfServed, 1, h) == if h == 1 then 2 else 0 {
      assert AtOrBeyond(SelfServed, h) == if h == 1 then {1} else {};
    }
    assert IsQuorumOffset(SelfServed, 1, 2, 1);
    QuorumOffsetUnique(SelfServed, 1, 2, 1, QuorumOffset(SelfServed, 1, 2));
  }

  const LoneLog := [LogEntry(1, 0, [])]

  const LoneLeader := NodeState(1, [1, 2, 3], 1, Some(1), Leader, Some(1), {1, 2}, map[2 := 0, 3 := 0], 0, [])

  ghost predicate AdvancesAlone(s: NodeState, log: seq<LogEntry>, req: FetchRequest) {
    && Dense(log) && s.role == Leader && TableOfOthers(s) && TableInLog(s, log)
    && var h := HandleFetchRequest(s, log, s.id, req).state.highWatermark;
       h != s.highWatermark && |Holders(Noted(s, s.id, req.fetchOffset), |log|, h)| < s.Majority()
  }

  lemma LoneLeaderAdvances()
    ensures HandleFetchRequest(LoneLeader, LoneLog, 1, FetchRequest(1, 1, 1)).state.highWatermark == 1
  {
    var t := Noted(LoneLeader, 1, 1);
    assert LoneLeader.voters[0] == 1;
    assert t.voterFetchOffsets == SelfServed;
    SelfServedReachesOne();
    assert EpochAt(LoneLog, 0) == Some(1);
    assert TryAdvanceHighWatermark(t, LoneLog).state.highWatermark == 1;
  }

  /** Without that an advance need not be sound: a leader of three that fetches from itself
      counts itself twice and advances with no other voter holding anything. */
  lemma OwnFetchCountsTwice()
    ensures exists s: NodeState, log: seq<LogEntry>, req: FetchRequest :: AdvancesAlone(s, log, req)
  {
    hide HandleFetchRequest, AtOrBeyond;
    LoneLeaderAdvances();
    var t := Noted(LoneLeader, 1, 1);
    assert LoneLeader.voters[0] == 1 && LoneLeader.voters[1] == 2 && LoneLeader.voters[2] == 3;
    assert t.voterFetchOffsets == SelfServed;
    SelfServedHolders();
    assert Holders(t, 1, 1) == {1};
    assert AdvancesAlone(LoneLeader, LoneLog, FetchRequest(1, 1, 1));
  }

  lemma SelfServedHolders()
    ensures AtOrBeyond(SelfServed, 1) == {1}
  {
  }

  // ---- the log after a turn ------------------------------------------------

  lemma {:induction false} LogAfterConcat(log: seq<LogEntry>, a: seq<Action>, b: seq<Action>)
    ensures LogAfter(log, a + b) == LogAfter(LogAfter(log, a), b)
    decreases |a|
  {
    if a == [] {
      assert a + b == b;
    } else {
      assert (a + b)[1..] == a[1..] + b;
      LogAfterConcat(LogAfterOne(log, a[0]), a[1..], b);
    }
  }

  lemma {:induction false} LogAfterAppends(log: seq<LogEntry>, entries: seq<LogEntry>)
    ensures LogAfter(log, Appends(entries)) == log + entries
    decreases |entries|
  {
    if entries != [] {
      LogAfterAppends(log + [entries[0]], entries[1..]);
      assert log + entries == log + [entries[0]] + entries[1..];
    }
  }

  lemma {:induction false} LogUntouched(log: seq<LogEntry>, actions: seq<Action>)
    requires forall a :: a in actions ==> !a.AppendToLog? && !a.TruncateLog?
    ensures LogAfter(log, actions) == log
    decreases |actions|
  {
    if actions != [] { LogUntouched(log, actions[1..]); }
  }

  lemma OtherEventsSpareLog(s: NodeState, log: seq<LogEntry>, event: Event)
    requires !event.FetchResponseEvent? && !event.Propose?
    ensures forall a :: a in Handle(s, log, event).actions ==> !a.AppendToLog? && !a.TruncateLog?
  {
    hide Handle;
    NodeFacts.EventEmits(s, log, event);
  }

  /** Only fetch responses and proposals touch the log. */
  lemma OtherEventsKeepLog(s: NodeState, log: seq<LogEntry>, event: Event)
    requires !event.FetchResponseEvent? && !event.Propose?
    ensures LogAfter(log, Handle(s, log, event).actions) == log
  {
    hide Handle;
    OtherEventsSpareLog(s, log, event);
    LogUntouched(log, Handle(s, log, event).actions);
  }

  lemma LogAfterFetchResponse(s: NodeState, log: seq<LogEntry>, resp: FetchResponse)
    ensures LogAfter(log, HandleFetchResponse(s, log, resp).actions) ==
            if resp.epoch > s.currentEpoch || s.role != Follower then log
            else if resp.diverging.Some? then Truncated(log, resp.diverging.value.endOffset)
            else log + resp.entries
  {
    hide Truncated, Appends, EndOffset, Commits, Rejections, StillPending;
    var actions := HandleFetchResponse(s, log, resp).actions;
    if resp.epoch > s.currentEpoch || s.role != Follower {
      NodeFacts.RejectionsOnly(s.pending);
      LogUntouched(log, actions);
    } else if resp.diverging.Some? {
      assert actions[1..] == [];
    } else {
      var h := Min(resp.highWatermark, EndOffset(log));
      NodeFacts.CommitsOnly(s.pending, h);
      var rest := if resp.highWatermark > s.highWatermark then [AdvanceHighWatermark(h)] + Commits(s.pending, h) + [ResetElectionTimer]
                  else [ResetElectionTimer];
      assert actions == Appends(resp.entries) + rest;
      LogAfterConcat(log, Appends(resp.entries), rest);
      LogAfterAppends(log, resp.entries);
      LogUntouched(log + resp.entries, rest);
    }
  }

  // ---- the watermark over runs ---------------------------------------------

  /** The watermark is inside a gap-free log, and a leader's table too. */
  ghost predicate WellPlaced(s: NodeState, log: seq<LogEntry>) {
    && Dense(log) && s.highWatermark <= |log|
    && (s.role == Leader ==> TableInLog(s, log))
  }

  /** A follower is answered where it stands: entries continue its log, and it is never told
      to cut below its watermark. */
  ghost predicate Orderly(s: NodeState, log: seq<LogEntry>, event: Event) {
    event.FetchResponseEvent? && event.fetchResponse.epoch <= s.currentEpoch && s.role == Follower ==>
      var resp := event.fetchResponse;
      if resp.diverging.Some? then resp.diverging.value.endOffset >= s.highWatermark
      else DenseFrom(resp.entries, |log|)
  }

  /** Entries keep the log free of gaps exactly when they continue it. */
  lemma EntriesMustContinueLog(log: seq<LogEntry>, entries: seq<LogEntry>)
    requires Dense(log)
    ensures Dense(log + entries) <==> DenseFrom(entries, |log|)
  {
    if Dense(log + entries) {
      forall i | 0 <= i < |entries| ensures entries[i].offset == |log| + i {
        assert (log + entries)[|log| + i] == entries[i];
      }
    }
  }

  /** For every event, in any role and across any change of role: the watermark stays inside a
      gap-free log exactly when the event is orderly; and then it does not go back. */
  lemma EventKeepsWatermark(s: NodeState, log: seq<LogEntry>, event: Event)
    requires WellPlaced(s, log)
    ensures var o := Handle(s, log, event);
            && (WellPlaced(o.state, LogAfter(log, o.actions)) <==> Orderly(s, log, event))
            && (Orderly(s, log, event) ==> o.state.highWatermark >= s.highWatermark)
  {
    hide HandleElectionTimeout, HandleVoteResponse, HandleFetchRequest, HandleFetchResponse, LogAfter, IsLogUpToDate,
      Rejections, Heartbeats, WellPlaced, Orderly;
    match event
    case FetchResponseEvent(from, resp) => FetchResponseKeepsWatermark(s, log, from, resp);
    case _ => OtherEventKeepsWatermark(s, log, event);
  }

  lemma FetchResponseKeepsWatermark(s: NodeState, log: seq<LogEntry>, from: nat, resp: FetchResponse)
    requires WellPlaced(s, log)
    ensures var o, event := HandleFetchResponse(s, log, resp), FetchResponseEvent(from, resp);
            && (WellPlaced(o.state, LogAfter(log, o.actions)) <==> Orderly(s, log, event))
            && (Orderly(s, log, event) ==> o.state.highWatermark >= s.highWatermark)
  {
    hide LogAfter, Appends, Rejections, Commits, StillPending, Truncated;
    EndOfDense(log);
    LogAfterFetchResponse(s, log, resp);
    assert DenseFrom(log, 0);
    if resp.diverging.Some? { TruncatedDenseFrom(log, 0, resp.diverging.value.endOffset); }
    EntriesMustContinueLog(log, resp.entries);
  }

  /** Events other than fetch responses are always orderly. */
  lemma OtherEventKeepsWatermark(s: NodeState, log: seq<LogEntry>, event: Event)
    requires WellPlaced(s, log) && !event.FetchResponseEvent?
    ensures var o := Handle(s, log, event);
            && Orderly(s, log, event) && WellPlaced(o.state, LogAfter(log, o.actions))
            && o.state.highWatermark >= s.highWatermark
  {
    hide HandleFetchRequest, LogAfter, IsLogUpToDate, Rejections, SendVotes, Others, Heartbeats, NewFetchOffsets;
    EndOfDense(log);
    NewTableOfOthers(s.voters, s.id);
    match event
    case Propose(data, proposeId) => ProposeAppends(s, log, data, proposeId);
    case FetchRequestEvent(from, req) =>
      OtherEventsKeepLog(s, log, event);
      FetchRequestKeepsTable(s, log, from, req);
    case _ => OtherEventsKeepLog(s, log, event);
  }

  lemma ProposeAppends(s: NodeState, log: seq<LogEntry>, data: seq<byte>, proposeId: nat)
    ensures LogAfter(log, HandlePropose(s, log, data, proposeId).actions) ==
            if s.role == Leader then log + [LogEntry(s.currentEpoch, EndOffset(log), data)] else log
  {
    assert HandlePropose(s, log, data, proposeId).actions[1..] == [];
  }

  lemma FetchRequestKeepsTable(s: NodeState, log: seq<LogEntry>, from: nat, req: FetchRequest)
    requires WellPlaced(s, log)
    ensures var t := HandleFetchRequest(s, log, from, req).state;
            s.highWatermark <= t.highWatermark <= |log| && (t.role == Leader ==> TableInLog(t, log))
  {
    if req.epoch == s.currentEpoch && s.role == Leader && CheckDivergence(log, req.fetchOffset, req.lastFetchedEpoch) == None {
      AcceptedOffsetInLog(log, req.fetchOffset, req.lastFetchedEpoch);
      AdvanceInside(Noted(s, from, req.fetchOffset), log);
    }
  }

  /** The inputs of a run are orderly when each is, in the state it meets. */
  ghost predicate OrderlyRun(r: RunnerState, inputs: seq<Input>) {
    forall n :: 0 <= n < |inputs| ==> OrderlyNext(r, inputs[..n], inputs[n])
  }

  ghost predicate OrderlyNext(r: RunnerState, before: seq<Input>, input: Input) {
    var at := RunAll(r, before).state;
    Orderly(at.node, at.log, EventOf(at, input))
  }

  ghost predicate PlacedAfter(r: RunnerState, inputs: seq<Input>) {
    var at := RunAll(r, inputs).state;
    WellPlaced(at.node, at.log)
  }

  /** After every number of inputs the watermark is inside a gap-free log. */
  ghost predicate PlacedThroughout(r: RunnerState, inputs: seq<Input>) {
    forall n :: 0 <= n <= |inputs| ==> PlacedAfter(r, inputs[..n])
  }

  /** Where an input leads from a well-placed state: to a well-placed one exactly when it is
      orderly, and then the watermark is no lower. */
  lemma NextKeepsWatermark(r: RunnerState, before: seq<Input>, input: Input)
    requires PlacedAfter(r, before)
    ensures PlacedAfter(r, before + [input]) <==> OrderlyNext(r, before, input)
    ensures OrderlyNext(r, before, input) ==>
              RunAll(r, before).state.node.highWatermark <= RunAll(r, before + [input]).state.node.highWatermark
  {
    hide Handle, WellPlaced, Orderly, LogAfter;
    assert (before + [input])[..|before|] == before;
    var at := RunAll(r, before).state;
    EventKeepsWatermark(at.node, at.log, EventOf(at, input));
  }

  lemma LastOfOrderly(r: RunnerState, inputs: seq<Input>, input: Input)
    ensures OrderlyRun(r, inputs + [input]) <==> OrderlyRun(r, inputs) && OrderlyNext(r, inputs, input)
  {
    hide OrderlyNext;
    var all := inputs + [input];
    assert all[..|inputs|] == inputs && all[|inputs|] == input;
    forall k | 0 <= k < |inputs| ensures all[..k] == inputs[..k] && all[k] == inputs[k] {}
  }

  lemma LastOfPlaced(r: RunnerState, inputs: seq<Input>, input: Input)
    ensures PlacedThroughout(r, inputs + [input]) <==> PlacedThroughout(r, inputs) && PlacedAfter(r, inputs + [input])
    ensures PlacedThroughout(r, inputs) ==> PlacedAfter(r, inputs)
  {
    hide PlacedAfter;
    var all := inputs + [input];
    assert all[..|all|] == all && inputs[..|inputs|] == inputs;
    forall k | 0 <= k <= |inputs| ensures all[..k] == inputs[..k] {}
  }

  /** Over every orderly run the watermark stays inside a gap-free log and never goes back. */
  lemma {:induction false} WatermarkNeverGoesBack(r: RunnerState, inputs: seq<Input>, n: nat)
    requires WellPlaced(r.node, r.log) && OrderlyRun(r, inputs) && n <= |inputs|
    ensures var at, end := RunAll(r, inputs[..n]).state, RunAll(r, inputs).state;
            && WellPlaced(end.node, end.log)
            && at.node.highWatermark <= end.node.highWatermark <= |end.log|
    decreases |inputs|
  {
    hide RunAll, OrderlyRun, OrderlyNext, Handle, LogAfter;
    if n == |inputs| { assert inputs[..n] == inputs; }
    if inputs == [] {
      RunOfNothing(r);
    } else {
      var last := |inputs| - 1;
      var before := inputs[..last];
      assert before + [inputs[last]] == inputs;
      LastOfOrderly(r, before, inputs[last]);
      WatermarkNeverGoesBack(r, before, if n <= last then n else last);
      NextKeepsWatermark(r, before, inputs[last]);
      if n <= last { assert before[..n] == inputs[..n]; }
    }
  }

  lemma RunOfNothing(r: RunnerState)
    ensures RunAll(r, []).state == r
  {
  }

  /** A whole run keeps the watermark inside a gap-free log at every point exactly when every
      input of it is orderly. */
  lemma {:induction false} RunKeepsWatermarkIff(r: RunnerState, inputs: seq<Input>)
    requires WellPlaced(r.node, r.log)
    ensures OrderlyRun(r, inputs) <==> PlacedThroughout(r, inputs)
    decreases |inputs|
  {
    hide RunAll, OrderlyRun, OrderlyNext, PlacedThroughout, WellPlaced;
    if inputs == [] {
      NothingHappens(r);
    } else {
      var last := |inputs| - 1;
      var before := inputs[..last];
      assert before + [inputs[last]] == inputs;
      RunKeepsWatermarkIff(r, before);
      LastOfOrderly(r, before, inputs[last]);
      LastOfPlaced(r, before, inputs[last]);
      if PlacedThroughout(r, before) { NextKeepsWatermark(r, before, inputs[last]); }
    }
  }

  lemma NothingHappens(r: RunnerState)
    requires WellPlaced(r.node, r.log)
    ensures OrderlyRun(r, []) && PlacedThroughout(r, [])
  {
    var none: seq<Input> := [];
    assert none[..0] == none;
  }

  /** And without that the watermark can end beyond the log: a late response carrying an
      entry the follower already has makes the log end fall back. */
  lemma LateResponseBreaksWatermark()
    ensures exists s: NodeState, log: seq<LogEntry>, event: Event ::
              && WellPlaced(s, log) && s.role == Follower
              && var o := Handle(s, log, event);
                 o.state.highWatermark > EndOffset(LogAfter(log, o.actions))
  {
    hide LogAfter, EpochAt, EntriesBetween, IsLogUpToDate;
    var a, b := LogEntry(1, 0, []), LogEntry(1, 1, []);
    var log := [a, b];
    var s := Restarted(1, [1, 2, 3], QuorumState(1, None)).(highWatermark := 2);
    var resp := FetchResponse(1, 0, [a], None);
    LogAfterFetchResponse(s, log, resp);
    assert EndOffset(log + [a]) == 1;
    assert WellPlaced(s, log);
    var o := Handle(s, log, FetchResponseEvent(2, resp));
    assert o.state.highWatermark == 2;
  }

  /** Nor can a cut below the watermark be allowed: one late divergence answer, and the log ends
      below it. */
  lemma CutBelowBreaksWatermark()
    ensures exists s: NodeState, log: seq<LogEntry>, event: Event ::
              && WellPlaced(s, log) && s.role == Follower && event.FetchResponseEvent? && event.fetchResponse.diverging.Some?
              && var o := Handle(s, log, event);
                 o.state.highWatermark > EndOffset(LogAfter(log, o.actions))
  {
    hide LogAfter, EpochAt, EntriesBetween, IsLogUpToDate;
    var log := [LogEntry(1, 0, []), LogEntry(1, 1, [])];
    var s := Restarted(1, [1, 2, 3], QuorumState(1, None)).(highWatermark := 2);
    var resp := FetchResponse(1, 0, [], Some(Diverging(1, 0)));
    LogAfterFetchResponse(s, log, resp);
    assert DenseFrom(log, 0);
    TruncatedDenseFrom(log, 0, 0);
    assert WellPlaced(s, log);
    var o := Handle(s, log, FetchResponseEvent(2, resp));
    assert o.state.highWatermark == 2 && LogAfter(log, o.actions) == [];
  }

  // ---- majorities over runs ------------------------------------------------

  /** No leader of the run accepts a fetch from itself. */
  ghost predicate NoOwnFetch(r: RunnerState, inputs: seq<Input>) {
    forall n :: 0 <= n < |inputs| ==>
      var at := RunAll(r, inputs[..n]).state;
      !OwnFetch(at.node, at.log, EventOf(at, inputs[n]))
  }

  lemma {:induction false} TableStaysOfOthers(r: RunnerState, inputs: seq<Input>)
    requires TableOfOthers(r.node) && NoOwnFetch(r, inputs)
    ensures TableOfOthers(RunAll(r, inputs).state.node)
    decreases |inputs|
  {
    hide Handle, LogAfter;
    if inputs != [] {
      var last := |inputs| - 1;
      var before := inputs[..last];
      forall k | 0 <= k < last ensures before[..k] == inputs[..k] && before[k] == inputs[k] {}
      TableStaysOfOthers(r, before);
      var at := RunAll(r, before).state;
      TableStaysOfOthersIff(at.node, at.log, EventOf(at, inputs[last]));
    }
  }

  /** A leader's watermark moves only on a fetch request. */
  lemma LeaderAdvancesOnFetch(s: NodeState, log: seq<LogEntry>, event: Event)
    requires s.role == Leader && Handle(s, log, event).state.highWatermark != s.highWatermark
    ensures event.FetchRequestEvent?
  {
  }

  /** In every orderly run in which no leader accepts a fetch from itself, every advance of a
      leader's watermark is sound. */
  lemma EveryAdvanceHasMajority(r: RunnerState, inputs: seq<Input>, input: Input)
    requires WellPlaced(r.node, r.log) && TableOfOthers(r.node)
    requires OrderlyRun(r, inputs) && NoOwnFetch(r, inputs + [input])
    requires RunAll(r, inputs).state.node.role == Leader
    requires var at := RunAll(r, inputs).state;
             Handle(at.node, at.log, EventOf(at, input)).state.highWatermark != at.node.highWatermark
    ensures var at := RunAll(r, inputs).state;
            var event := EventOf(at, input);
            && event.FetchRequestEvent?
            && SoundAdvance(at.node, Noted(at.node, event.from, event.fetchRequest.fetchOffset), at.log,
                            Handle(at.node, at.log, event).state.highWatermark)
  {
    hide RunAll, Handle, SoundAdvance, LogAfter;
    var all := inputs + [input];
    assert all[..|inputs|] == inputs && all[|inputs|] == input;
    forall k | 0 <= k < |inputs| ensures all[..k] == inputs[..k] && all[k] == inputs[k] {}
    TableStaysOfOthers(r, inputs);
    WatermarkNeverGoesBack(r, inputs, |inputs|);
    var at := RunAll(r, inputs).state;
    AdvanceIsSound(at.node, at.log, EventOf(at, input));
  }

  /** In every such run a leader's watermark moves to h exactly when the leader accepts a fetch
      whose offset, once noted, makes the advance to h sound. */
  lemma RunAdvancesIff(r: RunnerState, inputs: seq<Input>, input: Input, h: nat)
    requires WellPlaced(r.node, r.log) && TableOfOthers(r.node)
    requires OrderlyRun(r, inputs) && NoOwnFetch(r, inputs + [input])
    requires RunAll(r, inputs).state.node.role == Leader
    ensures var at := RunAll(r, inputs).state;
            var event := EventOf(at, input);
            (Handle(at.node, at.log, event).state.highWatermark == h && h != at.node.highWatermark) <==>
              && event.FetchRequestEvent? && AcceptsFetch(at.node, at.log, event.fetchRequest)
              && SoundAdvance(at.node, Noted(at.node, event.from, event.fetchRequest.fetchOffset), at.log, h)
  {
    hide RunAll, Handle, SoundAdvance, LogAfter, AcceptsFetch;
    var all := inputs + [input];
    assert all[..|inputs|] == inputs && all[|inputs|] == input;
    forall k | 0 <= k < |inputs| ensures all[..k] == inputs[..k] && all[k] == inputs[k] {}
    TableStaysOfOthers(r, inputs);
    WatermarkNeverGoesBack(r, inputs, |inputs|);
    var at := RunAll(r, inputs).state;
    EventAdvancesIff(at.node, at.log, EventOf(at, input), h);
  }

  lemma EventAdvancesIff(s: NodeState, log: seq<LogEntry>, event: Event, h: nat)
    requires WellPlaced(s, log) && TableOfOthers(s) && s.role == Leader && !OwnFetch(s, log, event)
    ensures (Handle(s, log, event).state.highWatermark == h && h != s.highWatermark) <==>
              && event.FetchRequestEvent? && AcceptsFetch(s, log, event.fetchRequest)
              && SoundAdvance(s, Noted(s, event.from, event.fetchRequest.fetchOffset), log, h)
  {
    hide SoundAdvance, HandleFetchRequest, CheckDivergence, AcceptsFetch;
    if Handle(s, log, event).state.highWatermark != s.highWatermark { LeaderAdvancesOnFetch(s, log, event); }
    if event.FetchRequestEvent? {
      AcceptsIffNoDivergence(s, log, event.fetchRequest);
      if event.from == s.id {
        if Handle(s, log, event).state.highWatermark != s.highWatermark {
          AdvanceNeedsAcceptedFetch(s, log, event.from, event.fetchRequest);
        }
      } else {
        FetchAdvancesIff(s, log, event.from, event.fetchRequest, h);
      }
    }
  }

  lemma AdvanceIsSound(s: NodeState, log: seq<LogEntry>, event: Event)
    requires WellPlaced(s, log) && TableOfOthers(s) && s.role == Leader && !OwnFetch(s, log, event)
    requires Handle(s, log, event).state.highWatermark != s.highWatermark
    ensures event.FetchRequestEvent?
    ensures SoundAdvance(s, Noted(s, event.from, event.fetchRequest.fetchOffset), log, Handle(s, log, event).state.highWatermark)
  {
    hide SoundAdvance, HandleFetchRequest, CheckDivergence;
    LeaderAdvancesOnFetch(s, log, event);
    AdvanceNeedsAcceptedFetch(s, log, event.from, event.fetchRequest);
    AdvanceHasMajority(s, log, event.from, event.fetchRequest);
  }

  lemma AdvanceNeedsAcceptedFetch(s: NodeState, log: seq<LogEntry>, from: nat, req: FetchRequest)
    requires s.role == Leader && HandleFetchRequest(s, log, from, req).state.highWatermark != s.highWatermark
    ensures req.epoch == s.currentEpoch && CheckDivergence(log, req.fetchOffset, req.lastFetchedEpoch) == None
  {
  }
}
