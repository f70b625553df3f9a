/** A follower catching up: it fetches at its log end with its last epoch, and appends or
    truncates as the leader answers. How many rounds that takes, and when it never ends. */
module CatchUp {
  import opened Options
  import opened RaftTypes
  import opened FlatLog
  import opened NodeSpec
  import opened RunnerSpec
  import opened Watermark

  /** The follower's log after one exchange with the leader. */
  function Round(leader: seq<LogEntry>, follower: seq<LogEntry>): seq<LogEntry> {
    var diverging := CheckDivergence(leader, EndOffset(follower), LastEpoch(follower));
    if diverging.Some? then Truncated(follower, diverging.value.endOffset)
    else follower + EntriesBetween(leader, EndOffset(follower), EndOffset(leader))
  }

  /** `Round` is what the handlers and the runner do: the leader's answer to the fetch, and
      the log after the follower's actions on it. */
  lemma RoundIsAnExchange(s: NodeState, t: NodeState, leader: seq<LogEntry>, follower: seq<LogEntry>, from: nat)
    requires s.role == Leader && t.role == Follower && t.currentEpoch == s.currentEpoch
    ensures var req := FetchRequest(s.currentEpoch, EndOffset(follower), LastEpoch(follower));
            var answer := HandleFetchRequest(s, leader, from, req).actions[0];
            && answer.SendFetchResponse? && answer.to == from
            && LogAfter(follower, HandleFetchResponse(t, follower, answer.fetchResponse).actions) == Round(leader, follower)
  {
    hide LogAfter, EntriesBetween, CheckDivergence, Truncated, HandleFetchResponse;
    var req := FetchRequest(s.currentEpoch, EndOffset(follower), LastEpoch(follower));
    var answer := HandleFetchRequest(s, leader, from, req).actions[0];
    LogAfterFetchResponse(t, follower, answer.fetchResponse);
    if CheckDivergence(leader, EndOffset(follower), LastEpoch(follower)).Some? {
      assert answer.fetchResponse.diverging.Some?;
    } else {
      assert answer.fetchResponse.diverging == None;
      assert answer.fetchResponse.entries == EntriesBetween(leader, EndOffset(follower), EndOffset(leader));
    }
  }

  function Rounds(leader: seq<LogEntry>, follower: seq<LogEntry>, n: nat): seq<LogEntry>
    decreases n
  {
    if n == 0 then follower else Rounds(leader, Round(leader, follower), n - 1)
  }

  /** Where both logs carry the same epoch, they agree up to there. */
  ghost predicate Matching(a: seq<LogEntry>, b: seq<LogEntry>) {
    forall i :: 0 <= i < |a| && i < |b| && a[i].epoch == b[i].epoch ==> a[..i + 1] == b[..i + 1]
  }

  ghost predicate HasEpoch(log: seq<LogEntry>, epoch: nat) {
    exists i :: 0 <= i < |log| && log[i].epoch == epoch
  }

  /** An epoch both logs have starts no later in the leader's. */
  ghost predicate StartsNoLater(leader: seq<LogEntry>, follower: seq<LogEntry>) {
    forall epoch :: HasEpoch(leader, epoch) && HasEpoch(follower, epoch) ==> EpochStart(leader, epoch) <= EpochStart(follower, epoch)
  }

  function Epochs(log: seq<LogEntry>): set<nat> { set i | 0 <= i < |log| :: log[i].epoch }

  // ---- one round -----------------------------------------------------------

  /** The leader accepts the follower's position. */
  ghost predicate Accepted(leader: seq<LogEntry>, follower: seq<LogEntry>) {
    follower == [] || (|follower| <= |leader| && leader[|follower| - 1].epoch == follower[|follower| - 1].epoch)
  }

  lemma RoundOfDense(leader: seq<LogEntry>, follower: seq<LogEntry>)
    requires Dense(leader) && Dense(follower)
    ensures Accepted(leader, follower) ==>
              Round(leader, follower) == follower + leader[|follower|..]
    ensures !Accepted(leader, follower) ==>
              var cut := EpochStart(leader, follower[|follower| - 1].epoch);
              Round(leader, follower) == if cut < |follower| then follower[..cut] else follower
  {
    hide Dense, DenseFrom, EpochAt, EntriesBetween, Truncated, EpochStart;
    EndOfDense(leader);
    EndOfDense(follower);
    DenseIsFromZero(leader);
    DenseIsFromZero(follower);
    if follower != [] { EpochAtDenseFrom(leader, 0, |follower| - 1); }
    if Accepted(leader, follower) {
      EntriesDenseFrom(leader, 0, |follower|, |leader|);
      assert leader[|follower|..|leader|] == leader[|follower|..];
    } else {
      TruncatedDenseFrom(follower, 0, EpochStart(leader, follower[|follower| - 1].epoch));
    }
  }

  lemma DenseIsFromZero(log: seq<LogEntry>)
    ensures Dense(log) <==> DenseFrom(log, 0)
  {
  }

  /** An accepted position is caught up in one round. */
  lemma AcceptedCatchesUp(leader: seq<LogEntry>, follower: seq<LogEntry>)
    requires Dense(leader) && Dense(follower) && Matching(leader, follower) && Accepted(leader, follower)
    ensures Round(leader, follower) == leader
  {
    RoundOfDense(leader, follower);
    if follower != [] {
      var n := |follower| - 1;
      assert leader[..n + 1] == follower[..n + 1] == follower;
      assert leader == leader[..n + 1] + leader[n + 1..];
    }
  }

  lemma PrefixKeepsShape(leader: seq<LogEntry>, follower: seq<LogEntry>, n: nat)
    requires Dense(leader) && Dense(follower) && Matching(leader, follower) && n <= |follower|
    ensures Dense(follower[..n]) && Matching(leader, follower[..n])
    ensures EpochsNonDecreasing(follower) ==> EpochsNonDecreasing(follower[..n])
    ensures Epochs(follower[..n]) <= Epochs(follower)
  {
    forall i | 0 <= i < |leader| && i < n && leader[i].epoch == follower[..n][i].epoch
      ensures leader[..i + 1] == follower[..n][..i + 1]
    {
      assert follower[..n][..i + 1] == follower[..i + 1];
    }
  }

  lemma PrefixKeepsStarts(leader: seq<LogEntry>, follower: seq<LogEntry>, n: nat)
    requires Dense(leader) && Dense(follower) && StartsNoLater(leader, follower) && n <= |follower|
    ensures StartsNoLater(leader, follower[..n])
  {
    var prefix := follower[..n];
    forall epoch | HasEpoch(leader, epoch) && HasEpoch(prefix, epoch)
      ensures EpochStart(leader, epoch) <= EpochStart(prefix, epoch)
    {
      var i :| 0 <= i < |prefix| && prefix[i].epoch == epoch;
      assert follower[i].epoch == epoch;
      var a := EpochStartIsFirst(prefix, epoch);
      var b := EpochStartIsFirst(follower, epoch);
      assert prefix[a] == follower[a];
    }
  }

  // ---- convergence ---------------------------------------------------------

  lemma {:induction false} SettledStays(leader: seq<LogEntry>, n: nat)
    requires Dense(leader)
    ensures Rounds(leader, leader, n) == leader
    decreases n
  {
    if n > 0 {
      assert Matching(leader, leader) && Accepted(leader, leader);
      AcceptedCatchesUp(leader, leader);
      SettledStays(leader, n - 1);
    }
  }

  /** A refused round removes every entry of the follower's last epoch, and nothing it needs. */
  lemma RefusedRoundDropsEpoch(leader: seq<LogEntry>, follower: seq<LogEntry>)
    requires Dense(leader) && Dense(follower) && Matching(leader, follower) && StartsNoLater(leader, follower)
    requires !Accepted(leader, follower)
    ensures var shorter := Round(leader, follower);
            && Dense(shorter) && Matching(leader, shorter) && StartsNoLater(leader, shorter)
            && |Epochs(shorter)| < |Epochs(follower)|
  {
    var last := follower[|follower| - 1].epoch;
    var cut := EpochStart(leader, last);
    RoundOfDense(leader, follower);
    var first := EpochStartIsFirst(follower, last);
    if HasEpoch(leader, last) {
      assert HasEpoch(follower, last);
      assert cut <= first;
    } else {
      EpochStartOfAbsent(leader, last);
    }
    var shorter := follower[..cut];
    PrefixKeepsShape(leader, follower, cut);
    PrefixKeepsStarts(leader, follower, cut);
    assert follower[first].epoch in Epochs(follower);
    assert last !in Epochs(shorter);
    SubsetSize(Epochs(shorter), Epochs(follower) - {last});
  }

  /** The follower's log equals the leader's after at most one round more than its number of
      distinct epochs. */
  lemma {:induction false} FollowerCatchesUp(leader: seq<LogEntry>, follower: seq<LogEntry>)
    requires Dense(leader) && Dense(follower) && Matching(leader, follower) && StartsNoLater(leader, follower)
    ensures Rounds(leader, follower, |Epochs(follower)| + 1) == leader
    decreases |Epochs(follower)|
  {
    var n := |Epochs(follower)|;
    if Accepted(leader, follower) {
      AcceptedCatchesUp(leader, follower);
      SettledStays(leader, n);
    } else {
      var shorter := Round(leader, follower);
      RefusedRoundDropsEpoch(leader, follower);
      FollowerCatchesUp(leader, shorter);
      MoreRoundsStaySettled(leader, shorter, |Epochs(shorter)| + 1, n);
    }
  }

  lemma {:induction false} MoreRoundsStaySettled(leader: seq<LogEntry>, follower: seq<LogEntry>, m: nat, n: nat)
    requires Dense(leader) && Rounds(leader, follower, m) == leader && m <= n
    ensures Rounds(leader, follower, n) == leader
    decreases m
  {
    if m == 0 {
      SettledStays(leader, n);
    } else {
      MoreRoundsStaySettled(leader, Round(leader, follower), m - 1, n - 1);
    }
  }

  // ---- exactly when --------------------------------------------------------

  /** The leader refuses the position, and has the follower's last epoch only further on
      than the follower's end: the cut it asks for removes nothing. */
  ghost predicate Stuck(leader: seq<LogEntry>, follower: seq<LogEntry>) {
    !Accepted(leader, follower) && EpochStart(leader, follower[|follower| - 1].epoch) >= |follower|
  }

  lemma {:induction false} StuckForever(leader: seq<LogEntry>, follower: seq<LogEntry>, n: nat)
    requires Dense(leader) && Dense(follower) && Stuck(leader, follower)
    ensures Rounds(leader, follower, n) == follower != leader
    decreases n
  {
    RoundOfDense(leader, follower);
    if n > 0 { StuckForever(leader, follower, n - 1); }
  }

  ghost predicate Reaches(leader: seq<LogEntry>, follower: seq<LogEntry>) {
    exists n: nat :: Rounds(leader, follower, n) == leader
  }

  lemma ReachesUnfold(leader: seq<LogEntry>, follower: seq<LogEntry>)
    ensures Reaches(leader, follower) <==> follower == leader || Reaches(leader, Round(leader, follower))
  {
    var next := Round(leader, follower);
    if n: nat :| Rounds(leader, follower, n) == leader {
      if n > 0 { assert Rounds(leader, next, n - 1) == leader; }
    }
    if follower == leader { assert Rounds(leader, follower, 0) == leader; }
    if n: nat :| Rounds(leader, next, n) == leader {
      assert Rounds(leader, follower, n + 1) == leader;
    }
  }

  /** Both logs have the epoch, and it starts later in the leader's. */
  ghost predicate Late(leader: seq<LogEntry>, follower: seq<LogEntry>, epoch: nat) {
    && HasEpoch(leader, epoch) && HasEpoch(follower, epoch)
    && EpochStart(leader, epoch) > EpochStart(follower, epoch)
  }

  /** Only the follower has the epoch. */
  ghost predicate Foreign(leader: seq<LogEntry>, follower: seq<LogEntry>, epoch: nat) {
    HasEpoch(follower, epoch) && !HasEpoch(leader, epoch)
  }

  /** Above every late epoch the follower has one the leader does not have at all. */
  ghost predicate LateOnesCovered(leader: seq<LogEntry>, follower: seq<LogEntry>) {
    forall epoch :: Late(leader, follower, epoch) ==> exists x :: x > epoch && Foreign(leader, follower, x)
  }

  /** The start of an epoch, as an index. */
  lemma StartIndex(log: seq<LogEntry>, epoch: nat)
    requires Dense(log) && HasEpoch(log, epoch)
    ensures var at := EpochStart(log, epoch);
            at < |log| && log[at].epoch == epoch && forall i :: 0 <= i < at ==> log[i].epoch != epoch
  {
    var at := EpochStartIsFirst(log, epoch);
    assert log[at].offset == at;
  }

  lemma StartsInOrder(log: seq<LogEntry>, a: nat, b: nat)
    requires Dense(log) && EpochsNonDecreasing(log) && HasEpoch(log, a) && HasEpoch(log, b) && a < b
    ensures EpochStart(log, a) < EpochStart(log, b)
  {
    hide EpochStart;
    StartIndex(log, a);
    StartIndex(log, b);
  }

  /** Nothing is late in a prefix of the leader's log. */
  lemma NoneLateInPrefix(leader: seq<LogEntry>, follower: seq<LogEntry>, epoch: nat)
    requires Dense(leader) && Dense(follower) && Matching(leader, follower) && Accepted(leader, follower)
    ensures !Late(leader, follower, epoch)
  {
    hide EpochStart;
    if HasEpoch(leader, epoch) && HasEpoch(follower, epoch) {
      StartIndex(leader, epoch);
      StartIndex(follower, epoch);
      var n := |follower| - 1;
      assert leader[..n + 1] == follower[..n + 1];
      var at := EpochStart(follower, epoch);
      assert leader[..n + 1][at] == follower[..n + 1][at];
    }
  }

  /** Where a late epoch starts in the leader's log, the follower is already past it. */
  lemma PastLateStart(leader: seq<LogEntry>, follower: seq<LogEntry>, epoch: nat)
    requires Dense(leader) && Dense(follower) && Matching(leader, follower) && EpochsNonDecreasing(follower)
    requires Late(leader, follower, epoch) && EpochStart(leader, epoch) < |follower|
    ensures follower[EpochStart(leader, epoch)].epoch > epoch
  {
    hide EpochStart;
    StartIndex(leader, epoch);
    StartIndex(follower, epoch);
    var s, a := EpochStart(leader, epoch), EpochStart(follower, epoch);
    var l, f := leader[..s + 1], follower[..s + 1];
    assert l[a] == leader[a] && f[a] == follower[a];
    assert follower[s].epoch == epoch ==> l == f;
  }

  /** If every late epoch starts, in the leader's log, before the follower's end, then above
      each of them there is a foreign one. */
  lemma {:induction false} ForeignAbove(leader: seq<LogEntry>, follower: seq<LogEntry>, epoch: nat) returns (x: nat)
    requires Dense(leader) && Dense(follower) && Matching(leader, follower)
    requires EpochsNonDecreasing(leader) && EpochsNonDecreasing(follower)
    requires forall e :: Late(leader, follower, e) ==> EpochStart(leader, e) < |follower|
    requires Late(leader, follower, epoch)
    ensures x > epoch && Foreign(leader, follower, x)
    decreases follower[|follower| - 1].epoch - epoch
  {
    hide EpochStart;
    var s := EpochStart(leader, epoch);
    PastLateStart(leader, follower, epoch);
    x := follower[s].epoch;
    if HasEpoch(leader, x) {
      StartIndex(follower, x);
      StartsInOrder(leader, epoch, x);
      assert follower[s].epoch <= follower[|follower| - 1].epoch;
      x := ForeignAbove(leader, follower, x);
    }
  }

  lemma EpochInPrefix(log: seq<LogEntry>, n: nat, epoch: nat)
    requires Dense(log) && n <= |log| && HasEpoch(log[..n], epoch)
    ensures HasEpoch(log, epoch) && EpochStart(log[..n], epoch) == EpochStart(log, epoch) < n
  {
    hide EpochStart;
    var prefix := log[..n];
    var i :| 0 <= i < |prefix| && prefix[i].epoch == epoch;
    assert log[i].epoch == epoch;
    StartIndex(prefix, epoch);
    StartIndex(log, epoch);
    var a, b := EpochStart(prefix, epoch), EpochStart(log, epoch);
    assert prefix[a] == log[a];
    if b < n { assert prefix[b] == log[b]; }
  }

  /** A refused round that cuts something cuts at the first entry of the follower's last epoch
      in the leader's log, or everything. The late epochs were covered exactly when that epoch
      is gone, and then they still are. */
  lemma RefusedRoundKeepsCovered(leader: seq<LogEntry>, follower: seq<LogEntry>)
    requires Dense(leader) && Dense(follower) && Matching(leader, follower)
    requires EpochsNonDecreasing(leader) && EpochsNonDecreasing(follower)
    requires !Accepted(leader, follower) && !Stuck(leader, follower)
    ensures var last, next := follower[|follower| - 1].epoch, Round(leader, follower);
            && (LateOnesCovered(leader, follower) <==> !HasEpoch(next, last))
            && (LateOnesCovered(leader, next) <==> !HasEpoch(next, last))
  {
    hide EpochStart, Round;
    var last := follower[|follower| - 1].epoch;
    var cut := EpochStart(leader, last);
    RoundOfDense(leader, follower);
    var next := follower[..cut];
    assert Round(leader, follower) == next;
    assert HasEpoch(follower, last);
    PrefixKeepsShape(leader, follower, cut);
    if !HasEpoch(leader, last) {
      EpochStartOfAbsent(leader, last);
      assert Foreign(leader, follower, last);
      forall e | Late(leader, follower, e) ensures e < last { EpochAtMostLast(follower, e); }
    } else {
      StartIndex(leader, last);
      StartIndex(follower, last);
      if HasEpoch(next, last) {
        EpochInPrefix(follower, cut, last);
        LastNotCovered(leader, follower, follower, last);
        LastNotCovered(leader, follower, next, last);
      } else {
        CoveredBelow(leader, follower, cut);
      }
    }
  }

  lemma EpochAtMostLast(log: seq<LogEntry>, epoch: nat)
    requires EpochsNonDecreasing(log) && HasEpoch(log, epoch)
    ensures log != [] && epoch <= log[|log| - 1].epoch
  {
    var i :| 0 <= i < |log| && log[i].epoch == epoch;
  }

  /** The follower's last epoch, when late, has nothing above it. */
  lemma LastNotCovered(leader: seq<LogEntry>, follower: seq<LogEntry>, part: seq<LogEntry>, last: nat)
    requires EpochsNonDecreasing(follower) && follower != [] && last == follower[|follower| - 1].epoch
    requires part <= follower && Late(leader, part, last)
    ensures !LateOnesCovered(leader, part)
  {
    hide EpochStart;
    forall x: nat | HasEpoch(part, x) ensures x <= last {
      var i :| 0 <= i < |part| && part[i].epoch == x;
      assert follower[i].epoch == x;
    }
  }

  /** Cut where the follower's last epoch starts in the leader's log, and with that epoch gone:
      everything late is covered, before and after. */
  lemma CoveredBelow(leader: seq<LogEntry>, follower: seq<LogEntry>, cut: nat)
    requires Dense(leader) && Dense(follower) && Matching(leader, follower)
    requires EpochsNonDecreasing(leader) && EpochsNonDecreasing(follower) && follower != []
    requires HasEpoch(leader, follower[|follower| - 1].epoch) && cut == EpochStart(leader, follower[|follower| - 1].epoch)
    requires cut < |follower| && !HasEpoch(follower[..cut], follower[|follower| - 1].epoch)
    ensures LateOnesCovered(leader, follower) && LateOnesCovered(leader, follower[..cut])
  {
    hide EpochStart;
    var last, next := follower[|follower| - 1].epoch, follower[..cut];
    PrefixKeepsShape(leader, follower, cut);
    StartIndex(leader, last);
    forall e | Late(leader, next, e) ensures EpochStart(leader, e) < cut {
      EpochInPrefix(follower, cut, e);
      EpochAtMostLast(follower, e);
      StartsInOrder(leader, e, last);
    }
    forall e | Late(leader, next, e) ensures exists x :: x > e && Foreign(leader, next, x) && Foreign(leader, follower, x) {
      var x := ForeignAbove(leader, next, e);
      EpochInPrefix(follower, cut, x);
    }
    forall e | Late(leader, follower, e) ensures Late(leader, next, e) {
      LateIsBelow(leader, follower, cut, e);
    }
  }

  lemma LateIsBelow(leader: seq<LogEntry>, follower: seq<LogEntry>, cut: nat, e: nat)
    requires Dense(leader) && Dense(follower) && EpochsNonDecreasing(leader) && EpochsNonDecreasing(follower) && follower != []
    requires HasEpoch(leader, follower[|follower| - 1].epoch) && cut == EpochStart(leader, follower[|follower| - 1].epoch)
    requires cut < |follower| && !HasEpoch(follower[..cut], follower[|follower| - 1].epoch)
    requires Late(leader, follower, e)
    ensures Late(leader, follower[..cut], e)
  {
    hide EpochStart;
    var last, next := follower[|follower| - 1].epoch, follower[..cut];
    StartIndex(follower, e);
    EpochAtMostLast(follower, e);
    var a := EpochStart(follower, e);
    if e < last { StartsInOrder(leader, e, last); }
    assert next[a].epoch == e;
    assert HasEpoch(next, e);
    EpochInPrefix(follower, cut, e);
  }

  /** For matching logs whose epochs do not decrease: the follower's log ever equals the
      leader's exactly when above every epoch that starts later in the leader's log the follower
      has one the leader does not have; and then within one round more than it has epochs. */
  lemma {:induction false} CatchesUpIffLateOnesCovered(leader: seq<LogEntry>, follower: seq<LogEntry>)
    requires Dense(leader) && Dense(follower) && Matching(leader, follower)
    requires EpochsNonDecreasing(leader) && EpochsNonDecreasing(follower)
    ensures Reaches(leader, follower) <==> LateOnesCovered(leader, follower)
    ensures LateOnesCovered(leader, follower) ==> Rounds(leader, follower, |Epochs(follower)| + 1) == leader
    decreases |follower|
  {
    hide EpochStart, Round, LateOnesCovered;
    var n := |Epochs(follower)|;
    ReachesUnfold(leader, follower);
    if Accepted(leader, follower) {
      AcceptedCatchesUp(leader, follower);
      SettledStays(leader, n);
      assert Rounds(leader, leader, 0) == leader;
      NoneLate(leader, follower);
    } else if Stuck(leader, follower) {
      forall m: nat ensures Rounds(leader, follower, m) != leader { StuckForever(leader, follower, m); }
      StuckIsLate(leader, follower);
    } else {
      var last, next := follower[|follower| - 1].epoch, Round(leader, follower);
      RoundOfDense(leader, follower);
      PrefixKeepsShape(leader, follower, |next|);
      RefusedRoundKeepsCovered(leader, follower);
      CatchesUpIffLateOnesCovered(leader, next);
      if !HasEpoch(next, last) {
        assert last in Epochs(follower) && last !in Epochs(next);
        SubsetSize(Epochs(next), Epochs(follower) - {last});
        MoreRoundsStaySettled(leader, next, |Epochs(next)| + 1, n);
      }
      assert follower != leader;
    }
  }

  lemma NoneLate(leader: seq<LogEntry>, follower: seq<LogEntry>)
    requires Dense(leader) && Dense(follower) && Matching(leader, follower) && Accepted(leader, follower)
    ensures LateOnesCovered(leader, follower)
  {
    forall e ensures !Late(leader, follower, e) { NoneLateInPrefix(leader, follower, e); }
  }

  lemma StuckIsLate(leader: seq<LogEntry>, follower: seq<LogEntry>)
    requires Dense(leader) && Dense(follower) && EpochsNonDecreasing(follower) && Stuck(leader, follower)
    ensures !LateOnesCovered(leader, follower)
  {
    hide EpochStart;
    var last := follower[|follower| - 1].epoch;
    if !HasEpoch(leader, last) { EpochStartOfAbsent(leader, last); }
    assert HasEpoch(follower, last);
    StartIndex(follower, last);
    LastNotCovered(leader, follower, follower, last);
  }

  /** And there are logs that never catch up: a follower whose only entry is of an epoch that
      the leader starts one entry later. */
  lemma SomeNeverCatchUp()
    ensures exists leader, follower ::
              && Dense(leader) && Dense(follower) && Matching(leader, follower)
              && EpochsNonDecreasing(leader) && EpochsNonDecreasing(follower)
              && !Reaches(leader, follower)
  {
    var leader, follower := [LogEntry(1, 0, []), LogEntry(2, 1, [])], [LogEntry(2, 0, [])];
    assert leader[1..] == [LogEntry(2, 1, [])] && EpochStart(leader, 2) == 1;
    assert Stuck(leader, follower);
    forall n: nat ensures Rounds(leader, follower, n) != leader { StuckForever(leader, follower, n); }
    assert Matching(leader, follower) && !Reaches(leader, follower);
  }

  // ---- on a partition ------------------------------------------------------

  /** The cut asked for by a leader whose log is a partition: it reports an epoch it does not
      have as starting at its log end, and not at zero. */
  ghost function PartitionCut(leader: seq<LogEntry>, epoch: nat): nat {
    if HasEpoch(leader, epoch) then EpochStart(leader, epoch) else EndOffset(leader)
  }

  /** A follower refused by such a leader keeps all it has exactly when its last epoch starts at
      or beyond its end there, or is foreign and the leader's log is no shorter. */
  lemma PartitionCutsNothingIff(leader: seq<LogEntry>, follower: seq<LogEntry>)
    requires Dense(leader) && Dense(follower) && !Accepted(leader, follower)
    ensures var last := follower[|follower| - 1].epoch;
            Truncated(follower, PartitionCut(leader, last)) == follower <==>
              if HasEpoch(leader, last) then EpochStart(leader, last) >= |follower| else |leader| >= |follower|
  {
    hide EpochStart, Truncated, HasEpoch;
    DenseIsFromZero(follower);
    EndOfDense(leader);
    TruncatedDenseFrom(follower, 0, PartitionCut(leader, follower[|follower| - 1].epoch));
  }
}
