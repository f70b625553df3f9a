/** The flat reference log: a vector of entries, its queries, and the class that
    holds one. */
module FlatLog {
  import opened Options
  import opened RaftTypes

  /** Entry i carries offset i: what a log looks like when every append answered
      the log's end. */
  ghost predicate Dense(log: seq<LogEntry>) {
    forall i :: 0 <= i < |log| ==> log[i].offset == i
  }

  ghost predicate EpochsNonDecreasing(log: seq<LogEntry>) {
    forall i, j :: 0 <= i < j < |log| ==> log[i].epoch <= log[j].epoch
  }

  function EndOffset(log: seq<LogEntry>): nat {
    if log == [] then 0 else log[|log| - 1].offset + 1
  }

  function LastEpoch(log: seq<LogEntry>): nat {
    if log == [] then 0 else log[|log| - 1].epoch
  }

  function EpochAt(log: seq<LogEntry>, offset: nat): Option<nat> {
    if log == [] then None
    else if log[0].offset == offset then Some(log[0].epoch)
    else EpochAt(log[1..], offset)
  }

  function EntriesBetween(log: seq<LogEntry>, start: nat, end: nat): seq<LogEntry> {
    if log == [] then []
    else
      (if start <= log[0].offset < end then [log[0]] else []) + EntriesBetween(log[1..], start, end)
  }

  /** Offset of the first entry of `epoch`, or 0 when there is none. */
  function EpochStart(log: seq<LogEntry>, epoch: nat): nat {
    if log == [] then 0
    else if log[0].epoch == epoch then log[0].offset
    else EpochStart(log[1..], epoch)
  }

  function Truncated(log: seq<LogEntry>, offset: nat): seq<LogEntry> {
    if log == [] then []
    else (if log[0].offset < offset then [log[0]] else []) + Truncated(log[1..], offset)
  }

  /** Entry i carries offset base + i; the shape of a suffix of a dense log. */
  ghost predicate DenseFrom(log: seq<LogEntry>, base: nat) {
    forall i :: 0 <= i < |log| ==> log[i].offset == base + i
  }

  lemma {:induction false} EpochAtDenseFrom(log: seq<LogEntry>, base: nat, offset: nat)
    requires DenseFrom(log, base)
    ensures EpochAt(log, offset) ==
            if base <= offset < base + |log| then Some(log[offset - base].epoch) else None
    decreases |log|
  {
    if log != [] && log[0].offset != offset {
      EpochAtDenseFrom(log[1..], base + 1, offset);
    }
  }

  lemma {:induction false} EntriesConcat(a: seq<LogEntry>, b: seq<LogEntry>, start: nat, end: nat)
    ensures EntriesBetween(a + b, start, end) == EntriesBetween(a, start, end) + EntriesBetween(b, start, end)
    decreases |a|
  {
    if a == [] {
      assert a + b == b;
    } else {
      assert (a + b)[1..] == a[1..] + b;
      EntriesConcat(a[1..], b, start, end);
    }
  }

  lemma {:induction false} NoEntries(log: seq<LogEntry>, start: nat, end: nat)
    requires forall i :: 0 <= i < |log| ==> !(start <= log[i].offset < end)
    ensures EntriesBetween(log, start, end) == []
    decreases |log|
  {
    if log != [] { NoEntries(log[1..], start, end); }
  }

  lemma {:induction false} AllEntries(log: seq<LogEntry>, start: nat, end: nat)
    requires forall i :: 0 <= i < |log| ==> start <= log[i].offset < end
    ensures EntriesBetween(log, start, end) == log
    decreases |log|
  {
    if log != [] { AllEntries(log[1..], start, end); }
  }

  lemma EntriesDenseFrom(log: seq<LogEntry>, base: nat, start: nat, end: nat)
    requires DenseFrom(log, base)
    requires start <= end && base <= end <= base + |log|
    ensures EntriesBetween(log, start, end) == log[if start < base then 0 else start - base..end - base]
  {
    hide EntriesBetween;
    var lo, hi := if start < base then 0 else start - base, end - base;
    var before, wanted, after := log[..lo], log[lo..hi], log[hi..];
    assert log == before + (wanted + after);
    assert forall i :: 0 <= i < |before| ==> before[i].offset == base + i;
    assert forall i :: 0 <= i < |wanted| ==> wanted[i].offset == base + lo + i;
    assert forall i :: 0 <= i < |after| ==> after[i].offset == base + hi + i;
    NoEntries(before, start, end);
    AllEntries(wanted, start, end);
    NoEntries(after, start, end);
    EntriesConcat(wanted, after, start, end);
    EntriesConcat(before, wanted + after, start, end);
  }

  lemma {:induction false} TruncatedDenseFrom(log: seq<LogEntry>, base: nat, offset: nat)
    requires DenseFrom(log, base)
    ensures Truncated(log, offset) ==
            if offset <= base then [] else if offset < base + |log| then log[..offset - base] else log
    decreases |log|
  {
    if log != [] {
      TruncatedDenseFrom(log[1..], base + 1, offset);
      if base < offset {
        assert log == [log[0]] + log[1..];
        if offset < base + |log| {
          assert log[..offset - base] == [log[0]] + log[1..][..offset - base - 1];
        }
      }
    }
  }

  /** The first entry of an epoch, characterised: where it is, and that nothing before it
      has the epoch. */
  lemma {:induction false} EpochStartIsFirst(log: seq<LogEntry>, epoch: nat) returns (at: nat)
    requires exists i :: 0 <= i < |log| && log[i].epoch == epoch
    ensures at < |log| && log[at].epoch == epoch && EpochStart(log, epoch) == log[at].offset
    ensures forall i :: 0 <= i < at ==> log[i].epoch != epoch
    decreases |log|
  {
    if log[0].epoch == epoch {
      at := 0;
    } else {
      var i :| 0 <= i < |log| && log[i].epoch == epoch;
      assert log[1..][i - 1].epoch == epoch;
      at := EpochStartIsFirst(log[1..], epoch);
      at := at + 1;
    }
  }

  lemma {:induction false} EpochStartOfAbsent(log: seq<LogEntry>, epoch: nat)
    requires forall i :: 0 <= i < |log| ==> log[i].epoch != epoch
    ensures EpochStart(log, epoch) == 0
    decreases |log|
  {
    if log != [] {
      EpochStartOfAbsent(log[1..], epoch);
    }
  }

  lemma EndOfDense(log: seq<LogEntry>)
    requires Dense(log)
    ensures EndOffset(log) == |log|
  {
  }

  lemma TruncatedStep(log: seq<LogEntry>, i: nat, offset: nat)
    requires i < |log|
    ensures Truncated(log[i..], offset) == (if log[i].offset < offset then [log[i]] else []) + Truncated(log[i + 1..], offset)
  {
    assert log[i..][1..] == log[i + 1..];
  }

  lemma NothingTruncated(log: seq<LogEntry>, offset: nat)
    ensures log[0..] == log && Truncated(log[|log|..], offset) == []
  {
  }

  /** The log object a node and its runner share. */
  class VecLog {
    var entries: seq<LogEntry>

    constructor (entries: seq<LogEntry>)
      ensures this.entries == entries
    {
      this.entries := entries;
    }

    method Append(entry: LogEntry)
      modifies this
      ensures entries == old(entries) + [entry]
    {
      entries := entries + [entry];
    }

    /** Keeps the entries whose offset is below `offset`, in order. */
    method Truncate(offset: nat)
      modifies this
      ensures entries == Truncated(old(entries), offset)
    {
      hide Truncated;
      var kept: seq<LogEntry> := [];
      var i := 0;
      ghost var was := entries;
      NothingTruncated(was, offset);
      while i < |entries|
        invariant 0 <= i <= |entries| && entries == was
        invariant kept + Truncated(was[i..], offset) == Truncated(was, offset)
      {
        TruncatedStep(was, i, offset);
        ghost var before := kept;
        if entries[i].offset < offset {
          kept := kept + [entries[i]];
        }
        i := i + 1;
        assert kept == before + if was[i - 1].offset < offset then [was[i - 1]] else [];
      }
      entries := kept;
    }
  }
}
