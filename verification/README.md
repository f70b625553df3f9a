# Verification of the Raft core, the segmented log, the wire format and the clients

This project models the parts of the broker that keep data safe, and proves what they promise.
Run `dafny verify dfyconfig.toml` to check everything.

## What is modelled

**Raft.** `RaftNode.Node` is the node: a class with the source's fields, one method per event.
Each method is proved to do what a pure specification in `NodeSpec` says, so whole runs can be
reasoned about with values. `Election` runs a cluster of such nodes over a network that loses,
duplicates, delays and reorders messages, with crashes and restarts from disk. `RaftRunner`
executes a node's actions in the source's two passes, persisting before sending, and keeps the
table of clients that wait for a reply. `FlatLog` is the flat reference log. `VoteRules`, `Terms`,
`Watermark`, `Replication` and `Effects` say, event by event and as equivalences over the entries of
the log and the messages themselves, when a vote is asked for and granted, when a node leads or
follows, where the watermark goes, which entries are sent, what is committed, and what a turn does to
the world: what the handlers mean, whatever their code.

**Storage.** `Segments` and `LogSegments` are one segment: a byte file, a zero-filled index array
written in place, published views of both, and the reads through a view. `Partitions` is the
actor: appends with rotation, fetches, replica acknowledgements, truncation, and opening a
directory again. Its meaning is one flat sequence of records (`PartitionLog`), and everything
else is shown to be a fast form of that. `IndexSpacing` bounds the scan after an index lookup.
`RaftPartitions` is the same partition used as a Raft log.

**Formats.** `Records` and `RecordBatches` are the record and batch layout down to the byte, with
slicing at an offset. `Wire`, `FrameParts`, `Requests`, `Responses` and `Frames` say how the eight
frame bodies are laid out and read; `Encoder` and `Decoder` are the loops that do it. `WireBytes`
fixes that layout down to the bytes, which a round trip alone would not.

**Clients.** `Producers` is the producer's batcher; `Consumers` is the consumer's offset loop.

## What the code does not promise, and exactly when it does

- *One leader per epoch* is not an invariant: handling a begin or end of the quorum epoch a node is
  already in clears its vote. `ElectionReset.TwoLeadersReachable` is a run with two leaders of
  epoch 1; `Election.TwoLeadersNeedReset` shows that every such run has that shape, and
  `Election.OneLeaderPerEpoch` that a run without such a reset has at most one leader per epoch.
- *A committed proposal is in the log* is not an invariant: a leader that steps down through a
  vote or fetch message keeps its pending proposals, and as a follower it may then cut them off its
  log and still answer that they are committed (`LostCommit.CommittedButNotLogged`). What is pending
  stays in the log exactly as long as no accepted cut is at or below it, for every event, orderly or
  not (`Commitment.EventKeepsLoggedIff`), and every orderly run (`Commitment.RunKeepsLoggedIff`); then
  a commit reply means what it says (`Commitment.CommitReplyMeansLogged`). Order matters only for whole
  runs, where it keeps the log free of gaps.
- *An advance of the watermark has a majority* is not an invariant: a leader that accepts a fetch
  from itself counts itself twice (`Watermark.OwnFetchCountsTwice`). Exactly such a fetch breaks the
  table the majority is counted from (`Watermark.TableStaysOfOthersIff`); in a run without one every
  advance has a majority of distinct voters (`Watermark.EveryAdvanceHasMajority`).
- *The watermark is inside a gap-free log* is not an invariant: late fetch responses append entries
  that do not continue the log (`Watermark.LateResponseBreaksWatermark`) or cut it below the
  watermark (`Watermark.CutBelowBreaksWatermark`). Every event keeps it exactly when it is neither
  (`Watermark.EventKeepsWatermark`), and so does every run (`Watermark.RunKeepsWatermarkIff`).
- *Catching up* does not always end (`CatchUp.SomeNeverCatchUp`). With the flat log, which reports an
  absent epoch as starting at zero, it does exactly when above every epoch that starts later in the
  leader's log than in the follower's, the follower has an epoch the leader does not have
  (`CatchUp.CatchesUpIffLateOnesCovered`). A partition reports an absent epoch as starting at its log
  end, so such an epoch no longer helps: a refused follower no longer than the leader's log whose last
  epoch is foreign is never cut (`CatchUp.PartitionCutsNothingIff`).
- *Slicing a slice*: slicing is exact for every offset exactly when the batch's records are
  numbered from zero or there is one record (`RecordBatches.SliceExactIffFromZero`).
- *Appending to a reopened segment* writes over its beginning: an append stores its batch after the
  others exactly when the cursor is at the end of the file (`LogSegments.StoresIffAtEnd`).
- *Truncating* hides what should be gone exactly when the offset is the start of a segment
  (`Truncation.TruncationHidesIff`).
- *The last epoch* a partition reports is the one before the last change; it is right exactly when
  every entry's epoch is zero (`RaftPartitions.LastEpochAgreesIff`). *The start of an epoch* agrees
  with the flat log exactly when the epoch occurs or the log is empty
  (`RaftPartitions.EpochStartAgreesIff`).
- *Replica offsets* beyond the log end break the partition's watermark invariant: a report keeps it
  exactly when it is within the log or from an unknown replica (`ReplicaAcks.ConsistentIffWithinLog`),
  and a truncation exactly when no replica and no waiting producer is beyond it
  (`ReplicaAcks.ConsistentIffNobodyBeyond`).
- A fetch answer's `log_start_offset` holds the log *end* offset
  (`crates/storage/src/partition/state.rs:44`), and a skipped record's byte length counts its length
  field twice (`crates/proto/src/record_ref.rs`); the model follows the code.

## Model

| member | source | states |
|---|---|---|
| RaftNode.Node.Handle | crates/raft/src/node.rs:48-60 | each of the nine events changes the fields and returns the actions the specification says |
| RaftNode.Node.HandleElectionTimeout | crates/raft/src/election.rs:10-45 | a non-leader starts the next epoch with its own vote, and leads at once when alone |
| RaftNode.Node.HandleVoteRequest | crates/raft/src/election.rs:47-91 | stale epochs refused, newer ones adopted, the vote granted at most to one candidate with a log that is not behind |
| RaftNode.Node.HandleVoteResponse | crates/raft/src/election.rs:93-111 | votes of the epoch collected; leader on a majority; newer epochs adopted |
| RaftNode.Node.HandleBeginQuorumEpoch | crates/raft/src/election.rs:113-128 | the sender followed for its epoch unless stale |
| RaftNode.Node.HandleEndQuorumEpoch | crates/raft/src/election.rs:130-142 | the epoch left without a leader unless stale |
| RaftNode.Node.BecomeLeader | crates/raft/src/election.rs:144-172 | a leader starts with fetch offset zero for every other voter and announces itself to each |
| RaftNode.Node.HandleFetchRequest | crates/raft/src/replication.rs:10-86 | the answer by epoch, divergence, or entries from the offset, and the watermark after noting the offset |
| RaftNode.Node.HandleFetchResponse | crates/raft/src/replication.rs:88-121 | truncation on divergence, else the entries appended and the watermark raised, in that order |
| RaftNode.Node.HandlePropose | crates/raft/src/replication.rs:149-164 | a leader appends at its log end and remembers the proposal; anyone else rejects it |
| RaftNode.Node.HandleHeartbeatTimeout | crates/raft/src/replication.rs:123-147 | a leader announces itself to every other voter |
| RaftNode.Node.TryAdvanceHighWatermark | crates/raft/src/replication.rs:184-211 | the watermark moves to the largest offset a majority has reached, if that is higher and of the current epoch |
| RaftNode.Node.CheckCommittedProposes | crates/raft/src/replication.rs:213-225 | exactly the proposals below the watermark are committed, in order, and removed |
| RaftNode.Node.BecomeFollower | crates/raft/src/node.rs:93-99 | epoch, role and leader set, vote and collected votes cleared |
| RaftNode.Node.RejectPendingProposes | crates/raft/src/node.rs:101-106 | every pending proposal rejected once, in order |
| RaftNode.KthLargestIsQuorumOffset | crates/raft/src/replication.rs:184-200 | the element the sort picks is an offset a quorum has reached and no larger one has |
| NodeSpec.QuorumOffsetUnique | crates/raft/src/replication.rs:184-200 | there is only one offset that a quorum has reached with no larger one reached |
| NodeSpec.QuorumOffsetExists | crates/raft/src/replication.rs:184-200 | an offset a quorum has reached, with no larger one reached, always exists |
| NodeFacts.PersistCoversChange | crates/raft/src/election.rs:10-142 | any change of epoch or vote comes with a persist action; epochs never go back |
| NodeFacts.GrantNeedsFreeVote | crates/raft/src/election.rs:47-91 | a vote is granted only to the requester, in the node's epoch, when free or already that candidate's |
| NodeFacts.VotesAfter | crates/raft/src/election.rs:10-142 | the only ways collected votes change, and that a leader has a majority of them |
| VoteRules.GrantsIff | crates/raft/src/election.rs:47-91 | for every event: a grant goes to a node exactly when it asked, its epoch is not stale, the vote is free in that epoch, and the last entry it reports is not behind the voter's last entry |
| VoteRules.AsksIff | crates/raft/src/election.rs:10-45 | for every event: votes are asked for exactly when a node that neither leads nor is alone times out, from every other voter, in the next epoch, with its own last epoch and log end |
| VoteRules.ExchangeGrantsIff | crates/raft/src/election.rs:174-183 | between gap-free logs a voter grants a candidate that times out exactly when its vote is free and its own log is not ahead, by last epoch and then by length |
| VoteRules.AheadIsAnOrder | crates/raft/src/election.rs:174-183 | of two logs at most one is ahead, and being ahead and not being ahead both pass along |
| VoteRules.LeadsIffElected | crates/raft/src/election.rs:93-111 | for every event: a node comes to lead exactly when it is alone and times out or this vote makes a majority; it then starts with every other voter at zero |
| VoteRules.AnnouncesIffElected | crates/raft/src/election.rs:144-172 | for every event: the begin of an epoch is announced exactly by a node this event elects, to exactly the other voters |
| Terms.EpochAfter | crates/raft/src/election.rs:10-142 | for every event: the epoch is the next one after an own election, the one spoken of if that is newer, and else stays |
| Terms.FollowsAfterIff | crates/raft/src/election.rs:93-142 | for every event: a node follows afterwards exactly when the event turned it to another epoch, or it followed and starts no election |
| Terms.LeaderAfter | crates/raft/src/election.rs:113-172 | for every event: which leader the node knows afterwards, and that a known leader is the sender of the begin or the node itself |
| Terms.ElectionTimerIff | crates/raft/src/election.rs:10-142 | for every event: the election timer is reset exactly by an own election, a granted vote, a begin or end that is not stale, or a response taken in |
| Terms.HeartbeatTimerIff | crates/raft/src/replication.rs:123-147 | for every event: the heartbeat timer is reset exactly by becoming leader and by a leader whose timer fired |
| FlatLog.VecLog.Append | crates/raft/src/log.rs:70-72 | an append adds the entry at the end |
| FlatLog.VecLog.Truncate | crates/raft/src/log.rs:74-76 | the entries below the offset stay, in order |
| FlatLog.EpochAtDenseFrom | crates/raft/src/log.rs:43-48 | in a log without gaps the epoch at an offset is that of the entry there |
| FlatLog.EntriesDenseFrom | crates/raft/src/log.rs:54-60 | in a log without gaps the entries of a range are a slice |
| FlatLog.TruncatedDenseFrom | crates/raft/src/log.rs:74-76 | truncating a log without gaps leaves a prefix |
| FlatLog.EpochStartIsFirst | crates/raft/src/log.rs:62-68 | the start of a present epoch is the offset of its first entry |
| Election.DiskMatchesNodes | crates/raft-runtime/src/runner.rs:125-183 | in every run of the cluster each disk holds its node's epoch and vote |
| Election.EpochsNeverDecrease | crates/raft/src/election.rs:10-142 | no node's epoch ever decreases, crashes and restarts included |
| Election.EventKeepsVote | crates/raft/src/election.rs:10-142 | every event keeps the vote given in an epoch exactly unless it is a begin or end of that epoch handled inside it |
| Election.VotesAreAlwaysGrants | crates/raft/src/election.rs:93-111 | in every run a collected vote was granted earlier by that voter for that epoch |
| Election.LeaderHasQuorum | crates/raft/src/election.rs:93-111 | every leader's votes are a majority of voters, each of which granted it |
| Election.QuorumsIntersect | crates/raft/src/node.rs:89-91 | two majorities share a voter |
| Election.SecondGrantNeedsReset | crates/raft/src/election.rs:113-142 | a voter that grants two candidates in one epoch handled a begin or end of that epoch between the grants |
| Election.TwoLeadersNeedReset | crates/raft/src/election.rs:10-142 | two leaders of one epoch anywhere in a run mean a voter of both quorums did exactly that |
| Election.OneLeaderPerEpoch | crates/raft/src/election.rs:10-142 | a run without such a reset has at most one leader per epoch |
| ElectionReset.TwoLeadersReachable | crates/raft/src/election.rs:113-128 | a run in which two nodes lead epoch 1 |
| Transport.VoteResponseWasSent | crates/raft-runtime/src/runner.rs:154-183 | a vote response under way was sent by the node it names |
| RaftRunner.Runner.Step | crates/raft-runtime/src/runner.rs:86-124 | one turn of the loop changes node, log, disk, reply table and effects as the specification says |
| RaftRunner.Runner.ExecuteActions | crates/raft-runtime/src/runner.rs:125-212 | the two passes: persist and log first, then answer and send |
| RaftRunner.Runner.InputToEvent | crates/raft-runtime/src/runner.rs:113-123 | a proposal gets the next id and its client is remembered |
| Effects.TurnEffectsIff | crates/raft-runtime/src/runner.rs:125-212 | an effect happens in a turn exactly when one of the node's actions calls for it, addressed and worded as that action says |
| Effects.AppliedFollowsWatermark | crates/raft-runtime/src/runner.rs:185-212 | over any inputs the watermark last applied is the node's watermark |
| Persistence.CrashTakesBackNoPromise | crates/raft-runtime/src/runner.rs:125-183 | a crash after any number of effects leaves the old or the new epoch and vote on disk, and the new one once anything was sent |
| Persistence.TurnKeepsDiskCurrent | crates/raft-runtime/src/runner.rs:125-183 | after a turn the disk holds the node's epoch and vote |
| Persistence.EpochsSurviveCrashes | crates/raft-runtime/src/runner.rs:50-84 | over any number of turns and crashes disk and memory agree and epochs never decrease |
| Proposals.EventAccounts | crates/raft/src/replication.rs:149-164 | every event keeps or answers each proposal, never both, never neither |
| Proposals.TurnConserves | crates/raft-runtime/src/runner.rs:113-212 | pending ids and reply keys stay equal; the replies of a turn are exactly the proposals it removed, to the right clients |
| Proposals.ProposalsConserved | crates/raft-runtime/src/runner.rs:113-212 | over any inputs each proposal made is waiting or was answered exactly once, to its own client |
| Commitment.CommitReplyIsBelowWatermark | crates/raft-runtime/src/runner.rs:185-212 | a commit reply is for a pending proposal recorded below the new watermark |
| Commitment.CommitReplyMeansLogged | crates/raft/src/replication.rs:213-225 | in every orderly run that never cuts a pending proposal, a commit reply means the client's own data is in the log below the watermark |
| Commitment.EventKeepsLoggedIff | crates/raft/src/replication.rs:88-121 | every event, in any role and order, keeps the data of pending proposals in the log exactly unless it is a follower's accepted cut at or below one of them |
| Commitment.RunKeepsLoggedIff | crates/raft/src/replication.rs:88-121 | over every orderly run the data of what is pending is in the log at every point exactly when no input cuts it |
| LostCommit.CommittedButNotLogged | crates/raft/src/election.rs:47-56 | a run in which a cut takes a pending proposal, its client is told it is committed, and its data is nowhere in the log |
| Watermark.AdvanceHasMajority | crates/raft/src/replication.rs:184-211 | when a fetch from another node moves the watermark to h, a majority of distinct voters hold everything below h, none larger has one, h is in the log and the entry below it is of the current epoch |
| Watermark.FetchAdvancesIff | crates/raft/src/replication.rs:184-211 | for every accepted fetch and every h: the leader's watermark afterwards is h exactly when h is a larger offset that a majority of distinct voters hold, none larger has one, and the entry below h is of the current epoch; or there is no such offset and h is where it was |
| Watermark.RunAdvancesIff | crates/raft/src/replication.rs:184-211 | the same at every input of every orderly run without a fetch of the leader's own |
| Replication.CommitsIff | crates/raft/src/replication.rs:213-225 | for every event: a proposal is committed exactly when it was pending and the watermark is now above where it was recorded, and none is left pending below it |
| Replication.NeverOverdue | crates/raft/src/replication.rs:213-225 | over every orderly run nothing is ever left pending below the watermark |
| Replication.FollowerLearnsIff | crates/raft/src/replication.rs:88-121 | for every fetch response: the watermark afterwards is the largest offset in the log that the response or the follower already vouches for, and stays where the response is not taken in; it is announced exactly then |
| Replication.SendsFetchResponseIff | crates/raft/src/replication.rs:10-86 | for every event: which fetch responses are sent, to whom, with which epoch, watermark, divergence point and slice of the log, heartbeats included |
| Replication.ExchangeEvensWatermark | crates/raft/src/replication.rs:88-121 | a follower with the leader's log and no higher watermark ends an exchange with the leader's watermark, and with exactly the proposals below it committed |
| Watermark.TableStaysOfOthersIff | crates/raft/src/replication.rs:10-86 | every event keeps the leader's table on other voters exactly unless the leader accepts a fetch from itself |
| Watermark.EveryAdvanceHasMajority | crates/raft/src/replication.rs:184-211 | in every orderly run without such a fetch every advance of a leader has a majority of distinct voters |
| Watermark.OwnFetchCountsTwice | crates/raft/src/replication.rs:10-86 | with a fetch from its own id a leader advances alone |
| Watermark.EventKeepsWatermark | crates/raft/src/replication.rs:88-121 | every event, in any role, keeps the watermark inside a gap-free log exactly when it is orderly: entries continue the follower's log and no cut is below its watermark; and then the watermark is no lower |
| Watermark.RunKeepsWatermarkIff | crates/raft/src/replication.rs:88-121 | a whole run keeps the watermark inside a gap-free log at every point exactly when every input is orderly |
| Watermark.WatermarkNeverGoesBack | crates/raft/src/replication.rs:88-121 | over every orderly run, across changes of role, the watermark stays in the log and never falls |
| Watermark.LogAfterFetchResponse | crates/raft/src/replication.rs:88-121 | what a fetch response does to the log, in the runner's order |
| Watermark.LateResponseBreaksWatermark | crates/raft/src/replication.rs:106-121 | a late response that leaves the watermark beyond the log |
| Watermark.CutBelowBreaksWatermark | crates/raft/src/replication.rs:97-104 | a late divergence answer that cuts the log below the watermark |
| CatchUp.RoundIsAnExchange | crates/raft/src/replication.rs:166-182 | a round is the leader's answer to a fetch at the log end and the follower's actions on it |
| CatchUp.FollowerCatchesUp | crates/raft/src/replication.rs:166-182 | matching logs, where no epoch starts later in the leader's, are equal after at most one round more than the follower has distinct epochs |
| CatchUp.StuckForever | crates/raft/src/replication.rs:166-182 | a follower whose divergence point is not below its end never changes |
| CatchUp.CatchesUpIffLateOnesCovered | crates/raft/src/replication.rs:166-182 | for all matching flat logs with epochs that do not decrease, repeated rounds make them equal exactly when above every epoch that starts later in the leader's log the follower has one the leader lacks; and then within one round more than it has epochs |
| CatchUp.SomeNeverCatchUp | crates/raft/src/replication.rs:166-182 | two such logs that no number of rounds makes equal |
| CatchUp.PartitionCutsNothingIff | crates/storage/src/partition/raft.rs:127-144 | a leader whose log is a partition cuts nothing off a follower it refuses exactly when the follower's last epoch starts at or beyond its end, or is unknown to a leader whose log is no shorter |
| Records.DecodesEncoded | crates/proto/src/record.rs:66-123 | decoding a record undoes encoding it and leaves the rest |
| Records.DecodesMany | crates/proto/src/record_batch.rs:44-55 | decoding several records in a row undoes encoding them |
| Records.DecodeFrom | crates/proto/src/record.rs:66-91 | the decoder that consumes a buffer does what the specification says, short buffers included |
| WireBytes.RecordBytes | crates/proto/src/record.rs:109-122 | the bytes of a record with one header: field order, widths and big-endian byte order |
| Records.SkipsEncoded | crates/proto/src/record_ref.rs:40-83 | skipping a record by its length lands where decoding it does |
| Records.FindsFirst | crates/proto/src/record_batch.rs:256-261 | the search finds the first record with the delta, its index and byte position, or nothing |
| Records.RecordRefIter.Next | crates/proto/src/record_ref.rs:40-83 | one step of the skipping iterator |
| RecordBatches.TimeRange | crates/proto/src/record_batch.rs:64-74 | the earliest and latest timestamp of the records |
| RecordBatches.FromRecords | crates/proto/src/record_batch.rs:57-108 | a batch built from records carries them renumbered from zero, dated as they were, with matching count, length, last delta and checksum, both ends of its time range reached and every other field zero; one built from none has last delta -1 and the extreme timestamps |
| RecordBatches.DecodesFile | crates/proto/src/record_batch.rs:168-209 | reading a file where a batch was appended gives it back, and the scan's fields are where it reads them |
| RecordBatches.DecodesWire | crates/proto/src/record_batch.rs:310-346 | reading a batch off the wire undoes encoding it exactly when its checksum is right |
| WireBytes.BatchBytes | crates/proto/src/record_batch.rs:293-308 | the bytes of a batch: all thirteen header fields in order, then the records |
| RecordBatches.DecodesCarried | crates/proto/src/record_batch.rs:44-55 | decoding a batch gives the records it carries |
| RecordBatches.SliceCarriesRest | crates/proto/src/record_batch.rs:262-291 | slicing at base plus k gives exactly the records from k on, each dated as in the whole batch, with every field that says where they come from kept and the others consistent; k beyond the end is refused |
| RecordBatches.SliceExactIffFromZero | crates/proto/src/record_batch.rs:262-291 | slicing is exact for every k exactly when deltas start at zero or there is one record |
| Layout.StoredGrows | crates/storage/src/segment/log_segment.rs:145-174 | appending the next batch's bytes keeps all batches where they were and adds one |
| Layout.BatchContains | crates/storage/src/segment/metadata.rs:156-181 | the batch searched for contains the target, and there is one exactly below the end |
| Layout.ScanFindsBatch | crates/storage/src/segment/metadata.rs:156-181 | a scan ends at the batch with the target, at the end position exactly at the end, and fails exactly beyond it |
| Layout.ScanFromAnywhere | crates/storage/src/segment/metadata.rs:44-63 | a scan from any batch at or before the target agrees with one from the start |
| Layout.FollowingFits | crates/storage/src/segment/metadata.rs:92-104 | the whole batches after the first are as many as fit the limit, and no fewer |
| Layout.FetchIsRun | crates/storage/src/segment/metadata.rs:78-107 | a fetch inside a segment delivers a non-empty run of its records with the dates they have there, stopping only at the end or when the next batch does not fit |
| Segments.WalksStored | crates/proto/src/batch_iter.rs:27-48 | walking the file yields the stored batches in order and then ends |
| Segments.BatchIter.Next | crates/proto/src/batch_iter.rs:27-48 | one step of the walk, moving past the batch read |
| Segments.SegmentView.FindPhysicalPosition | crates/storage/src/segment/metadata.rs:119-154 | binary search returns the last index entry at or before the target, or none if all are after it |
| Segments.SegmentView.LinearSearch | crates/storage/src/segment/metadata.rs:156-181 | the byte loop finds what the scan over batches finds, and terminates |
| Segments.SegmentView.BatchIterFrom | crates/storage/src/segment/metadata.rs:44-63 | index and scan together land where a scan from byte zero would; an error exactly beyond the end of a non-empty segment |
| Segments.SegmentView.Fetch | crates/storage/src/segment/metadata.rs:78-107 | the answer is the slice of the right batch and the batches after it that fit |
| LogSegments.AppendKeepsSound | crates/storage/src/segment/log_segment.rs:145-174 | an append at the end of the file keeps bytes, index and counters in step |
| LogSegments.StoresIffAtEnd | crates/storage/src/segment/log_segment.rs:145-174 | an append stores its batch after the others exactly when the cursor is at the end of the file |
| LogSegments.EntriesEndAtZero | crates/storage/src/segment/log_segment.rs:94-104 | past the first entry, an index entry is all zeroes exactly when it was never written |
| LogSegments.CountRecovered | crates/storage/src/segment/log_segment.rs:92-107 | the recovery loop finds exactly the number of entries written |
| LogSegments.LogSegment.Open | crates/storage/src/segment/log_segment.rs:36-127 | a segment without data starts empty; one with data gets its size back, an index cut or extended to the size for these segments with its entries counted, and a cursor and a byte counter at zero |
| LogSegments.LogSegment.AppendBatch | crates/storage/src/segment/log_segment.rs:145-174 | bytes at the cursor, an index entry in place when due, counters advanced, and a batch that continues the segment is stored |
| LogSegments.LogSegment.Publish | crates/storage/src/segment/log_segment.rs:176-180 | a view with the current counters that reads exactly the current batches |
| LogSegments.LogSegment.PublishedStaysValid | crates/storage/src/segment/log_segment.rs:176-180 | every view ever published still reads its own batches |
| LogSegments.FetchAroundAppends | crates/storage/src/segment/metadata.rs:109-117 | a fetch through an older view answers the same before and after any later appends |
| LogSegments.LogSegment.RecordsCount | crates/storage/src/segment/log_segment.rs:129-143 | the walk counts the records of the segment |
| IndexSpacing.FreshCounts | crates/storage/src/segment/log_segment.rs:92-93 | the first batch of a fresh segment gets an index entry, whatever its size |
| IndexSpacing.AppendKeepsSpacing | crates/storage/src/segment/log_segment.rs:145-174 | over appends an index entry goes to the first batch and then to the first one that completes the interval since the last entry, and to no other while the index has room |
| IndexSpacing.ScanIsShort | crates/storage/src/segment/log_segment.rs:145-174 | while the index has room, less than one interval of bytes lies between the end of an indexed batch and any batch before the next indexed one |
| IndexSpacing.IndexLasts | crates/storage/src/segment/log_segment.rs:74-90 | an index is full only once the segment is within one interval of its size limit |
| PartitionLog.PartitionPoint | crates/storage/src/partition/state.rs:34-36 | the segments that start at or before the offset |
| PartitionLog.FetchDeliversRun | crates/storage/src/partition/state.rs:31-47 | below the log end a fetch delivers a non-empty run of exactly the records from the offset on, dated as in the log, within the limit unless a single batch; nothing at or beyond the end |
| PartitionLog.SegmentInWhole | crates/storage/src/partition/actor.rs:196-258 | segment i holds the records of the flat log from its base offset on |
| PartitionLog.EmptySegmentChangesNothing | crates/storage/src/partition/actor.rs:128-136 | an empty segment at the log end changes no answer |
| Partitions.PartitionActor.Fetch | crates/storage/src/partition/state.rs:31-47 | the answer comes from the last segment that starts at or before the offset; the log start field holds the log end |
| Partitions.PartitionActor.Append | crates/storage/src/partition/actor.rs:199-259 | the flat log grows by exactly the records, the old length is the base offset, and a new segment follows exactly when the active one reached the segment size |
| Partitions.PartitionActor.UpdateReplicaLeo | crates/storage/src/partition/actor.rs:267-284 | watermark and queue after a report, and the producers answered |
| Partitions.PartitionActor.HandleTruncate | crates/storage/src/partition/actor.rs:165-194 | whole segments dropped and a fresh one at the offset; at the start of a segment exactly the log below the offset is left |
| Partitions.PartitionActor.Initialize | crates/storage/src/partition/actor.rs:91-139 | the directory's segments are opened in order, the log end is found by counting, and a full last segment is followed by a new one |
| Partitions.PartitionActor.constructor | crates/storage/src/partition/actor.rs:62-89 | opening a directory left by any append-only run shows the same segments, records and log end |
| Partitions.FetchAcrossRestart | crates/storage/src/partition/actor.rs:62-139 | a fetch answers the same before and after a restart, for every offset and limit |
| PartitionRuns.StartFresh | crates/storage/src/partition/actor.rs:62-139 | an empty directory gives a valid, empty partition ready for appends |
| PartitionRuns.Run | crates/storage/src/partition/actor.rs:196-287 | over any commands and rotations, with truncations at segment starts, the flat log grows by exactly the appended records and loses exactly those cut; watermark, queue, answers and base offsets go through the matching steps |
| Truncation.CleanCut | crates/storage/src/partition/actor.rs:165-194 | cutting at the start of a segment leaves a log of exactly the records below it |
| Truncation.TruncationHidesIff | crates/storage/src/partition/actor.rs:165-194 | after truncating, every fetch below the offset stops at it exactly when the offset starts a segment |
| ReplicaAcks.StepKeepsConsistent | crates/storage/src/partition/state.rs:63-77 | the watermark is the smallest replica offset, never falls, stays in the log; exactly the reached producers are answered, once every replica has their batch |
| ReplicaAcks.ReportRaises | crates/storage/src/partition/actor.rs:267-284 | a report moves the first replica with that id up to the reported offset if it was below it, and nothing else |
| ReplicaAcks.RunKeepsConsistent | crates/storage/src/partition/actor.rs:247-284 | over every run of honest reports and cuts the watermark is the smallest replica offset, within the log, and has not gone back |
| ReplicaAcks.AnsweredOnceInOrder | crates/storage/src/partition/actor.rs:247-284 | over any run producers are answered first in first out and exactly once |
| ReplicaAcks.AloneFollowsLog | crates/storage/src/partition/actor.rs:233-236 | without replicas the watermark is the log end |
| ReplicaAcks.ConsistentIffWithinLog | crates/storage/src/partition/state.rs:63-77 | a report keeps this exactly when it is within the log or from nobody known |
| ReplicaAcks.ConsistentIffNobodyBeyond | crates/storage/src/partition/actor.rs:165-194 | a truncation keeps this exactly when no replica offset and no waiting producer is beyond it |
| RaftPartitions.EntryBatchHolds | crates/storage/src/partition/raft.rs:146-156 | the batch an entry becomes gives its epoch and data back |
| RaftPartitions.RaftPartition.LogEndOffset | crates/storage/src/partition/raft.rs:28-30 | the log end offset of the flat log |
| RaftPartitions.RaftPartition.EpochAt | crates/storage/src/partition/raft.rs:32-58 | the flat log's epoch at every offset, or none |
| RaftPartitions.RaftPartition.Entries | crates/storage/src/partition/raft.rs:84-125 | the flat log's entries of every range |
| RaftPartitions.RaftPartition.FindEpochStart | crates/storage/src/partition/raft.rs:127-144 | the first offset with the epoch, or the log end |
| RaftPartitions.EpochStartAgreesIff | crates/storage/src/partition/raft.rs:127-144 | that is the flat log's answer exactly when the epoch occurs or the log is empty |
| RaftPartitions.RaftPartition.LastEpoch | crates/storage/src/partition/raft.rs:60-82 | the epoch before the last change |
| RaftPartitions.LastEpochAgreesIff | crates/storage/src/partition/raft.rs:60-82 | that is the flat log's answer exactly when every epoch is zero |
| RaftPartitions.RaftPartition.Append | crates/storage/src/partition/raft.rs:146-156 | an entry is stored at the log end whatever offset it says |
| RaftPartitions.RaftPartition.Truncate | crates/storage/src/partition/raft.rs:158-160 | what the flat log keeps, at the start of a segment or at or beyond the end; inside one the log end is the offset and the whole segment is kept |
| RaftPartitions.AppendToBoth | crates/storage/src/partition/raft.rs:27-125 | over any run of in-order appends and rotations the partition holds what the flat log holds |
| Wire.ReadsEach | crates/network/src/protocol/codec.rs:83-121 | if reading undoes writing for elements, it does for lists of them, and sizes add up |
| FrameParts.ReadsHeader | crates/network/src/protocol/codec.rs:49-71 | reading the header undoes writing it, client id checked as UTF-8, and its size is right |
| FrameParts.ReadsSizedBatch | crates/network/src/protocol/codec.rs:96-107 | a batch in a produce request is read back |
| FrameParts.ReadsRecordBatch | crates/network/src/protocol/codec.rs:374-387 | a batch in a fetch response is read back by its own length field |
| Requests.ReadsProduceRequest | crates/network/src/protocol/mod.rs:69-88 | a produce request written in front of any bytes is read back with those bytes left, and takes exactly its announced size |
| Requests.ReadsFetchRequest | crates/network/src/protocol/mod.rs:89-104 | a fetch request written in front of any bytes is read back with those bytes left, and takes exactly its announced size |
| Requests.ReadsMetadataRequest | crates/network/src/protocol/mod.rs:152-159 | a metadata request written in front of any bytes is read back with those bytes left, and takes exactly its announced size |
| Requests.ReadsCreateTopicRequest | crates/network/src/protocol/mod.rs:160-175 | a create topics request written in front of any bytes is read back with those bytes left, and takes exactly its announced size |
| Responses.ReadsFetchResponse | crates/network/src/protocol/mod.rs:105-125 | a fetch response written in front of any bytes is read back with those bytes left, and takes exactly its announced size |
| Responses.ReadsProduceResponse | crates/network/src/protocol/mod.rs:126-151 | a produce response written in front of any bytes is read back with those bytes left, and takes exactly its announced size |
| Responses.ReadsCreateTopicResponse | crates/network/src/protocol/mod.rs:176-188 | a create topics response written in front of any bytes is read back with those bytes left, and takes exactly its announced size |
| Responses.ReadsMetadataResponse | crates/network/src/protocol/mod.rs:189-214 | a metadata response written in front of any bytes is read back with those bytes left, and takes exactly its announced size |
| Decoder.ParseRequest | crates/network/src/protocol/codec.rs:49-81 | the request decoder reads what the layout says, errors and short buffers included, and leaves the rest |
| Decoder.ParseResponse | crates/network/src/protocol/codec.rs:211-243 | the response decoder reads what the layout says, errors and short buffers included, and leaves the rest |
| Decoder.ParseProduceRequest | crates/network/src/protocol/codec.rs:83-121 | the loops over topics, partitions and their batches read exactly what the layout says or fail the same way |
| Decoder.ParseFetchRequest | crates/network/src/protocol/codec.rs:123-155 | the loops over topics and partitions read exactly what the layout says or fail the same way |
| Decoder.ParseMetadataRequest | crates/network/src/protocol/codec.rs:157-170 | the loops over topic names read exactly what the layout says or fail the same way |
| Decoder.ParseCreateTopicRequest | crates/network/src/protocol/codec.rs:172-205 | the loops over topics and assignments read exactly what the layout says or fail the same way |
| Decoder.ParseMetadataResponse | crates/network/src/protocol/codec.rs:245-302 | the loops over brokers, topics and partitions read exactly what the layout says or fail the same way |
| Decoder.ParseProduceResponse | crates/network/src/protocol/codec.rs:304-356 | the loops over topics and partitions with messages and leaders read exactly what the layout says or fail the same way |
| Decoder.ParseFetchResponse | crates/network/src/protocol/codec.rs:358-402 | the loops over topics, partitions and batches read exactly what the layout says or fail the same way |
| Decoder.ParseCreateTopicResponse | crates/network/src/protocol/codec.rs:404-431 | the loops over created topics read exactly what the layout says or fail the same way |
| Encoder.Encode | crates/network/src/protocol/mod.rs:50-222 | the growing buffer with the patched size holds exactly the layout of the frame |
| Encoder.EncodeThenDecode | crates/network/src/protocol/mod.rs:50-234 | encoding and then decoding gives the frame back and uses up the buffer |
| Frames.FrameRoundTrip | crates/network/src/protocol/mod.rs:33-222 | for every sound frame the announced size is the encoded length minus four, and the matching decoder gives the frame back with nothing left over |
| WireBytes.NumbersRead | crates/network/src/protocol/header.rs:33-45 | which four bytes are read as which API key and acknowledgement level, and that all others are refused |
| WireBytes.HeaderBytes | crates/network/src/protocol/mod.rs:55-66 | the bytes of a frame header with a client id |
| WireBytes.AnonymousBytes | crates/network/src/protocol/mod.rs:55-66 | the bytes of a frame header without one: length minus one |
| WireBytes.ProduceRequestBytes | crates/network/src/protocol/mod.rs:69-88 | the bytes of a produce request with one element on every level |
| WireBytes.FetchRequestBytes | crates/network/src/protocol/mod.rs:89-104 | the bytes of a fetch request with one element on every level |
| WireBytes.FetchResponseBytes | crates/network/src/protocol/mod.rs:105-125 | the bytes of a fetch response with one element on every level |
| WireBytes.ProduceResponseBytes | crates/network/src/protocol/mod.rs:126-151 | the bytes of a produce response with one element on every level |
| WireBytes.MetadataRequestBytes | crates/network/src/protocol/mod.rs:152-159 | the bytes of a metadata request with one topic |
| WireBytes.CreateTopicRequestBytes | crates/network/src/protocol/mod.rs:160-175 | the bytes of a create topics request with one element on every level |
| WireBytes.CreateTopicResponseBytes | crates/network/src/protocol/mod.rs:176-188 | the bytes of a create topics response with one topic |
| WireBytes.TopicMetadataBytes | crates/network/src/protocol/mod.rs:196-214 | the bytes of one topic of a metadata response with one partition |
| WireBytes.MetadataResponseBytes | crates/network/src/protocol/mod.rs:189-214 | the bytes of a metadata response with one broker and one topic |
| WireBytes.BigEndian | crates/network/src/protocol/mod.rs:50-66 | four bytes in big-endian order are read and written as the number they say |
| WireBytes.BigEndianLong | crates/network/src/protocol/mod.rs:50-66 | eight bytes are the first four times 2^32 and the last four |
| Producers.ProducerActor.Handle | crates/producer/src/actor.rs:54-110 | one turn of the loop: what is buffered and published, exactly when it panics, and the timer runs exactly while something below the limit is buffered |
| Producers.ProducerActor.Batcher | crates/producer/src/actor.rs:45-112 | over any events what was published from the buffer is, in every partition, a prefix of what was accepted: all of it once shut down, all but the buffer while running; only a panic loses records |
| Producers.ProducerActor.CalculateIndex | crates/producer/src/actor.rs:166-182 | the hash of the key, or the draw without one, modulo the partition count, cut to 16 bits; none exactly for a topic it cannot place |
| Producers.ProducerActor.SameKeySamePartition | crates/producer/src/actor.rs:166-182 | payloads of one topic and key go to one partition whatever is drawn: the hash modulo the partition count, up to 2^16 partitions |
| Producers.ProducerActor.KeysStayTogether | crates/producer/src/actor.rs:166-182 | over any events the accepted records of a topic and key are all in that key's partition, in the order they came |
| Producers.PushConserves | crates/producer/src/actor.rs:68-73 | buffering a payload keeps published plus buffered equal to accepted, for every partition |
| Producers.PublishConserves | crates/producer/src/actor.rs:86-92 | publishing the buffer keeps published plus buffered equal to accepted, for every partition |
| Consumers.ConsumerActor.Requests | crates/consumer/src/lib.rs:183-187 | every partition is asked for once, at its commit offset |
| Consumers.ConsumerActor.HandleResponse | crates/consumer/src/lib.rs:189-219 | records handed out batch by batch, commit offsets moved by their number, watermarks raised; with an unknown partition or a broken batch everything before it is handed out and nothing after |
| Consumers.HandedOutUpToFault | crates/consumer/src/lib.rs:189-219 | a bad response, wherever it stands: what came before it is handed out whole, of it only the batches before the broken one, and nothing after |
| Consumers.WatermarkIsHighest | crates/consumer/src/lib.rs:189-219 | a partition's watermark is the highest of what it was and what its responses said |
| Consumers.AnswerIsNextRecords | crates/consumer/src/lib.rs:180-233 | an answer is the next records of the log, at least one while there are any |
| Consumers.RoundKeeps | crates/consumer/src/lib.rs:189-219 | a round of answers keeps every partition exactly once and in order |
| Consumers.RunDeliversExactlyOnce | crates/consumer/src/lib.rs:180-233 | over every run with failures and interleaved appends each partition's records are handed out exactly once, in order, from its start offset |
| Consumers.FreshRunDeliversExactlyOnce | crates/consumer/src/lib.rs:95-109 | over every run of a fresh consumer, whatever offsets it starts from, each partition's records from there to its commit offset are what it was handed, once and in order |
| Consumers.RoundAdvances | crates/consumer/src/lib.rs:180-233 | every answered round moves each partition that is behind its log, and no other |

## Left out

- 32-bit epochs and 64-bit offsets do not wrap in the Raft model: they are unbounded there. Storage keeps offsets and positions within 64 bits as conditions on appends.
- Segments.SegmentView.Fetch: the running sum of batch lengths is not a 32-bit sum that can overflow.
- Files and memory maps are byte sequences and arrays; a positioned read past the end gives zeroes. Disk errors, torn writes and short reads are not modelled: header and records of a batch are written as one.
- Partitions.PartitionActor.Append: asks for a batch whose header agrees with its records, as the producer builds them; and for a cursor at the end of the active file, since otherwise the file is overwritten (LogSegments.StoresIffAtEnd).
- Partitions.PartitionActor.constructor: asks for a segment size of at least one byte, since with zero the source opens the first segment twice; and for index files of the size that goes with it, so a resized index is followed for one segment (LogSegments.LogSegment.Open) and not for a whole directory.
- Partitions.PartitionActor.HandleTruncate: when the offset is inside a segment it states the new state, and Truncation.TruncationHidesIff what is wrong with it, but appends after that are not followed.
- PartitionRuns.Run: a truncation inside a segment ends what it can say, since the segments overlap from then on (Truncation.TruncationHidesIff).
- RaftPartitions.RaftPartition.Append: the record's timestamp is a parameter.
- The time index, which holds the same offsets twice.
- The JSON file of the quorum state is one persisted pair of epoch and vote; loading and saving it is one step.
- Sockets, tasks, channels and timers are events and steps; a send always reaches the network, which may then lose it. Random election delays and correlation ids are parameters or left out.
- Election.OneLeaderPerEpoch: the cluster lets each node's log be anything at each step, so it does not depend on replication; leader completeness and log matching across the cluster are not stated, since late fetch responses break them.
- crates/raft-runtime/src/observer.rs: it sends epoch 0 and does not recompute the last epoch after a truncation, so the catch-up result does not apply to it.
- Frames.FrameRoundTrip: texts are their bytes; the client id is checked as UTF-8, the lossy repair of the other texts is not modelled; a timeout is its milliseconds.
- CRC32C is a concrete function nothing is proved about; the key hash and the announced frame size in the producer are arbitrary functions.
- Producers.ProducerActor.Batcher: a publication that fails counts as not published, although the broker may have stored it before the answer was lost.
- Consumers.ConsumerActor.HandleResponse: the responses of the one topic asked for are one list, and partition numbers fit 16 bits.
- Fetch of all records, reading a batch from a slice of a file, compression bits, Display implementations, broker request dispatch, topic creation and metadata replay: plumbing or one-branch facts.
