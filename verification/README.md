# distribKV: a verified model

distribKV is a Raft library (`raft/`) with a replicated key-value service on top
(`kv/`). This project models both in Dafny and proves what they keep over whole
runs: the safety properties of Figure 3 of the extended Raft paper ("In Search
of an Understandable Consensus Algorithm"), that no run gets stuck, what each
handler answers and changes, log compaction and the apply stream, durability of a one-node cluster, duplicate detection, state-machine
snapshots, the rendezvous between RPC handlers and the apply loop, and the
snapshot file format. Where the code does not give a property, the exact
condition under which it does is proved instead.

`dafny verify dfyconfig.toml` checks everything.

## How it is built

- `RaftTypes`, `NodeSpec`: one node as a value, and each critical section of a
  node as a function from its state to its new state and answer.
- `RaftNode`, `Persister`: the node as the source writes it, a class whose
  methods update fields and loop over the log. Each method is proved to compute
  the function of `NodeSpec`, so every theorem about the functions is about the
  methods.
- `Cluster`: the nodes, a network that loses, delays, reorders and repeats
  requests, and every critical section as one step. A reply is consumed at most
  once. `ClusterInvariant`, `ClusterEffects`, the `*Steps` files and `Quorums`
  hold the inductive proof, `ClusterSafety` the theorems, `ElectionBounds` the
  limits of election safety, `Progress` the leader's view of its peers,
  `Replicas` what it all means for followers and state machines.
- `ElectionSpec`, `ReplicationSpec`, `SnapshotSpec`: what each handler answers
  and what it changes, for every input, said without the handler's own helpers:
  which log is newer, what a majority is, which entries a log has.
- `Paths`, `Campaigns`, `Availability`: continuations of a run, how a candidate
  is elected from any state, and how any command can still be committed and
  delivered by every node. `Backtracking`: the catch-up loop between two nodes.
- `Compaction`, `CompactionSafety`: one node over any run of all its critical
  sections, against the log it would have kept without compaction.
- `KvSpec`, `KvServer`: the key-value server as relations on values, and as a
  class proved against them. `StoreSpec`: the map and the results read off the
  commands alone. `KvRuns`: its runs over the commands of a log,
  with snapshots and restarts on the way. `DedupSpec`: which commands it
  executes, as a function of the commands and its clock readings; `Dedup`: the
  proof that it does. `KvCompaction`: what a snapshot changes. `KvExamples`:
  one repeat at two clocks.
- `Durability`, `DurabilityIds`: node and server of a one-node cluster with
  restarts, without and with client ids. `Recovery`: what a restart keeps of
  term, vote and log.
- `Waiters`: the table of waiting handlers. `SnapshotFile`: the file format.

## What is assumed

- Multi-node runs have no restarts and no compaction (`logBase` is 0). The
  source persists a vote before setting `votedFor` (raft/election.go:184-189):
  `VoteSurvivesExactly` says when a vote survives a restart, and
  `RestartRivals` gives the two leaders of one term that follow, for every
  cluster of three or more. Recovery also counts the whole log as committed
  (raft/raft.go:311-314). So safety is not promised across restarts.
- Multi-node safety, and what a run can still do, is stated for timely promotions: becomeLeader runs in the
  term whose votes were counted. The source drops the lock in between and does
  not check (raft/election.go:142-144, 205-210). It is also stated for an odd
  number of servers or two, because the vote test leaves the candidate out of
  the peer count (raft/election.go:142). `ElectionSafeExactly` proves both
  conditions necessary for every cluster of two or more.
- Server ids are non-negative.
- Client ids and clocks. The RPC handlers set no client ids
  (kv/server.go:188-191, 222-226, 242-246); for such commands the map is the
  plain fold of the log at any clock readings. For commands with ids the
  results hold when each server's clock moves forward, strictly from save to
  save (`Ticks`), and a snapshot is saved no later than what is looked up after
  it is loaded (`TicksThrough`); what is then executed is a function of the
  readings (`DedupSpec.Runs`), and equals one execution per command when
  repeats are timely. Results about loaded snapshots exclude unknown operation
  types (`KnownOps`), whose error text a snapshot drops. Each result names the
  conditions it needs.
- In `Compaction` a node's requests repeat what it has committed, and a snapshot
  is taken of applied entries; `RequestsRepeatCommitted` shows the first for
  every request of a cluster run. Requests that would make the source index its
  log below zero are excluded (`InContract`, exactly those by `PanicsExactly`).
  Taking an entry and sending it to the state machine is one step
  (raft/raft.go:522-540 unlocks in between), and the apply queue has room.
- In `Durability` restarts come between complete operations; `TwoFileGap` and
  `FailedSnapshotLosesLater` show what is lost when a snapshot is only half
  written. A snapshot file that cannot be read counts as none, as in the source.
- Integers are unbounded, except in `SnapshotFile`. Commands and snapshot
  payloads are values or marked unreadable, in place of JSON. Slices are values,
  so copying them is not modelled. Clock readings are parameters; one clean-up
  reads the clock once. Iterating over a Go map is an arbitrary choice.

Where code and comments disagree the code is followed: the duplicate lookup is
skipped when either id is 0, not only when both are (kv/apply.go:62-65). As in
the code, and unlike the Raft paper, a Candidate that hears a leader of its own
term stays Candidate (raft/replication.go:52-62).

## Model

| member | source | states |
|---|---|---|
| ClusterSafety.RunInv | raft/replication.go:37-136 | the whole inductive invariant holds at every moment of every run of any odd-sized (or two-node) cluster |
| ClusterSafety.RunLater | raft/election.go:241-250 | between any two moments of a run terms and commit indexes only rise, and no leadership, commitment or leader-log entry is ever lost |
| ClusterSafety.TermsNeverDecrease | raft/election.go:18-49 | no node's term or commit index ever decreases |
| ClusterSafety.ElectionSafety | raft/election.go:118-223 | two nodes that lead the same term, at whatever moments, are the same node |
| ClusterSafety.LeaderAppendOnly | raft/replication.go:343-369 | within its term a leader stays leader and its log only grows at the end |
| ClusterSafety.LogMatching | raft/replication.go:67-111 | entries with the same index and term, in any two logs at any two moments, have identical logs up to them |
| ClusterSafety.LeaderCompleteness | raft/election.go:175-196 | whatever any node of term t has committed is a prefix of the log of every leader of any later term |
| ClusterSafety.StateMachineSafety | raft/replication.go:284-319 | any two nodes, at any two moments, hold the same entry at every index at or below both commit indexes |
| ClusterSafety.DeliveredStream | raft/raft.go:515-548 | a node has delivered exactly the entries through lastApplied, each once, in order, with index k+1 at place k |
| ClusterSafety.DeliveriesAgree | raft/raft.go:515-548 | of the delivered streams of any two nodes at any two moments one is a prefix of the other |
| ClusterSafety.NoPanic | raft/replication.go:83-91 | no request in flight makes its receiver index its log out of range |
| ElectionBounds.ElectionSafeExactly | raft/election.go:118-148 | no run has two leaders of one term if and only if the cluster has one node, or promotions are timely and its size is odd or two |
| ElectionBounds.EvenRivals | raft/election.go:142-144 | every even cluster of four or more has a run with timely promotions and two leaders of one term |
| ElectionBounds.LateRivals | raft/election.go:205-210 | every cluster of two or more has a run with late promotions and two leaders of one term |
| ElectionBounds.RestartRivals | raft/election.go:182-190 | every cluster of three or more, with timely promotions, has a run with two leaders of one term once voters are restarted in between |
| ElectionSpec.AskDescribes | raft/election.go:92-113 | a vote request speaks of the candidate's last entry, or of none, in its name and the term of its election |
| ElectionSpec.GrantsExactly | raft/election.go:153-199 | a vote is granted if and only if the voter is free in that term, the candidate's log is not older, last entries compared by term and then index, and it could be saved; with the voter's whole new state, for entries of positive term and index |
| ElectionSpec.NotOlderOrders | raft/election.go:179-181 | the comparison is total and transitive, so some log of any cluster is not older than any other |
| ElectionSpec.CampaignsExactly | raft/election.go:18-49 | whoever does not lead stands in the next term with its own vote, and asks for others if and only if that was saved |
| ElectionSpec.CountsExactly | raft/election.go:118-148 | a vote counts if and only if the candidate still stands in that term, and elects if and only if the votes are then more than half the number of peers |
| ElectionSpec.LeaderBeginsExactly | raft/election.go:205-224 | a new leader knows of no match; its nextIndex is one past its last index if and only if it has an entry or never compacted |
| ElectionSpec.VoteRepliesAdoptExactly | raft/election.go:121-132 | a vote reply of a newer term deposes exactly a candidate of the term it was asked in, and is missed otherwise |
| ElectionSpec.AppendRepliesAdoptExactly | raft/replication.go:243-256 | an append reply of a newer term deposes exactly a leader of the request's term, and is missed otherwise |
| Quorums.VoteMeetsCommit | raft/election.go:142 | any set passing the vote test meets any set passing the commit test, for every cluster size |
| Quorums.VoteMeetsVote | raft/election.go:142 | any two sets passing the vote test meet when the size is odd or two |
| Replicas.OldRequestChangesNothing | raft/replication.go:67-135 | a repeated or overtaken request, at or below what its receiver already confirmed in that term, is accepted and changes neither log nor file |
| Replicas.RequestsRepeatCommitted | raft/replication.go:173-225 | every request in flight that its receiver would not refuse as stale carries correctly numbered entries and repeats what that receiver has committed |
| Replicas.ReplicasAgree | kv/apply.go:43-112 | for commands without client ids, any two state machines hold the same map after the same number of messages, whatever their clocks: per key the last Put and the later Appends in order |
| Replicas.ReplicasAgreeWithIds | kv/apply.go:43-112 | with client ids they hold the same map when both clocks move forward and by both readings the same commands are executed; when repeats are timely by both, the map of executing each command once |
| Replicas.ReplicaChooses | kv/apply.go:62-71 | a server of a cluster executes a command if and only if its own clock readings say so |
| Replicas.ReplicasPart | kv/apply.go:155-170 | two clocks on which two servers handle one stream and end with different maps |
| Progress.RunNext | raft/replication.go:241-277 | in every run a leader's nextIndex for every peer lies between 1 and one past its log |
| Progress.RunStable | raft/replication.go:148-278 | every leader of a run, and every peer not ahead of it in term, are as the catch-up loop needs them |
| Progress.RunAwake | raft/replication.go:324-329 | in every run of a cluster a node with committed entries to deliver has its loop running or a token waiting |
| Campaigns.CanBeElected | raft/election.go:18-237 | from any state of a cluster a node that does not lead can be elected in any later term by any voters that are free in it, have logs that are not newer, and with it are half the cluster; nobody else changes |
| Availability.BringUp | raft/replication.go:148-278 | at any moment of a run a follower not ahead in term, however far behind, catches up with a leader, by the actions of the two alone |
| Availability.CanCommit | raft/replication.go:284-319 | a leader that with nodes not ahead of it is a majority can commit any command, on all of them |
| Availability.Drain | raft/raft.go:500-548 | at any moment of a run any node can deliver everything it has committed |
| Availability.LeaderServes | raft/replication.go:343-369 | such a leader can have any command committed and delivered by all of them, at the index after its log |
| Availability.CanServe | raft/election.go:18-237 | at any moment of a run any node that does not lead and with nodes whose logs are not newer is a majority can be elected, and then have any command committed and delivered by all of them |
| Availability.NeverStuck | raft/replication.go:148-319 | from every moment of every run any command can still be committed and delivered by every node, all at one index, whatever leaders, candidates and messages there are |
| ReplicationSpec.ScanExactly | raft/replication.go:284-319 | whatever the log, the scan commits the greatest index beyond the commit index that a majority is known to hold if that is of the current term, and nothing otherwise |
| ReplicationSpec.ScanPicksGreatest | raft/replication.go:284-319 | with rising terms the downward scan from k returns the greatest index at or below k that is beyond the commit index, of the current term, and known to be held by more than half of the cluster; or the commit index |
| ReplicationSpec.UpdateCommitIsLeaderRule | raft/replication.go:284-319 | for every log with rising terms a leader's new commit index is the greatest such index, the apply loop is then signalled, and nothing else changes; whoever does not lead is left alone |
| ReplicationSpec.MergeMeaning | raft/replication.go:83-111 | after a merge the log agrees with the request by term through its end, is untouched before it, and keeps what lies beyond exactly when nothing conflicted |
| ReplicationSpec.MergeIdempotent | raft/replication.go:83-111 | merging the same request again changes no entry |
| ReplicationSpec.AcceptsExactly | raft/replication.go:37-136 | a request succeeds if and only if it is current, is anchored at the beginning or at an entry of the right term, and what it adds could be saved; there is no answer if and only if that save fails; the answer's term is the newer of the two |
| ReplicationSpec.AppendTakes | raft/replication.go:37-136 | the receiver's whole new state: the log is kept up to the first entry it lacks and replaced from there, saved exactly when it changed, committed to the lesser of the leader's commit index and the request's end, signalled exactly when that moved; term, role, vote and leader as a current request demands |
| ReplicationSpec.RequestReachesEnd | raft/replication.go:173-225 | a request reaches the end of the leader's log if and only if the leader has not compacted, or the peer lacks nothing and the log is not empty |
| ReplicationSpec.BuildsExactly | raft/replication.go:163-225 | a snapshot is due if and only if nextIndex is in the compacted part; otherwise the request is anchored at the entry before nextIndex, with its term, and carries the entries from there, or begins at the beginning when that entry is missing |
| ReplicationSpec.ReplyExactly | raft/replication.go:241-319 | a success raises this peer's matchIndex to the end of the request, never lowers it, puts nextIndex behind it and moves the commit index by the leader rule; a rejection goes back one entry; a late answer changes nothing |
| ReplicationSpec.SubmitExactly | raft/replication.go:343-369 | a leader that can save gives the command the next index in its term and commits by the leader rule; otherwise nothing changes |
| ReplicationSpec.CatchUpStalls | raft/replication.go:192-211 | a peer that just installed the leader's snapshot is sent empty requests, and each success leaves the leader where it was |
| ReplicationSpec.PanicsExactly | raft/replication.go:83-91 | AppendEntries indexes its log below zero exactly on the requests the model excludes |
| ReplicationSpec.UncompactedLeaderPanicsFollower | raft/replication.go:173-225 | an uncompacted leader that goes back to the beginning sends such a request to every compacted follower |
| NodeSpec.FirstNew | raft/replication.go:83-105 | the entries before the result agree by term with the log, and the one at it does not or is beyond an end |
| Backtracking.AcceptedPrefix | raft/replication.go:83-111 | with matching logs a request accepted where the logs agree leaves the leader's log, or the follower's own if it begins with the leader's |
| Backtracking.BuiltRequest | raft/replication.go:173-225 | without compaction the request is everything from nextIndex, anchored at the entry before |
| Backtracking.AnchoredExactly | raft/replication.go:67-81 | between matching logs a request's anchor is found if and only if the logs agree up to it |
| Backtracking.FollowerAnswer | raft/replication.go:37-136 | the follower accepts if and only if the logs agree up to the anchor, has then caught up and committed as far as the leader says; otherwise its log and commit index stay |
| Backtracking.Learn | raft/replication.go:241-277 | an answer moves only this peer's entry: to the end of the request, or one back |
| Backtracking.SendOnce | raft/replication.go:148-278 | one exchange finishes, with matchIndex the length of the leader's log, if and only if the logs agree below nextIndex; otherwise it lowers nextIndex by one |
| Backtracking.CatchUp | raft/replication.go:258-277 | the number of rejections is exactly nextIndex-1 minus the greatest index below nextIndex through which the logs agree; then the follower has the leader's log, or its own if that begins with it, and matchIndex is the leader's length, other peers untouched |
| Compaction.StepKeeps | raft/replication.go:458-493 | every critical section, with any outcome of its file writes, keeps the invariant and the committed part of the whole log |
| Compaction.MergeWhole | raft/replication.go:83-111 | merging into the compacted log is merging into the whole one |
| Compaction.AfterIsTail | raft/replication.go:478-484 | the entries a snapshot leaves are the tail of the log after its index |
| CompactionSafety.RunKeeps | raft/snapshot.go:39-83 | over every run of one node committed entries, delivered messages and both indexes only grow, through any compactions and installs |
| CompactionSafety.LogStaysAligned | raft/snapshot.go:46-68 | at every moment log[i].Index = logBase+i+1, logBase <= lastApplied <= commitIndex <= logBase+len(log), and the log is the tail of the whole log |
| CompactionSafety.ApplyStream | raft/raft.go:515-548 | delivered indexes strictly increase, every command is the whole log's, and since the last install, written or not, every applied index was delivered |
| CompactionSafety.NeverOutOfRange | raft/raft.go:522-533 | the out-of-range branch of the apply loop is never taken |
| CompactionSafety.NoLostWakeUp | raft/replication.go:324-329 | whenever the apply loop is idle with something to deliver, the one-slot channel holds a token |
| CompactionSafety.DrainsAll | raft/raft.go:500-548 | from any moment of a run the loop, left alone, delivers everything committed |
| CompactionSafety.RecoveryMaySleep | raft/raft.go:262-327 | a recovered node is idle with committed entries and no token if and only if a snapshot was found and the saved log reaches past it |
| CompactionSafety.ReplicateCommutes | raft/replication.go:343-369 | appending a command does to the compacted node what it does to the uncompacted one |
| CompactionSafety.ReplyCommutes | raft/replication.go:241-319 | so does handling a reply and moving the commit index |
| CompactionSafety.ApplyCommutes | raft/raft.go:515-548 | so does delivering an entry |
| CompactionSafety.AppendCommutes | raft/replication.go:37-136 | so does AppendEntries, answer included, if and only if the request is not anchored at a compacted entry of the right term |
| CompactionSafety.InstallCommutes | raft/replication.go:434-518 | installing a snapshot is merging the log it stands for into the whole log |
| CompactionSafety.InstallTellsExactly | raft/replication.go:486-507 | an install always moves lastApplied, and tells the state machine if and only if both files were written |
| SnapshotSpec.SnapshotsExactly | raft/snapshot.go:39-83 | a snapshot is refused if and only if it is over 4 MiB or beyond the commit index, has nothing to do if and only if the log is cut there already, and otherwise leaves the same whole log cut at its index, named by that entry's term, with each file as its write went |
| SnapshotSpec.InstallsExactly | raft/replication.go:434-518 | the answer and the whole new state: error, stale, followed only, or installed if and only if it is beyond the commit index and not contradicted by the whole log |
| SnapshotSpec.SnapshotReplyExactly | raft/snapshot.go:137-157 | any answer of the leader's term counts as holding everything through the snapshot; a newer one deposes; a late one is ignored |
| SnapshotSpec.RecordedExactly | raft/snapshot.go:91-157 | a snapshot sent, answered and recorded is held by the follower, committed, if and only if the follower's log does not contradict it beyond what it has committed |
| CompactionSafety.ServerFollowsLog | kv/snapshot.go:118-141 | through any compactions and written installs, at any clock readings, the server is where handling the whole log up to lastApplied in order leads |
| CompactionSafety.StoreFollowsLog | kv/snapshot.go:118-141 | without client ids its map is what that log wrote, per key the last Put and the later Appends in order, and so is the state in a snapshot of it |
| Durability.AckedIsLogged | raft/replication.go:343-369 | through any restarts of a one-node cluster every acknowledged command is in the log or the snapshot, in order, committed, and in the files |
| Durability.SubmitDurable | raft/replication.go:343-369 | a one-node leader acknowledges exactly when the entry is saved, with the next index, already committed |
| Durability.SnapshotNamesEntry | raft/snapshot.go:56-76 | the snapshot on disk carries index and term of the last entry it covers, and a restart begins with it |
| Durability.ServerFollowsAcked | kv/apply.go:43-91 | at every moment, through restarts at which a snapshot exists, the server is where handling the acknowledged commands in order leads |
| Durability.StoreIsAcked | kv/apply.go:43-91 | without client ids its map is then what the acknowledged commands it has handled wrote |
| Durability.RestartedServer | raft/raft.go:262-327 | restarted at any moment at which a snapshot exists, loop and new server run, the server is where handling every acknowledged command leads, at the readings behind the snapshot and its own |
| Durability.OneNodeDurability | raft/raft.go:262-327 | without client ids the new server's map is then what every command ever acknowledged wrote: per key the last Put and the later Appends in order |
| DurabilityIds.StoreIsAckedWithIds | kv/apply.go:43-91 | with client ids and forward clocks the map is what the commands executed by the readings wrote; with timely repeats, each acknowledged command once |
| DurabilityIds.OneNodeDurabilityWithIds | kv/snapshot.go:118-179 | the same for the new server after a restart, counting the readings behind the snapshot |
| DurabilityIds.IdsBreakTheFold | kv/apply.go:62-71 | with client ids the map need not be the fold: a stream whose repeat is answered and not executed |
| DurabilityIds.LateRestartExecutesTwice | kv/snapshot.go:51-61 | a restart later than the expiry executes again a repeat whose first execution is in the snapshot |
| Durability.RestartRedeliversExactly | raft/raft.go:311-317 | a restart brings every acknowledged command back to the state machine if and only if a snapshot exists or nothing was acknowledged |
| Durability.TwoFileGap | raft/snapshot.go:71-76 | once the raft-state file is rewritten, a restart still finds every acknowledged command if and only if the snapshot file was written too |
| Durability.FailedSnapshotLosesLater | raft/snapshot.go:56-76 | a failed raft-state write loses nothing by itself, but the next acknowledged command overwrites what the lost snapshot covered |
| Recovery.RoundTrip | raft/raft.go:262-327 | of a node whose two files were just written a restart recovers term, vote, log, snapshot and its place, tells the state machine of the snapshot, and counts the log as committed but not applied |
| Recovery.RoundTripUncompacted | raft/raft.go:262-327 | without a snapshot: term, vote and log, and the whole log counts as applied |
| Recovery.NothingSaved | raft/raft.go:262-266 | without a raft-state file the node starts from nothing |
| Recovery.OwnVoteSurvives | raft/election.go:29-42 | a candidate's vote for itself survives a restart, with its term |
| Recovery.VoteSurvivesExactly | raft/election.go:182-190 | of a vote just given the term survives a restart, but the vote if and only if it had been given before |
| Recovery.VotesAgainExactly | raft/election.go:182-190 | a restarted voter votes for a second candidate of the term if and only if its first vote was new; without the restart it does not |
| Recovery.RestartKeepsExactly | raft/raft.go:267-269 | at any moment of a one-node run a restart keeps term and vote if and only if the last campaign was saved; otherwise the term falls |
| Recovery.SavedVoteKept | raft/raft.go:267-269 | through any restarts a one-node cluster is never in a term before a saved one, and while in it keeps the vote saved with it |
| Dedup.LookupExact | kv/apply.go:155-170 | the cache answers exactly the commands that are not to be executed, with the result of the latest execution |
| Dedup.NotEvicted | kv/apply.go:189-221 | a clean-up evicts a fresh entry only after 100 newer numbers of its client |
| Dedup.ServerExact | kv/apply.go:43-91 | through any snapshots and restarts, on forward clocks, each choice to execute and each result are those derived from the commands and the readings alone, and the map is what the executed commands wrote |
| Dedup.RepeatAnsweredExactly | kv/apply.go:155-221 | a command is executed if and only if no execution with its ids lies within 10 seconds with fewer than 100 other numbers of its client executed since; for every command of every run |
| Dedup.CacheRefinesSeen | kv/apply.go:60-81 | with a forward clock and timely repeats the map is what the first occurrences wrote, and every result is theirs |
| DedupSpec.TimelyRuns | kv/apply.go:60-81 | with timely repeats exactly the first occurrences are executed |
| DedupSpec.PatternStore | kv/apply.go:60-81 | readings by which the same commands are executed make the same map |
| DedupSpec.PatternResult | kv/apply.go:60-81 | and give the same results |
| DedupSpec.StoreByWritten | kv/apply.go:60-81 | the map by given readings is what the commands executed wrote, in order |
| DedupSpec.StoreAfterWritten | kv/apply.go:60-81 | the ideal map is what the first occurrences wrote, in order |
| Dedup.EntryRoundTrip | kv/snapshot.go:97-113 | a cached result survives a snapshot if and only if it has no error or key-not-found |
| Dedup.RestoredClient | kv/snapshot.go:39-94 | a client's restored cache is the unexpired part of the saved one if and only if nothing unexpired is under (0, 0) or carries another error |
| KvCompaction.CleanedUnique | kv/apply.go:189-221 | with distinct stamps a clean-up has one outcome, and it depends only on what is unexpired |
| KvCompaction.RestoredExact | kv/snapshot.go:39-141 | a server restored anywhere and run on at its own readings has the map, the results and the choices of the readings each command was handled at |
| KvCompaction.CompactionInvisible | kv/snapshot.go:39-141 | for Get, Put and Append logs on forward clocks: snapshot anywhere, restore, apply the rest at other readings; same map and results if by those readings the same commands are executed |
| KvCompaction.RestoredAgreesExactly | kv/snapshot.go:39-141 | the restored and the uninterrupted server choose alike on every command of the tail if and only if the readings do |
| KvCompaction.CompactionInvisibleSameClock | kv/snapshot.go:39-141 | at the same readings a snapshot anywhere is invisible |
| StoreSpec.FoldIsWritten | kv/apply.go:95-112 | for every sequence of commands from any map, a key is there if and only if it was before or a Put or Append names it; its value is that of the last Put, or what was there, followed by the values of the later Appends in order |
| StoreSpec.WrittenOnce | kv/apply.go:95-112 | no other map is what the commands wrote |
| StoreSpec.GetReadsWrites | kv/apply.go:103-108 | a Get returns that value, key-not-found if and only if nothing named the key, and changes nothing |
| KvRuns.NoIdsFold | kv/apply.go:65-112 | without client ids, whatever the cache and the clock, the map is what the commands wrote and each is answered from what those before it wrote |
| KvRuns.ReachedFold | kv/snapshot.go:39-141 | and so is the map through any snapshots and restarts |
| KvExamples.SoonRun | kv/apply.go:155-170 | a repeat ten seconds later is answered from the cache |
| KvExamples.LateRun | kv/apply.go:155-170 | the same repeat a nanosecond after that is executed again |
| KvExamples.RestoredLateRun | kv/snapshot.go:51-61 | also when the first execution was in a snapshot taken in time |
| KvCompaction.CompactionInvisibleWithoutIds | kv/snapshot.go:39-141 | without client ids a snapshot anywhere is invisible at any clock readings |
| Waiters.AtMostOneValue | kv/server.go:134-175 | in every run pendingOps and recent stay within maxPending, and no result channel ever receives two values |
| Waiters.Rendezvous | kv/server.go:134-175 | one handler registering for an index that is applied once obtains that result exactly once, in either order, with any other registrations, results, timeouts and snapshot messages in between, if its result is not evicted or forgotten before it is picked up and nobody shuts down |
| Waiters.RegistersExactly | kv/server.go:134-160 | a registration is refused if and only if the server is shutting down or the table full, and answered at once if and only if its result is stashed |
| Waiters.HandlerOutcome | kv/server.go:134-175 | in every run a handler that waits is sent exactly what the first action ending its wait gives it, for good: the result of its index, the shutdown error, or nothing on a timeout or when another handler takes its index |
| Waiters.StashIsLast | kv/apply.go:121-147 | in every run a handler answered at once is given the last result there was for its index |
| Waiters.HitLeavesEntry | kv/server.go:145-158 | after a handler is answered from recent its pending entry is removed by exactly another result for the index, a timeout or shutdown |
| Waiters.NoOrphansExactly | kv/server.go:145-158 | in a whole run no pending entry outlives its handler if and only if no registration finds its result stashed |
| Waiters.TableFills | kv/server.go:138-141 | so there is a run that answers maxPending handlers, has nobody waiting, and refuses every further one |
| SnapshotFile.DecodeEncode | raft/persister.go:281-326 | for every payload and every 64-bit index and term, the file decodes to what was written |
| SnapshotFile.EncodeDecode | raft/persister.go:300-326 | every accepted file is the encoding of what it decodes to |
| SnapshotFile.AcceptedExactly | raft/persister.go:312-319 | files shorter than 24 bytes are the ones called too short, longer ones with other first letters corrupt, and a file is accepted if and only if it is some encoding |
| SnapshotFile.Layout | raft/persister.go:196-207 | the file byte by byte: the letters DSKVSNP1, then index and term as 64-bit two's complement, lowest byte first, then the payload |
| SnapshotFile.DigitAt | raft/persister.go:291-292 | byte i of a word is its digit of weight 256 to the i |
| SnapshotFile.WordOfBytes | raft/persister.go:291-292 | reading back a little-endian word gives the word |
| SnapshotFile.BytesOfWord | raft/persister.go:321-322 | writing back a word that was read gives the bytes |
| SnapshotFile.PutBytes | raft/persister.go:291-292 | any number of bytes of a value, lowest first, the rest of the buffer unchanged |
| SnapshotFile.PutUint64 | raft/persister.go:291-292 | eight bytes become the little-endian word, the rest of the buffer is unchanged |
| SnapshotFile.GetUint64 | raft/persister.go:321-322 | the value is the word those eight bytes spell |
| SnapshotFile.Save | raft/persister.go:281-296 | the buffer is the encoding and decodes to what was saved |
| SnapshotFile.Load | raft/persister.go:300-326 | the result is the decoding: payload, index and term, or too short, or bad magic |
| RaftNode.Raft.constructor | raft/raft.go:167-217 | a new node is the one recovered from its persister's contents |
| RaftNode.Raft.LoadPersistedState | raft/raft.go:262-327 | recovery from saved state, readable snapshot and log tail, as `RoundTrip` says, with the redelivered snapshot message, the queue having room |
| RaftNode.Raft.Persist | raft/raft.go:586-588 | term, vote and log are on disk when it succeeds, the disk is unchanged when not |
| RaftNode.Raft.StepDown | raft/election.go:241-250 | the node is a follower of the new term that has voted for nobody |
| RaftNode.Raft.BecomeCandidate | raft/election.go:18-49 | a non-leader votes for itself in the next term, and asks its peers only if that was saved |
| RaftNode.Raft.RequestVote | raft/election.go:153-199 | the whole new state and the answer, or none when the vote could not be saved, as `GrantsExactly` says |
| RaftNode.Raft.CountVote | raft/election.go:118-148 | a reply of the current candidacy is counted, and says whether the vote test is passed |
| RaftNode.Raft.BecomeLeader | raft/election.go:205-237 | a candidate leads its current term with every peer's progress reset |
| RaftNode.Raft.GetLastLogInfo | raft/raft.go:576-582 | index and term of the last entry, (0, 0) for an empty log |
| RaftNode.Raft.MergeEntries | raft/replication.go:83-111 | the log becomes the merge, and the flag says whether it changed |
| RaftNode.Raft.AppendEntries | raft/replication.go:37-136 | the whole new state and the answer, or none when the log could not be saved, as `AcceptsExactly` and `AppendTakes` say |
| RaftNode.Raft.AdvanceCommit | raft/replication.go:121-132 | the commit index follows the leader's up to the last new entry, with a signal when it moves |
| RaftNode.Raft.BuildRequest | raft/replication.go:173-225 | the request for a peer, or that a snapshot is due or leadership lost |
| RaftNode.Raft.Anchor | raft/replication.go:190-200 | the entry before nextIndex, or the beginning when the log does not hold it |
| RaftNode.Raft.HandleAppendReply | raft/replication.go:241-277 | step down, record the match and move the commit index, or go one back |
| RaftNode.Raft.CountMatches | raft/replication.go:300-307 | the number of nodes known to hold an index, this one included |
| RaftNode.Raft.UpdateCommitIndex | raft/replication.go:284-319 | the commit index of the leader rule, as `ScanExactly` says, with a signal when it moves |
| RaftNode.Raft.ReplicateCommand | raft/replication.go:343-369 | a leader's entry is appended and saved, or rolled back |
| RaftNode.Raft.TakeToken | raft/raft.go:500-510 | the loop leaves the channel empty when it starts delivering |
| RaftNode.Raft.ApplyPendingEntries | raft/raft.go:515-548 | every committed entry in range is delivered in order |
| RaftNode.Raft.ApplyNext | raft/raft.go:517-540 | one turn: the next entry delivered, or nothing left in range |
| RaftNode.Raft.TakeSnapshot | raft/snapshot.go:39-83 | refused, already covered, or the log cut after the index and the two files written, each with its own outcome |
| RaftNode.Raft.BuildSnapshotRequest | raft/snapshot.go:96-129 | the snapshot with its index and term, or nothing when there is none |
| RaftNode.Raft.HandleSnapshotReply | raft/snapshot.go:137-157 | step down, or record the match and move the commit index |
| RaftNode.Raft.InstallSnapshot | raft/replication.go:434-518 | the whole new state and answer in each of the handler's cases, each file write with its own outcome |
| RaftNode.Raft.TailAfter | raft/replication.go:478-484 | the entries after an index |
| Persister.MemoryPersister.Save | raft/persister.go:92-110 | the contents hold the saved state, or are unchanged on error |
| Persister.MemoryPersister.Load | raft/persister.go:115-129 | what was last saved |
| Persister.MemoryPersister.SaveSnapshot | raft/persister.go:134-147 | the contents hold the snapshot, or are unchanged on error |
| Persister.MemoryPersister.LoadSnapshot | raft/persister.go:151-160 | the snapshot last saved, or none |
| KvServer.Server.constructor | kv/server.go:24-46 | an empty server, with 1000 pending operations unless a positive cap is given |
| KvServer.Server.ApplyCommand | kv/apply.go:95-112 | the command's effect on the map and its result, as `FoldIsWritten` says |
| KvServer.Server.GetDuplicate | kv/apply.go:155-170 | the unexpired cached result, and an expired one deleted |
| KvServer.Server.SaveDuplicate | kv/apply.go:174-184 | the entry is cached, nothing else changes |
| KvServer.Server.CleanupDuplicateCache | kv/apply.go:189-221 | for this client only, expired entries go, then the oldest until 100 are left |
| KvServer.Server.RemoveExpired | kv/apply.go:195-200 | exactly the unexpired entries remain |
| KvServer.Server.EvictOldest | kv/apply.go:202-220 | the newest entries are kept, as many as the cap allows |
| KvServer.Server.FindOldest | kv/apply.go:208-217 | an entry none is strictly older than |
| KvServer.Server.ProcessCommand | kv/apply.go:43-91 | a repeat is answered from the cache, another command executed and cached, an unreadable one only reported; the waiter is notified in each case |
| KvServer.Server.NotifyWaiter | kv/apply.go:121-147 | the waiter is sent the result and removed, or the result is stashed and the stash cut to the cap |
| KvServer.Server.RegisterWaiter | kv/server.go:134-158 | refused when dead or full, else registered, and answered at once from the stash |
| KvServer.Server.CancelWaiter | kv/server.go:165-170 | a handler that times out removes the entry of its index |
| KvServer.Server.KillServer | kv/server.go:54-71 | every waiting handler with an empty channel is sent the shutdown error, once |
| KvServer.Server.SerializeSnapshot | kv/snapshot.go:39-70 | the map, and per client the unexpired entries except the (0, 0) one |
| KvServer.Server.DeserializeSnapshot | kv/snapshot.go:73-94 | the map and the caches the image holds |
| KvServer.Server.HandleSnapshotMsg | kv/snapshot.go:118-141 | state, caches and both indexes replaced and the stash forgotten; an unreadable snapshot changes nothing |
| KvServer.Server.SnapshotDue | kv/snapshot.go:148-161 | a snapshot at lastApplied of the current state exactly when the threshold is positive and reached |
| KvServer.Server.SnapshotAnswered | kv/snapshot.go:168-176 | the last snapshot index moves only when the snapshot was accepted |

## Left out

- Restarts and compaction in multi-node runs, and catch-up of a compacted log: the code does not deliver their safety (see "What is assumed"; `RequestReachesEnd`, `CatchUpStalls` and `AppendCommutes` show where compaction departs).
- An acknowledgement belonging to the submitter across a leader change: the commit wait compares indexes only (raft/replication.go:400-409).
- Picking an entry under the lock and sending it after unlocking (raft/raft.go:522-540): modelled as one step, so an installed snapshot cannot overtake an entry.
- A full apply queue while a snapshot message is queued (raft/replication.go:509-510, raft/raft.go:300-304).
- submitOperation's lookup before it calls raft (kv/server.go:115-123): it reads the same cache and may delete an expired entry.
- CompactionSafety.ServerFollowsLog: excludes installs whose files could not be written; `InstallTellsExactly` shows that the state machine then misses the snapshot.
- KvCompaction.CompactionInvisible: excludes unknown operation types, whose error text a snapshot drops (`EntryRoundTrip`).
- RaftNode.Raft.ApplyPendingEntries: picks and sends an entry in one step, and is not cancelled in between.
- RaftNode.Raft.LoadPersistedState: does not model a full apply queue.
- Backtracking.CatchUp: only for two uncompacted logs in a stable term (as `RunStable` finds them in every run), with no lost messages.
- Availability.NeverStuck: says what can happen next, not that it will: no fairness, timing or wall-clock liveness is claimed.
- Timers, heartbeats, tickers, RPC timeouts, shutdown and goroutine lifetimes: a timeout is a step that may happen at any time.
- gRPC, dialling, JSON and base64, files and fsync, and the narrowing of integers in RPC messages.
- kv/clerk.go, config/, server/, health/ and cmd/: retry, validation, wiring and logging.
