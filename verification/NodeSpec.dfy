// What each critical section of a node does, as a function from the node's
// state to its new state and its answer (raft/election.go, raft/replication.go,
// raft/snapshot.go, raft/raft.go). RaftNode.dfy proves that the imperative
// methods compute these functions; Cluster.dfy runs them.
//
// `ok` is the outcome of the persister's Save in that section.
module NodeSpec {
  import opened KvTypes
  import opened RaftTypes

  // ---- Shared pieces ----

  function Persist(n: Node): Node {
    n.(disk := n.disk.(saved := Some(SavedState(n.term, n.votedFor, n.log))))
  }

  function Signal(n: Node): Node {
    n.(wake := true)
  }

  function StepDown(n: Node, newTerm: int): Node {
    n.(term := newTerm, votedFor := NO_ONE, role := Follower, leaderId := NO_ONE, votes := 0)
  }

  // getLastLogInfoLocked: (0, 0) for an empty log, compacted or not.
  function LastLogInfo(log: seq<Entry>): (int, int) {
    if log == [] then (0, 0) else (log[|log| - 1].index, log[|log| - 1].term)
  }

  function AdoptTerm(n: Node, newTerm: int): Node {
    if newTerm > n.term then n.(term := newTerm, votedFor := NO_ONE, role := Follower) else n
  }

  // ---- Elections ----

  // The flag says whether the election goes on to ask the peers.
  function BecomeCandidate(n: Node, ok: bool): (Node, bool) {
    if n.role == Leader then (n, false)
    else
      var c := n.(role := Candidate, term := n.term + 1, votedFor := n.id, leaderId := NO_ONE, votes := 1);
      if ok then (Persist(c), true) else (c, false)
  }

  predicate UpToDate(req: VoteRequest, log: seq<Entry>) {
    var (lastIdx, lastTerm) := LastLogInfo(log);
    req.lastLogTerm > lastTerm || (req.lastLogTerm == lastTerm && req.lastLogIndex >= lastIdx)
  }

  // The vote is persisted before votedFor is set, as in the source.
  function HandleRequestVote(n: Node, req: VoteRequest, ok: bool): (Node, Option<VoteReply>) {
    if req.term < n.term then (n, Some(VoteReply(n.term, false)))
    else
      var m := AdoptTerm(n, req.term);
      if (m.votedFor == NO_ONE || m.votedFor == req.candidate) && UpToDate(req, m.log) then
        if ok then (Persist(m).(votedFor := req.candidate), Some(VoteReply(m.term, true)))
        else (m, None)
      else (m, Some(VoteReply(m.term, false)))
  }

  predicate VoteThreshold(votes: int, peerCount: nat) {
    votes > peerCount / 2
  }

  // The flag says whether becomeLeader is called next.
  function CountVote(n: Node, term: int, reply: VoteReply): (Node, bool) {
    if n.term != term || n.role != Candidate then (n, false)
    else if reply.term > n.term then (StepDown(n, reply.term), false)
    else if !reply.granted then (n, false)
    else (n.(votes := n.votes + 1), VoteThreshold(n.votes + 1, |n.peers|))
  }

  function BecomeLeader(n: Node): Node {
    if n.role != Candidate then n
    else
      var (lastIdx, _) := LastLogInfo(n.log);
      n.(role := Leader, leaderId := n.id, peers := FreshPeers(n.peers, lastIdx))
  }

  function FreshPeers(peers: map<int, Peer>, lastIdx: int): map<int, Peer> {
    map p | p in peers :: Peer(lastIdx + 1, 0)
  }

  // ---- Replication, follower side ----

  // The number of leading entries that `log` already holds from position `at`.
  function FirstNew(log: seq<Entry>, at: nat, entries: seq<Entry>): (i: nat)
    requires at <= |log|
    ensures i <= |entries| && at + i <= |log|
    ensures forall j :: 0 <= j < i ==> log[at + j].term == entries[j].term
    ensures i < |entries| && at + i < |log| ==> log[at + i].term != entries[i].term
    decreases |entries|
  {
    if entries == [] || at == |log| || log[at].term != entries[0].term then 0
    else
      var rest := FirstNew(log, at + 1, entries[1..]);
      assert forall j :: 1 <= j <= rest ==> entries[j] == entries[1..][j - 1] && log[at + j] == log[at + 1 + (j - 1)];
      1 + rest
  }

  // The log after appending `entries` from position `at`: untouched when it
  // already holds them all, cut at the first difference otherwise.
  function Merge(log: seq<Entry>, at: nat, entries: seq<Entry>): seq<Entry>
    requires at <= |log|
  {
    var i := FirstNew(log, at, entries);
    if i == |entries| then log else log[..at + i] + entries[i..]
  }

  predicate PrevMatches(n: Node, req: AppendRequest) {
    req.prevLogIndex > 0 ==>
      var a := req.prevLogIndex - n.logBase - 1;
      0 <= a < |n.log| && n.log[a].term == req.prevLogTerm
  }

  // Outside this the source indexes its log with a negative number and panics.
  predicate InContract(n: Node, req: AppendRequest) {
    req.term < n.term || req.prevLogIndex > 0 || req.entries == [] || req.prevLogIndex >= n.logBase
  }

  function FollowerCommit(n: Node, req: AppendRequest): Node {
    var lastNew := req.prevLogIndex + |req.entries|;
    var target := if req.leaderCommit > lastNew then lastNew else req.leaderCommit;
    if req.leaderCommit > n.commitIndex && target > n.commitIndex
    then Signal(n.(commitIndex := target)) else n
  }

  // The part of AppendEntries after the consistency check.
  function AcceptEntries(n: Node, req: AppendRequest, ok: bool): (Node, Option<AppendReply>)
    requires PrevMatches(n, req)
    requires req.prevLogIndex > 0 || req.entries == [] || req.prevLogIndex >= n.logBase
  {
    if req.entries == [] then
      var m := FollowerCommit(n, req);
      (m, Some(AppendReply(m.term, true)))
    else
      var at := req.prevLogIndex - n.logBase;
      var modified := FirstNew(n.log, at, req.entries) < |req.entries|;
      var merged := n.(log := Merge(n.log, at, req.entries));
      if modified && !ok then (merged, None)
      else
        var m := FollowerCommit(if modified then Persist(merged) else merged, req);
        (m, Some(AppendReply(m.term, true)))
  }

  function HearLeader(n: Node, req: AppendRequest): Node {
    var m := AdoptTerm(n, req.term);
    if m.role != Leader then m.(leaderId := req.leader) else m
  }

  function HandleAppendEntries(n: Node, req: AppendRequest, ok: bool): (Node, Option<AppendReply>)
    requires InContract(n, req)
  {
    if req.term < n.term then (n, Some(AppendReply(n.term, false)))
    else
      var m := HearLeader(n, req);
      if !PrevMatches(m, req) then (m, Some(AppendReply(m.term, false)))
      else AcceptEntries(m, req, ok)
  }

  // ---- Replication, leader side ----

  // Entries with absolute index nextIdx .. len(log): the source stops at the
  // length of the slice, not at the last absolute index.
  function CollectEntries(log: seq<Entry>, logBase: nat, nextIdx: int): seq<Entry> {
    var lo, hi := nextIdx - logBase - 1, |log| - logBase;
    if 0 <= lo <= hi then log[lo..hi] else []
  }

  datatype Outgoing = NotLeader | ShipSnapshot | Send(req: AppendRequest)

  function BuildAppend(n: Node, peer: int, term: int, commitIdx: int): Outgoing
    requires peer in n.peers
  {
    if n.role != Leader || n.term != term then NotLeader
    else
      var nextIdx := if n.peers[peer].nextIndex < 1 then 1 else n.peers[peer].nextIndex;
      var prev := nextIdx - 1;
      if prev < n.logBase then ShipSnapshot
      else
        var a := prev - n.logBase - 1;
        if prev > 0 && 0 <= a < |n.log| then
          Send(AppendRequest(term, n.id, prev, n.log[a].term, CollectEntries(n.log, n.logBase, nextIdx), commitIdx))
        else
          Send(AppendRequest(term, n.id, 0, 0, CollectEntries(n.log, n.logBase, 1), commitIdx))
  }

  function MatchCount(peers: map<int, Peer>, k: int): nat {
    1 + |set p | p in peers && peers[p].matchIndex >= k|
  }

  predicate CommitThreshold(count: int, peerCount: nat) {
    count > (peerCount + 1) / 2
  }

  // updateCommitIndex's scan, downward from k.
  function ScanCommit(n: Node, k: int): nat
    decreases k - n.commitIndex
  {
    var a := k - n.logBase - 1;
    if k <= n.commitIndex then n.commitIndex
    else if a < 0 || a >= |n.log| then ScanCommit(n, k - 1)
    else if CommitThreshold(MatchCount(n.peers, k), |n.peers|) then
      if n.log[a].term == n.term then k else n.commitIndex
    else ScanCommit(n, k - 1)
  }

  function UpdateCommit(n: Node): Node {
    if n.role != Leader then n
    else
      var k := ScanCommit(n, LastIndex(n));
      if k > n.commitIndex then Signal(n.(commitIndex := k)) else n
  }

  function RecordMatch(n: Node, peer: int, newMatch: int): Node
    requires peer in n.peers
  {
    var known := n.peers[peer].matchIndex;
    var m := if newMatch > known then newMatch else known;
    n.(peers := n.peers[peer := Peer(m + 1, m)])
  }

  // req is the request this reply answers.
  function HandleAppendReply(n: Node, peer: int, req: AppendRequest, reply: AppendReply): Node
    requires peer in n.peers
  {
    if n.role != Leader || n.term != req.term then n
    else if reply.term > n.term then StepDown(n, reply.term)
    else if reply.success then
      UpdateCommit(RecordMatch(n, peer, req.prevLogIndex + |req.entries|))
    else
      var p := n.peers[peer];
      n.(peers := n.peers[peer := p.(nextIndex := if p.nextIndex > 1 then p.nextIndex - 1 else p.nextIndex)])
  }

  // The append half of ReplicateCommand; the index is None when nothing was appended.
  function ReplicateCommand(n: Node, cmd: Command, ok: bool): (Node, Option<int>) {
    if n.role != Leader || !ok then (n, None)
    else
      var idx := LastIndex(n) + 1;
      (UpdateCommit(Persist(n.(log := n.log + [Entry(idx, n.term, cmd)]))), Some(idx))
  }

  // ---- The apply loop ----

  // The loop takes the token and enters applyPendingEntries.
  function WakeUp(n: Node): Node {
    if n.wake && !n.applying then n.(wake := false, applying := true) else n
  }

  // One turn of applyPendingEntries, picking and sending in one go.
  function ApplyOne(n: Node): Node {
    if n.lastApplied >= n.commitIndex then n.(applying := false)
    else
      var a := n.lastApplied - n.logBase;
      if a < 0 || a >= |n.log| then n.(applying := false)
      else n.(lastApplied := n.lastApplied + 1,
              sent := n.sent + [CommandMsg(n.log[a].command, n.log[a].index)])
  }

  // applyPendingEntries to its end, undisturbed.
  function ApplyPending(n: Node): Node
    decreases n.commitIndex - n.lastApplied
  {
    if n.lastApplied < n.commitIndex && 0 <= n.lastApplied - n.logBase < |n.log|
    then ApplyPending(ApplyOne(n)) else ApplyOne(n)
  }

  // ---- Snapshots ----

  datatype SnapshotOutcome = Refused | AlreadyCovered | SaveFailed | Taken

  // The raft-state file is written first, then the snapshot file; okState and
  // okSnap are their outcomes.
  function SaveBoth(n: Node, okState: bool, okSnap: bool): Node {
    if !okState then n
    else if !okSnap then Persist(n)
    else Persist(n).(disk := Persist(n).disk.(snapshot := Some(n.snap)))
  }

  function TakeSnapshot(n: Node, index: int, data: Payload, okState: bool, okSnap: bool): (Node, SnapshotOutcome) {
    var a := index - n.logBase - 1;
    if data.size > MAX_SNAPSHOT_BYTES || index > n.commitIndex then (n, Refused)
    else if index <= n.logBase then (n, AlreadyCovered)
    else if a >= |n.log| || n.log[a].index != index then (n, Refused)
    else
      var m := n.(log := n.log[a + 1..], logBase := index, snap := Snapshot(data, index, n.log[a].term));
      (SaveBoth(m, okState, okSnap), if okState && okSnap then Taken else SaveFailed)
  }

  function EntriesAfter(log: seq<Entry>, index: int): seq<Entry> {
    if log == [] then []
    else
      var rest := EntriesAfter(log[..|log| - 1], index);
      var last := log[|log| - 1];
      if last.index > index then rest + [last] else rest
  }

  // The log covers the snapshot's last index with an entry of another term.
  predicate Contradicts(n: Node, req: SnapshotRequest) {
    var a := req.lastIndex - n.logBase - 1;
    0 <= a < |n.log| && n.log[a].index == req.lastIndex && n.log[a].term != req.lastTerm
  }

  // The message to the state machine follows only if both saves succeed.
  function InstallState(n: Node, req: SnapshotRequest, okState: bool, okSnap: bool): Node
    requires req.lastIndex > n.commitIndex
  {
    var m := SaveBoth(n.(log := EntriesAfter(n.log, req.lastIndex), logBase := req.lastIndex,
                         snap := Snapshot(req.data, req.lastIndex, req.lastTerm),
                         commitIndex := req.lastIndex, lastApplied := req.lastIndex), okState, okSnap);
    if okState && okSnap then m.(sent := m.sent + [SnapshotMsg(req.data, req.lastIndex, req.lastTerm)]) else m
  }

  // The answer is the node's term; None for an error.
  function HandleInstallSnapshot(n: Node, req: SnapshotRequest, okState: bool, okSnap: bool): (Node, Option<int>) {
    if req.data.size > MAX_SNAPSHOT_BYTES then (n, None)
    else if req.term < n.term then (n, Some(n.term))
    else
      var m := (if req.term > n.term then StepDown(n, req.term) else n).(leaderId := req.leader);
      if req.lastIndex <= m.commitIndex || Contradicts(m, req) then (m, Some(m.term))
      else (InstallState(m, req, okState, okSnap), if okState && okSnap then Some(m.term) else None)
  }

  // sendInstallSnapshot: the request, if there is a snapshot, and its answer.
  function BuildSnapshot(n: Node, term: int): Option<SnapshotRequest> {
    if n.snap.data.size == 0 then None
    else Some(SnapshotRequest(term, n.id, n.snap.index, n.snap.term, n.snap.data))
  }

  function HandleSnapshotReply(n: Node, peer: int, req: SnapshotRequest, replyTerm: int): Node
    requires peer in n.peers
  {
    if n.role != Leader || n.term != req.term then n
    else if replyTerm > n.term then StepDown(n, replyTerm)
    else UpdateCommit(RecordMatch(n, peer, req.lastIndex))
  }

  // ---- Starting ----

  // NewRaft before persisted state is loaded.
  function FreshNode(id: int, peerIds: set<int>, disk: Disk): Node {
    Node(id, map p | p in peerIds :: Peer(1, 0), 0, NO_ONE, [], 0, NO_SNAPSHOT,
         Follower, 0, 0, NO_ONE, 0, false, false, [], disk)
  }

  // loadPersistedState; a node with nothing saved stays as it is.
  function Restore(n: Node): Node {
    if n.disk.saved == None then n
    else
      var v := n.disk.saved.value;
      RestoreTail(RestoreSnapshot(n.(term := v.term, votedFor := v.votedFor, log := v.log)))
  }

  function RestoreSnapshot(n: Node): Node {
    if n.disk.snapshot == None then n
    else
      var p := n.disk.snapshot.value;
      n.(logBase := p.index, snap := p,
         commitIndex := if n.commitIndex < p.index then p.index else n.commitIndex,
         lastApplied := p.index,
         sent := n.sent + [SnapshotMsg(p.data, p.index, p.term)])
  }

  // The recovered log counts as committed; without a snapshot, as applied too.
  function RestoreTail(n: Node): Node {
    if n.log == [] then n
    else
      var last := n.log[|n.log| - 1].index;
      var c := n.(commitIndex := if last > n.commitIndex then last else n.commitIndex);
      if n.disk.snapshot == None then c.(lastApplied := c.commitIndex) else c
  }

  function LoadPersisted(id: int, peerIds: set<int>, disk: Disk): Node {
    Restore(FreshNode(id, peerIds, disk))
  }
}
