// What taking and installing a snapshot do to a node, in terms of the whole log
// it stands for (raft/snapshot.go, raft/replication.go).
module SnapshotSpec {
  import opened KvTypes
  import opened RaftTypes
  import opened NodeSpec
  import opened ReplicationSpec
  import opened ElectionSpec
  import C = Compaction

  // The raft-state file is written first, and the snapshot file only after it.
  ghost predicate FilesAfter(before: Disk, m: Node, okState: bool, okSnap: bool) {
    && m.disk.saved == (if okState then Some(SavedState(m.term, m.votedFor, m.log)) else before.saved)
    && m.disk.snapshot == (if okState && okSnap then Some(m.snap) else before.snapshot)
  }

  // ---- Taking one ----

  // The node stands for the same log, and its snapshot for the log up to the
  // index, with the term of the entry there.
  ghost predicate Cut(n: Node, m: Node, full: seq<Entry>, index: int, data: Payload)
    requires 0 < index <= |full|
  {
    m == n.(log := full[index..], logBase := index, snap := Snapshot(data, index, full[index - 1].term), disk := m.disk)
  }

  // A snapshot is refused exactly when it is larger than 4 MiB or beyond what is
  // committed, has nothing to do exactly when one as recent is there, and
  // otherwise replaces the log up to its index.
  lemma SnapshotsExactly(n: Node, full: seq<Entry>, index: int, data: Payload, okState: bool, okSnap: bool)
    requires C.Compacted(n, full)
    ensures var (m, out) := TakeSnapshot(n, index, data, okState, okSnap);
            if data.size > 4_194_304 || index > n.commitIndex then m == n && out == Refused
            else if index <= n.logBase then m == n && out == AlreadyCovered
            else Cut(n, m, full, index, data) && FilesAfter(n.disk, m, okState, okSnap)
                 && out == if okState && okSnap then Taken else SaveFailed
  {
    if n.logBase < index <= n.commitIndex {
      assert n.log[index - n.logBase - 1] == full[index - 1] && n.log[index - n.logBase..] == full[index..];
    }
  }

  // ---- Installing one ----

  // A current request makes the node a follower of its term, if that is newer,
  // and of its sender.
  ghost predicate Follows(n: Node, m: Node, req: SnapshotRequest) {
    if req.term > n.term
    then m == n.(term := req.term, role := Follower, votedFor := NO_ONE, votes := 0, leaderId := req.leader)
    else m == n.(leaderId := req.leader)
  }

  // The snapshot is news, and the log does not contradict it.
  ghost predicate News(n: Node, full: seq<Entry>, req: SnapshotRequest) {
    req.lastIndex > n.commitIndex && (req.lastIndex <= |full| ==> full[req.lastIndex - 1].term == req.lastTerm)
  }

  // The snapshot takes the place of the log up to its index, all of which now
  // counts as applied; the state machine is told of it if it was saved.
  ghost predicate Replaced(n: Node, m: Node, full: seq<Entry>, req: SnapshotRequest, saved: bool)
    requires req.lastIndex >= 0
  {
    m == n.(log := if req.lastIndex <= |full| then full[req.lastIndex..] else [], logBase := req.lastIndex,
            snap := Snapshot(req.data, req.lastIndex, req.lastTerm),
            commitIndex := req.lastIndex, lastApplied := req.lastIndex,
            sent := if saved then n.sent + [SnapshotMsg(req.data, req.lastIndex, req.lastTerm)] else n.sent,
            disk := m.disk)
  }

  lemma TailOf(n: Node, full: seq<Entry>, index: int)
    requires C.Compacted(n, full) && index > n.commitIndex
    ensures EntriesAfter(n.log, index) == if index <= |full| then full[index..] else []
  {
    forall k | 0 <= k < |n.log|
      ensures n.log[k] == full[n.logBase + k]
    {
    }
    C.AfterIsTail(n.log, n.logBase, index);
    if index <= |full| { assert n.log[index - n.logBase..] == full[index..]; }
  }

  lemma NewsExactly(n: Node, full: seq<Entry>, req: SnapshotRequest)
    requires C.Compacted(n, full)
    ensures News(n, full, req) <==> !(req.lastIndex <= n.commitIndex || Contradicts(n, req))
  {
    var a := req.lastIndex - n.logBase - 1;
    if 0 <= a < |n.log| { assert n.log[a] == full[req.lastIndex - 1]; }
  }

  lemma InstallReplaces(n: Node, full: seq<Entry>, req: SnapshotRequest, okState: bool, okSnap: bool)
    requires C.Compacted(n, full) && req.lastIndex > n.commitIndex
    ensures var m := InstallState(n, req, okState, okSnap);
            Replaced(n, m, full, req, okState && okSnap) && FilesAfter(n.disk, m, okState, okSnap)
  {
    TailOf(n, full, req.lastIndex);
  }

  // Too large is an error; stale is answered with the newer term; otherwise the
  // sender is followed, and the snapshot installed exactly when it is news. There
  // is no answer when it could not be saved.
  lemma InstallsExactly(n: Node, full: seq<Entry>, req: SnapshotRequest, okState: bool, okSnap: bool, m: Node)
    requires C.Compacted(n, full) && (req.term >= n.term ==> Follows(n, m, req))
    ensures var (n', r) := HandleInstallSnapshot(n, req, okState, okSnap);
            if req.data.size > 4_194_304 then n' == n && r == None
            else if req.term < n.term then n' == n && r == Some(n.term)
            else if !News(n, full, req) then n' == m && r == Some(req.term)
            else Replaced(m, n', full, req, okState && okSnap) && FilesAfter(n.disk, n', okState, okSnap)
                 && r == if okState && okSnap then Some(req.term) else None
  {
    if req.data.size <= 4_194_304 && req.term >= n.term {
      NewsExactly(m, full, req);
      if News(n, full, req) { InstallReplaces(m, full, req, okState, okSnap); }
    }
  }

  // ---- Sending one ----

  // An answer of the leader's own term, whatever it stands for, counts as
  // holding everything through the snapshot.
  lemma SnapshotReplyExactly(n: Node, peer: int, req: SnapshotRequest, replyTerm: int)
    requires peer in n.peers && TermsRise(n.log, n.term)
    ensures var n', p := HandleSnapshotReply(n, peer, req, replyTerm), n.peers[peer];
            if n.role != Leader || n.term != req.term then n' == n
            else if replyTerm > n.term then Deposed(n, n', replyTerm)
            else
              var m := Max(p.matchIndex, req.lastIndex);
              Advanced(n.(peers := n.peers[peer := Peer(m + 1, m)]), n')
  {
    var m := Max(n.peers[peer].matchIndex, req.lastIndex);
    UpdateCommitIsLeaderRule(n.(peers := n.peers[peer := Peer(m + 1, m)]));
  }

  // Having committed through the snapshot is what the follower is left with,
  // unless its log contradicts the snapshot beyond what it has committed.
  lemma FollowerCovers(f: Node, full: seq<Entry>, req: SnapshotRequest)
    requires C.Compacted(f, full) && f.term <= req.term && req.data.size <= 4_194_304
    ensures var (f', r) := HandleInstallSnapshot(f, req, true, true);
            && r == Some(req.term)
            && (f'.commitIndex >= req.lastIndex <==>
                  !(f.commitIndex < req.lastIndex <= |full| && full[req.lastIndex - 1].term != req.lastTerm))
  {
    var m := if req.term > f.term
             then f.(term := req.term, role := Follower, votedFor := NO_ONE, votes := 0, leaderId := req.leader)
             else f.(leaderId := req.leader);
    InstallsExactly(f, full, req, true, true, m);
  }

  // A follower not ahead in term answers every snapshot it can save as if it
  // held it, and so the leader records it; it does hold it exactly unless its
  // log contradicts it.
  lemma RecordedExactly(f: Node, full: seq<Entry>, l: Node, peer: int, req: SnapshotRequest)
    requires C.Compacted(f, full) && f.term <= l.term && BuildSnapshot(l, l.term) == Some(req)
    requires l.role == Leader && peer in l.peers && TermsRise(l.log, l.term) && req.data.size <= 4_194_304
    ensures HandleInstallSnapshot(f, req, true, true).1 == Some(l.term)
    ensures HandleSnapshotReply(l, peer, req, l.term).peers[peer].matchIndex >= l.snap.index
    ensures HandleInstallSnapshot(f, req, true, true).0.commitIndex >= l.snap.index <==>
              !(f.commitIndex < l.snap.index <= |full| && full[l.snap.index - 1].term != l.snap.term)
  {
    FollowerCovers(f, full, req);
    SnapshotReplyExactly(l, peer, req, l.term);
  }
}
