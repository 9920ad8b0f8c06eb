// The node as the source writes it: fields updated step by step under one lock
// (raft/raft.go, raft/election.go, raft/replication.go, raft/snapshot.go).
// Every method is proved to compute the NodeSpec function of the same name.
module RaftNode {
  import opened KvTypes
  import opened RaftTypes
  import opened NodeSpec
  import opened Persister

  lemma NonEmpty(s: set<int>)
    requires s != {}
    ensures exists x :: x in s
  {
    if forall x :: x !in s {
      assert false;
    }
  }

  // A request is built from its anchor.
  lemma BuiltFrom(n: Node, peer: int, commitIdx: int, nextIdx: int, prev: int, prevTerm: int, from: int)
    requires n.role == Leader && peer in n.peers && nextIdx - 1 >= n.logBase
    requires nextIdx == if n.peers[peer].nextIndex < 1 then 1 else n.peers[peer].nextIndex
    requires var a := nextIdx - 1 - n.logBase - 1;
             (prev, prevTerm, from) == if nextIdx - 1 > 0 && 0 <= a < |n.log| then (nextIdx - 1, n.log[a].term, nextIdx) else (0, 0, 1)
    ensures BuildAppend(n, peer, n.term, commitIdx) ==
            Send(AppendRequest(n.term, n.id, prev, prevTerm, CollectEntries(n.log, n.logBase, from), commitIdx))
  {
  }

  // The peers while becomeLeader still has to reset those in `todo`.
  ghost function PartlyReset(peers: map<int, Peer>, todo: set<int>, lastIdx: int): map<int, Peer> {
    map p | p in peers :: if p in todo then peers[p] else Peer(lastIdx + 1, 0)
  }

  class Raft {
    const id: int
    const persister: MemoryPersister
    var peers: map<int, Peer>
    var currentTerm: int
    var votedFor: int
    var log: seq<Entry>
    var logBase: nat
    var snap: Snapshot
    var state: Role
    var commitIndex: nat
    var lastApplied: nat
    var leaderId: int
    var votesReceived: int
    var commitCh: bool
    var applying: bool
    var applyCh: seq<ApplyMsg>

    ghost function View(): Node
      reads this, persister
    {
      Node(id, peers, currentTerm, votedFor, log, logBase, snap, state, commitIndex, lastApplied, leaderId,
           votesReceived, commitCh, applying, applyCh, persister.Contents())
    }

    // NewRaft with loadPersistedState.
    constructor (id: int, peerIds: set<int>, persister: MemoryPersister)
      ensures this.persister == persister
      ensures View() == LoadPersisted(id, peerIds, persister.Contents())
    {
      this.id, this.persister := id, persister;
      peers := map p | p in peerIds :: Peer(1, 0);
      currentTerm, votedFor, log, logBase, snap := 0, NO_ONE, [], 0, NO_SNAPSHOT;
      state, commitIndex, lastApplied, leaderId, votesReceived := Follower, 0, 0, NO_ONE, 0;
      commitCh, applying, applyCh := false, false, [];
      new;
      LoadPersistedState();
    }

    method LoadPersistedState()
      modifies this`currentTerm, this`votedFor, this`log, this`logBase, this`snap, this`commitIndex, this`lastApplied, this`applyCh
      ensures View() == Restore(old(View()))
    {
      var loaded := persister.Load();
      if loaded == None { return; }
      currentTerm, votedFor, log := loaded.value.term, loaded.value.votedFor, loaded.value.log;
      LoadSnapshotFile();
      CountTailCommitted();
    }

    method LoadSnapshotFile()
      modifies this`logBase, this`snap, this`commitIndex, this`lastApplied, this`applyCh
      ensures View() == RestoreSnapshot(old(View()))
    {
      var s := persister.LoadSnapshot();
      if s != None {
        logBase, snap := s.value.index, s.value;
        if commitIndex < s.value.index { commitIndex := s.value.index; }
        lastApplied := s.value.index;
        applyCh := applyCh + [SnapshotMsg(s.value.data, s.value.index, s.value.term)];
      }
    }

    method CountTailCommitted()
      modifies this`commitIndex, this`lastApplied
      ensures View() == RestoreTail(old(View()))
    {
      if |log| > 0 {
        var last := log[|log| - 1].index;
        if last > commitIndex { commitIndex := last; }
        var s := persister.LoadSnapshot();
        if s == None { lastApplied := commitIndex; }
      }
    }

    method Persist() returns (ok: bool)
      modifies persister`saved
      ensures ok == !persister.saveErr
      ensures View() == if ok then NodeSpec.Persist(old(View())) else old(View())
    {
      ok := persister.Save(currentTerm, votedFor, log);
    }

    // ---- raft/election.go ----

    method StepDown(newTerm: int)
      modifies this`currentTerm, this`votedFor, this`state, this`leaderId, this`votesReceived
      ensures View() == NodeSpec.StepDown(old(View()), newTerm)
    {
      currentTerm, votedFor, state, leaderId, votesReceived := newTerm, NO_ONE, Follower, NO_ONE, 0;
    }

    method BecomeCandidate() returns (started: bool)
      modifies this, persister`saved
      ensures (View(), started) == NodeSpec.BecomeCandidate(old(View()), !persister.saveErr)
    {
      if state == Leader { return false; }
      state := Candidate;
      currentTerm := currentTerm + 1;
      votedFor := id;
      leaderId := NO_ONE;
      votesReceived := 1;
      started := Persist();
    }

    method GetLastLogInfo() returns (lastIdx: int, lastTerm: int)
      ensures (lastIdx, lastTerm) == LastLogInfo(log)
    {
      if |log| == 0 { return 0, 0; }
      var last := log[|log| - 1];
      return last.index, last.term;
    }

    method RequestVote(req: VoteRequest) returns (reply: Option<VoteReply>)
      modifies this, persister`saved
      ensures (View(), reply) == HandleRequestVote(old(View()), req, !persister.saveErr)
    {
      if req.term < currentTerm { return Some(VoteReply(currentTerm, false)); }
      if req.term > currentTerm {
        currentTerm, votedFor, state := req.term, NO_ONE, Follower;
      }
      var granted := false;
      if votedFor == NO_ONE || votedFor == req.candidate {
        var lastIdx, lastTerm := GetLastLogInfo();
        if req.lastLogTerm > lastTerm || (req.lastLogTerm == lastTerm && req.lastLogIndex >= lastIdx) {
          var ok := Persist();
          if !ok { return None; }
          votedFor := req.candidate;
          granted := true;
        }
      }
      return Some(VoteReply(currentTerm, granted));
    }

    // The critical section of sendRequestVote after the answer.
    method CountVote(term: int, reply: VoteReply) returns (promote: bool)
      modifies this
      ensures (View(), promote) == NodeSpec.CountVote(old(View()), term, reply)
    {
      promote := false;
      if currentTerm != term || state != Candidate { return; }
      if reply.term > currentTerm {
        StepDown(reply.term);
        return;
      }
      if reply.granted {
        votesReceived := votesReceived + 1;
        promote := votesReceived > |peers| / 2;
      }
    }

    method BecomeLeader()
      modifies this
      ensures View() == NodeSpec.BecomeLeader(old(View()))
    {
      if state != Candidate { return; }
      state, leaderId := Leader, id;
      var lastIdx := 0;
      if |log| > 0 { lastIdx := log[|log| - 1].index; }
      ResetPeers(lastIdx);
    }

    method ResetPeers(lastIdx: int)
      modifies this`peers
      ensures peers == FreshPeers(old(peers), lastIdx)
    {
      ghost var all := peers;
      var todo := peers.Keys;
      while todo != {}
        invariant todo <= all.Keys
        invariant peers == PartlyReset(all, todo, lastIdx)
        decreases |todo|
      {
        NonEmpty(todo);
        var p :| p in todo;
        peers := peers[p := Peer(lastIdx + 1, 0)];
        todo := todo - {p};
      }
    }

    // ---- raft/replication.go ----

    method SignalCommit()
      modifies this`commitCh
      ensures View() == Signal(old(View()))
    {
      commitCh := true;
    }

    // Rule 4 of AppendEntries: the loop that truncates and appends in place.
    method MergeEntries(prev: int, entries: seq<Entry>) returns (modified: bool)
      requires 0 <= prev - logBase <= |log|
      modifies this`log
      ensures log == Merge(old(log), prev - logBase, entries)
      ensures modified == (FirstNew(old(log), prev - logBase, entries) < |entries|)
    {
      modified := false;
      var at := prev - logBase;
      ghost var n := FirstNew(log, at, entries);
      var i := 0;
      while i < |entries|
        invariant 0 <= i <= |entries|
        invariant i <= n ==> log == old(log) && !modified
        invariant i > n ==> log == old(log)[..at + n] + entries[n..i] && modified
      {
        var arrayIdx := prev + i + 1 - logBase - 1;
        ghost var front := old(log)[..at + n];
        assert arrayIdx == at + i && i < n ==> arrayIdx < |log| && log[arrayIdx].term == entries[i].term;
        assert i >= n ==> front + entries[n..i + 1] == (front + entries[n..i]) + [entries[i]];
        assert i == n ==> entries[n..i] == [] && front + [] == front;
        if arrayIdx < |log| {
          if log[arrayIdx].term != entries[i].term {
            log := log[..arrayIdx];
            log := log + [Entry(entries[i].index, entries[i].term, entries[i].command)];
            modified := true;
          }
        } else {
          log := log + [Entry(entries[i].index, entries[i].term, entries[i].command)];
          modified := true;
        }
        i := i + 1;
      }
    }

    method AppendEntries(req: AppendRequest) returns (reply: Option<AppendReply>)
      requires InContract(View(), req)
      modifies this, persister`saved
      ensures (View(), reply) == HandleAppendEntries(old(View()), req, !persister.saveErr)
    {
      if req.term < currentTerm { return Some(AppendReply(currentTerm, false)); }
      if req.term > currentTerm {
        currentTerm, votedFor, state := req.term, NO_ONE, Follower;
      }
      if state != Leader { leaderId := req.leader; }
      assert View() == HearLeader(old(View()), req);
      if req.prevLogIndex > 0 {
        var arrayIdx := req.prevLogIndex - logBase - 1;
        if arrayIdx < 0 || arrayIdx >= |log| || log[arrayIdx].term != req.prevLogTerm {
          return Some(AppendReply(currentTerm, false));
        }
      }
      reply := AcceptEntries(req);
    }

    // Rules 4 to 6 of AppendEntries.
    method AcceptEntries(req: AppendRequest) returns (reply: Option<AppendReply>)
      requires PrevMatches(View(), req)
      requires req.prevLogIndex > 0 || req.entries == [] || req.prevLogIndex >= logBase
      modifies this`log, this`commitIndex, this`commitCh, persister`saved
      ensures (View(), reply) == NodeSpec.AcceptEntries(old(View()), req, !persister.saveErr)
    {
      var modified := false;
      if req.entries != [] {
        modified := MergeEntries(req.prevLogIndex, req.entries);
      }
      if modified {
        var ok := Persist();
        if !ok { return None; }
      }
      AdvanceCommit(req);
      return Some(AppendReply(currentTerm, true));
    }

    method AdvanceCommit(req: AppendRequest)
      modifies this`commitIndex, this`commitCh
      ensures View() == FollowerCommit(old(View()), req)
    {
      var lastNewIndex := req.prevLogIndex + |req.entries|;
      if req.leaderCommit > commitIndex {
        var newCommit := req.leaderCommit;
        if newCommit > lastNewIndex { newCommit := lastNewIndex; }
        if newCommit > commitIndex {
          commitIndex := newCommit;
          SignalCommit();
        }
      }
    }

    // The request-building section of sendAppendEntries.
    method BuildRequest(peer: int, term: int, commitIdx: int) returns (out: Outgoing)
      requires peer in peers
      ensures out == BuildAppend(View(), peer, term, commitIdx)
    {
      if state != Leader || currentTerm != term { return NotLeader; }
      var nextIdx := peers[peer].nextIndex;
      if nextIdx < 1 { nextIdx := 1; }
      if nextIdx - 1 < logBase { return ShipSnapshot; }
      var prevLogIdx, prevLogTerm, from := Anchor(nextIdx);
      var entries := TailFrom(from);
      BuiltFrom(View(), peer, commitIdx, nextIdx, prevLogIdx, prevLogTerm, from);
      return Send(AppendRequest(term, id, prevLogIdx, prevLogTerm, entries, commitIdx));
    }

    // The entry before, or the beginning when it is not there.
    method Anchor(nextIdx: int) returns (prev: int, prevTerm: int, from: int)
      requires nextIdx >= 1
      ensures var a := nextIdx - 1 - logBase - 1;
              (prev, prevTerm, from) == if nextIdx - 1 > 0 && 0 <= a < |log| then (nextIdx - 1, log[a].term, nextIdx) else (0, 0, 1)
    {
      prev, prevTerm, from := nextIdx - 1, 0, nextIdx;
      if prev > 0 {
        var arrayIdx := prev - logBase - 1;
        if arrayIdx >= 0 && arrayIdx < |log| {
          prevTerm := log[arrayIdx].term;
        } else {
          prev, prevTerm, from := 0, 0, 1;
        }
      }
    }

    // The loop that copies entries; it runs to the length of the slice.
    method TailFrom(nextIdx: int) returns (entries: seq<Entry>)
      requires nextIdx >= 1
      ensures entries == CollectEntries(log, logBase, nextIdx)
    {
      entries := [];
      var i := nextIdx;
      while i <= |log|
        invariant nextIdx <= i
        invariant i == nextIdx ==> entries == []
        invariant i > nextIdx ==>
          logBase < nextIdx && i <= |log| + 1 && entries == log[nextIdx - logBase - 1..i - logBase - 1]
      {
        var arrayIdx := i - logBase - 1;
        if arrayIdx < 0 || arrayIdx >= |log| { break; }
        entries := entries + [log[arrayIdx]];
        i := i + 1;
      }
    }

    method HandleAppendReply(peer: int, req: AppendRequest, reply: AppendReply)
      requires peer in peers
      modifies this
      ensures View() == NodeSpec.HandleAppendReply(old(View()), peer, req, reply)
    {
      if state != Leader || currentTerm != req.term { return; }
      if reply.term > currentTerm {
        StepDown(reply.term);
        return;
      }
      var p := peers[peer];
      if reply.success {
        var newMatch := req.prevLogIndex + |req.entries|;
        if newMatch > p.matchIndex { p := p.(matchIndex := newMatch); }
        p := p.(nextIndex := p.matchIndex + 1);
        peers := peers[peer := p];
        assert View() == RecordMatch(old(View()), peer, newMatch);
        UpdateCommitIndex();
      } else {
        if p.nextIndex > 1 { p := p.(nextIndex := p.nextIndex - 1); }
        peers := peers[peer := p];
      }
    }

    // The inner loop of updateCommitIndex.
    method CountMatches(n: int) returns (count: nat)
      ensures count == MatchCount(peers, n)
    {
      count := 1;
      var todo := peers.Keys;
      ghost var seen: set<int> := {};
      while todo != {}
        invariant todo <= peers.Keys && seen == peers.Keys - todo
        invariant count == 1 + |set p | p in seen && peers[p].matchIndex >= n|
        decreases |todo|
      {
        NonEmpty(todo);
        var p :| p in todo;
        ghost var before := set q | q in seen && peers[q].matchIndex >= n;
        ghost var after := set q | q in seen + {p} && peers[q].matchIndex >= n;
        assert after == if peers[p].matchIndex >= n then before + {p} else before;
        if peers[p].matchIndex >= n { count := count + 1; }
        todo, seen := todo - {p}, seen + {p};
      }
      assert (set p | p in seen && peers[p].matchIndex >= n) == set p | p in peers && peers[p].matchIndex >= n;
    }

    method UpdateCommitIndex()
      modifies this`commitIndex, this`commitCh
      ensures View() == UpdateCommit(old(View()))
    {
      if state != Leader { return; }
      var lastIdx := |log| + logBase;
      ghost var v := View();
      var n := lastIdx;
      while n > commitIndex
        invariant View() == v
        invariant ScanCommit(v, lastIdx) == ScanCommit(v, n)
      {
        var arrayIdx := n - logBase - 1;
        if 0 <= arrayIdx < |log| {
          var count := CountMatches(n);
          if count > (|peers| + 1) / 2 {
            if log[arrayIdx].term == currentTerm {
              commitIndex := n;
              SignalCommit();
            }
            break;
          }
        }
        n := n - 1;
      }
    }

    // The append half of the public ReplicateCommand.
    method ReplicateCommand(cmd: Command) returns (index: Option<int>)
      modifies this, persister`saved
      ensures (View(), index) == NodeSpec.ReplicateCommand(old(View()), cmd, !persister.saveErr)
    {
      if state != Leader { return None; }
      var nextIdx := |log| + logBase + 1;
      log := log + [Entry(nextIdx, currentTerm, cmd)];
      var ok := Persist();
      if !ok {
        log := log[..|log| - 1];
        return None;
      }
      UpdateCommitIndex();
      return Some(nextIdx);
    }

    // ---- raft/raft.go, the apply loop ----

    // applyLoop takes the token.
    method TakeToken()
      modifies this`commitCh, this`applying
      ensures View() == WakeUp(old(View()))
    {
      if commitCh && !applying { commitCh, applying := false, true; }
    }

    method ApplyPendingEntries()
      modifies this`lastApplied, this`applyCh, this`applying
      ensures View() == ApplyPending(old(View()))
    {
      var more := true;
      while more
        invariant unchanged(`log) && unchanged(`logBase) && unchanged(`commitIndex)
        invariant (if more then ApplyPending(View()) else View()) == ApplyPending(old(View()))
        decreases commitIndex - lastApplied, more
      {
        more := ApplyNext();
      }
    }

    // One turn under the lock, with the send.
    method ApplyNext() returns (more: bool)
      modifies this`lastApplied, this`applyCh, this`applying
      ensures View() == ApplyOne(old(View()))
      ensures more == (old(lastApplied) < commitIndex && 0 <= old(lastApplied) - logBase < |log|)
    {
      if lastApplied >= commitIndex {
        applying := false;
        return false;
      }
      lastApplied := lastApplied + 1;
      var arrayIdx := lastApplied - logBase - 1;
      if arrayIdx < 0 || arrayIdx >= |log| {
        lastApplied := lastApplied - 1;
        applying := false;
        return false;
      }
      var entry := log[arrayIdx];
      applyCh := applyCh + [CommandMsg(entry.command, entry.index)];
      return true;
    }

    // ---- raft/snapshot.go and InstallSnapshot ----

    method SaveBothFiles() returns (ok: bool)
      modifies persister`saved, persister`snapshot
      ensures ok == (!persister.saveErr && !persister.snapErr)
      ensures View() == SaveBoth(old(View()), !persister.saveErr, !persister.snapErr)
    {
      ok := Persist();
      if ok { ok := persister.SaveSnapshot(snap.data, snap.index, snap.term); }
    }

    method TakeSnapshot(index: int, data: Payload) returns (outcome: SnapshotOutcome)
      modifies this, persister`saved, persister`snapshot
      ensures (View(), outcome) == NodeSpec.TakeSnapshot(old(View()), index, data, !persister.saveErr, !persister.snapErr)
    {
      if data.size > MAX_SNAPSHOT_BYTES { return Refused; }
      if index > commitIndex { return Refused; }
      if index <= logBase { return AlreadyCovered; }
      var arrayIdx := index - logBase - 1;
      if arrayIdx >= |log| || log[arrayIdx].index != index { return Refused; }
      var snapTerm := log[arrayIdx].term;
      log, logBase := log[arrayIdx + 1..], index;
      snap := Snapshot(data, index, snapTerm);
      var ok := SaveBothFiles();
      if !ok { return SaveFailed; }
      return Taken;
    }

    method TailAfter(index: int) returns (tail: seq<Entry>)
      ensures tail == EntriesAfter(log, index)
    {
      tail := [];
      var i := 0;
      while i < |log|
        invariant 0 <= i <= |log|
        invariant tail == EntriesAfter(log[..i], index)
      {
        assert log[..i + 1][..|log[..i + 1]| - 1] == log[..i];
        if log[i].index > index { tail := tail + [log[i]]; }
        i := i + 1;
      }
      assert log[..i] == log;
    }

    method BuildSnapshotRequest(term: int) returns (req: Option<SnapshotRequest>)
      ensures req == BuildSnapshot(View(), term)
    {
      if snap.data.size == 0 { return None; }
      return Some(SnapshotRequest(term, id, snap.index, snap.term, snap.data));
    }

    // The critical section of sendInstallSnapshot after the answer.
    method HandleSnapshotReply(peer: int, req: SnapshotRequest, replyTerm: int)
      requires peer in peers
      modifies this
      ensures View() == NodeSpec.HandleSnapshotReply(old(View()), peer, req, replyTerm)
    {
      if state != Leader || currentTerm != req.term { return; }
      if replyTerm > currentTerm {
        StepDown(replyTerm);
        return;
      }
      var p := peers[peer];
      if req.lastIndex > p.matchIndex { p := p.(matchIndex := req.lastIndex); }
      p := p.(nextIndex := p.matchIndex + 1);
      peers := peers[peer := p];
      assert View() == RecordMatch(old(View()), peer, req.lastIndex);
      UpdateCommitIndex();
    }

    method InstallSnapshot(req: SnapshotRequest) returns (reply: Option<int>)
      modifies this, persister`saved, persister`snapshot
      ensures (View(), reply) == HandleInstallSnapshot(old(View()), req, !persister.saveErr, !persister.snapErr)
    {
      if req.data.size > MAX_SNAPSHOT_BYTES { return None; }
      if req.term < currentTerm { return Some(currentTerm); }
      if req.term > currentTerm { StepDown(req.term); }
      leaderId := req.leader;
      reply := InstallOrDiscard(req);
    }

    // The guards of a current snapshot.
    method InstallOrDiscard(req: SnapshotRequest) returns (reply: Option<int>)
      modifies this`log, this`logBase, this`snap, this`commitIndex, this`lastApplied, this`applyCh
      modifies persister`saved, persister`snapshot
      ensures var v, okState, okSnap := old(View()), !persister.saveErr, !persister.snapErr;
              (View(), reply) == if req.lastIndex <= v.commitIndex || Contradicts(v, req) then (v, Some(v.term))
                                 else (InstallState(v, req, okState, okSnap), if okState && okSnap then Some(v.term) else None)
    {
      var lastIdx := req.lastIndex;
      if lastIdx <= commitIndex { return Some(currentTerm); }
      var arrayIdx := lastIdx - logBase - 1;
      if arrayIdx >= 0 && arrayIdx < |log| && log[arrayIdx].index == lastIdx && log[arrayIdx].term != req.lastTerm {
        return Some(currentTerm);
      }
      var ok := InstallSnapshotState(req);
      if !ok { return None; }
      return Some(currentTerm);
    }

    method InstallSnapshotState(req: SnapshotRequest) returns (ok: bool)
      requires req.lastIndex > commitIndex
      modifies this`log, this`logBase, this`snap, this`commitIndex, this`lastApplied, this`applyCh
      modifies persister`saved, persister`snapshot
      ensures ok == (!persister.saveErr && !persister.snapErr)
      ensures View() == InstallState(old(View()), req, !persister.saveErr, !persister.snapErr)
    {
      log := TailAfter(req.lastIndex);
      MoveBase(req);
      ok := SaveBothFiles();
      if ok {
        applyCh := applyCh + [SnapshotMsg(req.data, req.lastIndex, req.lastTerm)];
      }
    }

    method MoveBase(req: SnapshotRequest)
      requires req.lastIndex > commitIndex
      modifies this`logBase, this`snap, this`commitIndex, this`lastApplied
      ensures View() == old(View()).(logBase := req.lastIndex, snap := Snapshot(req.data, req.lastIndex, req.lastTerm),
                                     commitIndex := req.lastIndex, lastApplied := req.lastIndex)
    {
      logBase := req.lastIndex;
      snap := Snapshot(req.data, req.lastIndex, req.lastTerm);
      if commitIndex < req.lastIndex { commitIndex := req.lastIndex; }
      lastApplied := req.lastIndex;
    }
  }
}
