// One node that compacts its log, run against the log it would have kept
// without compaction (raft/replication.go, raft/snapshot.go, raft/raft.go).
//
// A run holds every critical section of a node that is not restarted, in any
// order. What the rest of the cluster must promise is in Legal: a request
// agrees with what this node has committed, and a snapshot is taken of applied
// entries.
module Compaction {
  import opened KvTypes
  import opened RaftTypes
  import opened NodeSpec

  // `full` is the log with everything compacted away put back.
  datatype Track = Track(node: Node, full: seq<Entry>)

  datatype Action =
    | Timeout(ok: bool)
    | Vote(voteReq: VoteRequest, ok: bool)
    | Count(term: int, voteReply: VoteReply)
    | Promote
    | Replicate(cmd: Command, ok: bool)
    | Reply(peer: int, req: AppendRequest, reply: AppendReply)
    | Append(req: AppendRequest, ok: bool)
    | Compact(index: int, data: Payload, okState: bool, okSnap: bool)
    | Install(snapReq: SnapshotRequest, past: seq<Entry>, okState: bool, okSnap: bool)
    | Wake
    | Apply

  predicate Numbered(log: seq<Entry>, base: nat) {
    forall k :: 0 <= k < |log| ==> log[k].index == base + k + 1
  }

  // A request that is not stale carries entries with their own positions, and
  // repeats what is committed here.
  predicate Agrees(t: Track, req: AppendRequest) {
    req.term >= t.node.term ==>
      && Numbered(req.entries, if req.prevLogIndex < 0 then 0 else req.prevLogIndex)
      && (forall j :: 0 <= j < |req.entries| && 0 <= req.prevLogIndex + j < t.node.commitIndex && req.prevLogIndex + j < |t.full| ==>
            t.full[req.prevLogIndex + j].term == req.entries[j].term)
  }

  // `past` is the sender's log up to the snapshot.
  predicate Covers(t: Track, req: SnapshotRequest, past: seq<Entry>) {
    && |past| == req.lastIndex && Numbered(past, 0)
    && (t.node.commitIndex <= |past| && t.node.commitIndex <= |t.full| ==>
          past[..t.node.commitIndex] == t.full[..t.node.commitIndex])
  }

  predicate Legal(t: Track, a: Action) {
    match a
    case Reply(peer, _, _) => peer in t.node.peers
    case Append(req, _) => InContract(t.node, req) && Agrees(t, req)
    case Compact(index, _, _, _) => index <= t.node.lastApplied
    case Install(req, past, _, _) => Covers(t, req, past)
    case _ => true
  }

  // What the node does.
  function Node'(t: Track, a: Action): Node
    requires Legal(t, a)
  {
    var n := t.node;
    match a
    case Timeout(ok) => BecomeCandidate(n, ok).0
    case Vote(req, ok) => HandleRequestVote(n, req, ok).0
    case Count(term, reply) => CountVote(n, term, reply).0
    case Promote => BecomeLeader(n)
    case Replicate(cmd, ok) => ReplicateCommand(n, cmd, ok).0
    case Reply(peer, req, reply) => HandleAppendReply(n, peer, req, reply)
    case Append(req, ok) => HandleAppendEntries(n, req, ok).0
    case Compact(index, data, okState, okSnap) => TakeSnapshot(n, index, data, okState, okSnap).0
    case Install(req, _, okState, okSnap) => HandleInstallSnapshot(n, req, okState, okSnap).0
    case Wake => WakeUp(n)
    case Apply => if n.applying then ApplyOne(n) else n
  }

  predicate Installs(n: Node, req: SnapshotRequest) {
    req.data.size <= MAX_SNAPSHOT_BYTES && n.term <= req.term && n.commitIndex < req.lastIndex && !Contradicts(n, req)
  }

  // What becomes of the absolute log: the new part of the node's log follows
  // what was there, or what a snapshot stands for.
  function Full'(t: Track, a: Action): seq<Entry>
    requires Legal(t, a)
  {
    match a
    case Install(req, past, _, _) =>
      if !Installs(t.node, req) then t.full
      else if req.lastIndex <= |t.full| then past + t.full[req.lastIndex..] else past
    case Compact(_, _, _, _) => t.full
    case _ => (if t.node.logBase <= |t.full| then t.full[..t.node.logBase] else t.full) + Node'(t, a).log
  }

  function Next(t: Track, a: Action): Track
    requires Legal(t, a)
  {
    Track(Node'(t, a), Full'(t, a))
  }

  ghost predicate StepAt(run: seq<Track>, acts: seq<Action>, k: nat)
    requires |run| == |acts| + 1 && k < |acts|
  {
    Legal(run[k], acts[k]) && run[k + 1] == Next(run[k], acts[k])
  }

  ghost predicate IsRun(run: seq<Track>, acts: seq<Action>) {
    && |run| == |acts| + 1
    && (exists id, peerIds :: run[0] == Track(FreshNode(id, peerIds, Disk(None, None)), []))
    && (forall k :: 0 <= k < |acts| ==> StepAt(run, acts, k))
  }

  // ---- The invariant ----

  ghost predicate Compacted(n: Node, full: seq<Entry>) {
    && Numbered(full, 0) && |full| == LastIndex(n) && full[n.logBase..] == n.log
    && n.logBase <= n.lastApplied <= n.commitIndex <= LastIndex(n)
  }

  // Idle with something to deliver only while the token is there.
  ghost predicate Awake(n: Node) {
    !n.applying && n.lastApplied < n.commitIndex ==> n.wake
  }

  function IndexOf(m: ApplyMsg): int {
    match m
    case CommandMsg(_, index) => index
    case SnapshotMsg(_, lastIndex, _) => lastIndex
  }

  function Covered(sent: seq<ApplyMsg>): int {
    if sent == [] then 0 else IndexOf(sent[|sent| - 1])
  }

  // Message k is ahead of everything before it, and a command is the whole log's.
  ghost predicate StreamAt(sent: seq<ApplyMsg>, full: seq<Entry>, k: nat)
    requires k < |sent|
  {
    match sent[k]
    case CommandMsg(command, index) =>
      Covered(sent[..k]) < index && 0 < index <= |full| && command == full[index - 1].command
    case SnapshotMsg(_, lastIndex, _) => Covered(sent[..k]) < lastIndex <= |full|
  }

  ghost predicate Stream(n: Node, full: seq<Entry>) {
    && Covered(n.sent) <= n.lastApplied
    && (forall k :: 0 <= k < |n.sent| ==> StreamAt(n.sent, full, k))
  }

  ghost predicate Inv(t: Track) {
    Compacted(t.node, t.full) && Awake(t.node) && Stream(t.node, t.full)
  }

  // Nothing committed is ever lost or changed.
  ghost predicate Keeps(t: Track, t': Track) {
    && t.node.commitIndex <= t'.node.commitIndex && t.node.lastApplied <= t'.node.lastApplied
    && t.node.commitIndex <= |t.full| && t.node.commitIndex <= |t'.full|
    && t'.full[..t.node.commitIndex] == t.full[..t.node.commitIndex]
    && t.node.sent <= t'.node.sent
  }

  // ---- Steps ----

  lemma {:induction false} ScanBounds(n: Node, k: int)
    requires k <= LastIndex(n)
    ensures n.commitIndex <= ScanCommit(n, k)
    ensures ScanCommit(n, k) > n.commitIndex ==> n.logBase < ScanCommit(n, k) <= LastIndex(n)
    decreases k - n.commitIndex
  {
    if k > n.commitIndex { ScanBounds(n, k - 1); }
  }

  // The fields the invariant speaks of.
  ghost predicate SameWork(n: Node, m: Node) {
    && m.log == n.log && m.logBase == n.logBase && m.commitIndex == n.commitIndex
    && m.lastApplied == n.lastApplied && m.sent == n.sent && m.wake == n.wake && m.applying == n.applying
  }

  // The commit index may have moved, and then the token is there.
  ghost predicate Commits(n: Node, m: Node) {
    && m.log == n.log && m.logBase == n.logBase && m.lastApplied == n.lastApplied && m.sent == n.sent
    && m.applying == n.applying
    && ((m.commitIndex == n.commitIndex && m.wake == n.wake) || (n.commitIndex < m.commitIndex <= LastIndex(m) && m.wake))
  }

  lemma CommitsKeeps(n: Node, m: Node, full: seq<Entry>)
    requires Inv(Track(n, full)) && Commits(n, m)
    ensures Inv(Track(m, full)) && Keeps(Track(n, full), Track(m, full))
  {
    assert forall k :: 0 <= k < |m.sent| ==> StreamAt(n.sent, full, k);
  }

  lemma KeepsTransitive(a: Track, b: Track, c: Track)
    requires Keeps(a, b) && Keeps(b, c)
    ensures Keeps(a, c)
  {
    var k, m := a.node.commitIndex, b.node.commitIndex;
    assert c.full[..k] == c.full[..m][..k] && b.full[..k] == b.full[..m][..k];
  }

  lemma UpdateCommitCommits(n: Node)
    ensures Commits(n, UpdateCommit(n))
  {
    ScanBounds(n, LastIndex(n));
  }

  lemma Rejoined(n: Node, full: seq<Entry>)
    requires n.logBase <= |full| && full[n.logBase..] == n.log
    ensures full[..n.logBase] + n.log == full
  {
  }

  // Growing or rewriting the log beyond what is committed.
  lemma RewriteKeeps(n: Node, full: seq<Entry>, m: Node, full': seq<Entry>)
    requires Inv(Track(n, full)) && SameWork(n, m.(log := n.log))
    requires full' == full[..n.logBase] + m.log && Numbered(full', 0) && n.commitIndex <= |full'|
    requires full'[..n.commitIndex] == full[..n.commitIndex]
    ensures Inv(Track(m, full')) && Keeps(Track(n, full), Track(m, full'))
  {
    StreamKept(n.sent, full, full', n.commitIndex, n.lastApplied);
  }

  lemma {:induction false} CoveredBelow(sent: seq<ApplyMsg>, full: seq<Entry>, j: nat, k: nat)
    requires forall i :: 0 <= i < |sent| ==> StreamAt(sent, full, i)
    requires j < k < |sent|
    ensures IndexOf(sent[j]) < IndexOf(sent[k])
    decreases k
  {
    assert StreamAt(sent, full, k) && sent[..k][k - 1] == sent[k - 1];
    if j < k - 1 { CoveredBelow(sent, full, j, k - 1); }
  }

  lemma StreamKept(sent: seq<ApplyMsg>, full: seq<Entry>, full': seq<Entry>, commit: nat, applied: nat)
    requires forall k :: 0 <= k < |sent| ==> StreamAt(sent, full, k)
    requires Covered(sent) <= applied <= commit <= |full| && commit <= |full'| && full'[..commit] == full[..commit]
    ensures forall k :: 0 <= k < |sent| ==> StreamAt(sent, full', k)
  {
    forall k | 0 <= k < |sent|
      ensures StreamAt(sent, full', k)
    {
      if k < |sent| - 1 { CoveredBelow(sent, full, k, |sent| - 1); }
      assert StreamAt(sent, full, k) && IndexOf(sent[k]) <= commit;
      if sent[k].CommandMsg? {
        var x := sent[k].index - 1;
        assert full'[..commit][x] == full[..commit][x];
      }
    }
  }

  lemma AppendedKeeps(n: Node, full: seq<Entry>, e: Entry, m: Node)
    requires Inv(Track(n, full)) && e.index == LastIndex(n) + 1 && m == Persist(n.(log := n.log + [e]))
    ensures full[..n.logBase] + m.log == full + [e]
    ensures Inv(Track(m, full + [e])) && Keeps(Track(n, full), Track(m, full + [e]))
  {
    Rejoined(n, full);
    assert full[..n.logBase] + m.log == full + [e];
    assert (full + [e])[..n.commitIndex] == full[..n.commitIndex];
    RewriteKeeps(n, full, m, full + [e]);
  }

  lemma SubmittedKeeps(n: Node, full: seq<Entry>, cmd: Command, ok: bool, m: Node)
    requires Inv(Track(n, full)) && m == ReplicateCommand(n, cmd, ok).0
    ensures Inv(Track(m, full[..n.logBase] + m.log)) && Keeps(Track(n, full), Track(m, full[..n.logBase] + m.log))
  {
    if n.role == Leader && ok {
      var e := Entry(LastIndex(n) + 1, n.term, cmd);
      var a := Persist(n.(log := n.log + [e]));
      AppendedKeeps(n, full, e, a);
      UpdateCommitCommits(a);
      CommitsKeeps(a, m, full + [e]);
      KeepsTransitive(Track(n, full), Track(a, full + [e]), Track(m, full + [e]));
    } else {
      SameKeeps(n, m, full);
    }
  }

  lemma ReplicateKeeps(t: Track, cmd: Command, ok: bool)
    requires Inv(t)
    ensures Inv(Next(t, Replicate(cmd, ok))) && Keeps(t, Next(t, Replicate(cmd, ok)))
  {
    SubmittedKeeps(t.node, t.full, cmd, ok, Node'(t, Replicate(cmd, ok)));
  }

  lemma ReplyCommits(n: Node, peer: int, req: AppendRequest, reply: AppendReply)
    requires peer in n.peers
    ensures Commits(n, HandleAppendReply(n, peer, req, reply))
  {
    if n.role == Leader && n.term == req.term && reply.term <= n.term && reply.success {
      UpdateCommitCommits(RecordMatch(n, peer, req.prevLogIndex + |req.entries|));
    }
  }

  lemma ReplyKeeps(t: Track, peer: int, req: AppendRequest, reply: AppendReply)
    requires Inv(t) && peer in t.node.peers
    ensures Inv(Next(t, Reply(peer, req, reply))) && Keeps(t, Next(t, Reply(peer, req, reply)))
  {
    Rejoined(t.node, t.full);
    ReplyCommits(t.node, peer, req, reply);
    CommitsKeeps(t.node, HandleAppendReply(t.node, peer, req, reply), t.full);
  }

  // ---- AppendEntries ----

  lemma FirstNewWhole(n: Node, full: seq<Entry>, prev: nat, entries: seq<Entry>)
    requires |full| == LastIndex(n) && full[n.logBase..] == n.log && n.logBase <= prev <= |full|
    ensures FirstNew(n.log, prev - n.logBase, entries) == FirstNew(full, prev, entries)
  {
    var at := prev - n.logBase;
    var i, j := FirstNew(n.log, at, entries), FirstNew(full, prev, entries);
    assert forall k :: 0 <= k < |n.log| ==> n.log[k] == full[n.logBase + k];
  }

  // Merging into the compacted log is merging into the whole one.
  lemma MergeWhole(n: Node, full: seq<Entry>, prev: nat, entries: seq<Entry>)
    requires |full| == LastIndex(n) && full[n.logBase..] == n.log && n.logBase <= prev <= |full|
    ensures full[..n.logBase] + Merge(n.log, prev - n.logBase, entries) == Merge(full, prev, entries)
  {
    FirstNewWhole(n, full, prev, entries);
    var i := FirstNew(full, prev, entries);
    if i < |entries| {
      JoinedFront(full, n.log, n.logBase, prev - n.logBase + i, prev + i, entries[i..]);
    } else {
      Rejoined(n, full);
    }
  }

  lemma JoinedFront(full: seq<Entry>, log: seq<Entry>, base: nat, k: nat, upTo: nat, more: seq<Entry>)
    requires base <= upTo <= |full| && upTo == base + k && full[base..] == log
    ensures full[..base] + (log[..k] + more) == full[..upTo] + more
  {
    assert log[..k] == full[base..upTo];
    assert full[..base] + full[base..upTo] == full[..upTo];
  }

  lemma MergeKeepsCommitted(full: seq<Entry>, prev: nat, entries: seq<Entry>, commit: nat)
    requires prev <= |full| && commit <= |full| && Numbered(full, 0) && Numbered(entries, prev)
    requires forall j :: 0 <= j < |entries| && prev + j < commit ==> full[prev + j].term == entries[j].term
    ensures var full' := Merge(full, prev, entries);
            && Numbered(full', 0) && prev + |entries| <= |full'|
            && commit <= |full'| && full'[..commit] == full[..commit]
  {
    var i := FirstNew(full, prev, entries);
    if i < |entries| {
      assert commit <= prev + i;
      var full' := full[..prev + i] + entries[i..];
      assert forall k :: prev + i <= k < |full'| ==> full'[k] == entries[k - prev];
    }
  }

  lemma HearKeeps(n: Node, req: AppendRequest)
    ensures SameWork(n, HearLeader(n, req))
  {
  }

  lemma SameKeeps(n: Node, m: Node, full: seq<Entry>)
    requires Inv(Track(n, full)) && SameWork(n, m)
    ensures Inv(Track(m, full)) && Keeps(Track(n, full), Track(m, full)) && full[..n.logBase] + m.log == full
  {
    CommitsKeeps(n, m, full);
  }

  lemma MergedKeeps(n: Node, full: seq<Entry>, prev: nat, entries: seq<Entry>, m: Node)
    requires Inv(Track(n, full)) && n.logBase <= prev <= LastIndex(n) && Numbered(entries, prev)
    requires forall j :: 0 <= j < |entries| && prev + j < n.commitIndex ==> full[prev + j].term == entries[j].term
    requires SameWork(n, m.(log := n.log)) && m.log == Merge(n.log, prev - n.logBase, entries)
    ensures prev + |entries| <= LastIndex(m)
    ensures Inv(Track(m, full[..n.logBase] + m.log)) && Keeps(Track(n, full), Track(m, full[..n.logBase] + m.log))
  {
    MergeWhole(n, full, prev, entries);
    MergeKeepsCommitted(full, prev, entries, n.commitIndex);
    RewriteKeeps(n, full, m, full[..n.logBase] + m.log);
  }

  lemma ThenCommits(n: Node, full: seq<Entry>, m: Node, full': seq<Entry>, req: AppendRequest)
    requires Inv(Track(m, full')) && Keeps(Track(n, full), Track(m, full'))
    requires req.prevLogIndex + |req.entries| <= LastIndex(m)
    ensures var c := FollowerCommit(m, req);
            c.log == m.log && Inv(Track(c, full')) && Keeps(Track(n, full), Track(c, full'))
  {
    FollowerCommits(m, req);
    CommitsKeeps(m, FollowerCommit(m, req), full');
    KeepsTransitive(Track(n, full), Track(m, full'), Track(FollowerCommit(m, req), full'));
  }

  // An accepted request with entries: merge, perhaps save, perhaps commit.
  lemma AcceptShape(n: Node, req: AppendRequest, ok: bool) returns (saved: Node)
    requires req.entries != [] && PrevMatches(n, req) && (req.prevLogIndex > 0 || req.prevLogIndex >= n.logBase)
    ensures n.logBase <= req.prevLogIndex <= LastIndex(n)
    ensures SameWork(n, saved.(log := n.log)) && saved.log == Merge(n.log, req.prevLogIndex - n.logBase, req.entries)
    ensures AcceptEntries(n, req, ok).0 == saved || AcceptEntries(n, req, ok).0 == FollowerCommit(saved, req)
  {
    var at := req.prevLogIndex - n.logBase;
    var merged := n.(log := Merge(n.log, at, req.entries));
    saved := if FirstNew(n.log, at, req.entries) < |req.entries| && ok then Persist(merged) else merged;
  }

  lemma SettledKeeps(n: Node, full: seq<Entry>, req: AppendRequest, saved: Node, m: Node)
    requires Inv(Track(n, full)) && req.term >= n.term && Agrees(Track(n, full), req)
    requires n.logBase <= req.prevLogIndex <= LastIndex(n)
    requires SameWork(n, saved.(log := n.log)) && saved.log == Merge(n.log, req.prevLogIndex - n.logBase, req.entries)
    requires m == saved || m == FollowerCommit(saved, req)
    ensures Inv(Track(m, full[..n.logBase] + m.log)) && Keeps(Track(n, full), Track(m, full[..n.logBase] + m.log))
  {
    MergedKeeps(n, full, req.prevLogIndex, req.entries, saved);
    if m != saved {
      ThenCommits(n, full, saved, full[..n.logBase] + saved.log, req);
    }
  }

  lemma AcceptKeeps(n: Node, full: seq<Entry>, req: AppendRequest, ok: bool, m: Node)
    requires Inv(Track(n, full)) && req.term >= n.term && Agrees(Track(n, full), req) && PrevMatches(n, req)
    requires req.prevLogIndex > 0 || req.entries == [] || req.prevLogIndex >= n.logBase
    requires m == AcceptEntries(n, req, ok).0
    ensures Inv(Track(m, full[..n.logBase] + m.log)) && Keeps(Track(n, full), Track(m, full[..n.logBase] + m.log))
  {
    if req.entries == [] {
      HeartbeatKeeps(n, full, req);
    } else {
      var saved := AcceptShape(n, req, ok);
      SettledKeeps(n, full, req, saved, m);
    }
  }

  lemma HeartbeatKeeps(n: Node, full: seq<Entry>, req: AppendRequest)
    requires Inv(Track(n, full)) && PrevMatches(n, req) && req.entries == []
    ensures var m := FollowerCommit(n, req);
            && full[..n.logBase] + m.log == full
            && Inv(Track(m, full)) && Keeps(Track(n, full), Track(m, full))
  {
    Rejoined(n, full);
    CommitsKeeps(n, FollowerCommit(n, req), full);
  }

  lemma FollowerCommits(n: Node, req: AppendRequest)
    requires req.prevLogIndex + |req.entries| <= LastIndex(n)
    ensures Commits(n, FollowerCommit(n, req))
  {
  }

  lemma HandleKeeps(n: Node, full: seq<Entry>, req: AppendRequest, ok: bool, m: Node)
    requires Inv(Track(n, full)) && InContract(n, req) && Agrees(Track(n, full), req)
    requires m == HandleAppendEntries(n, req, ok).0
    ensures Inv(Track(m, full[..n.logBase] + m.log)) && Keeps(Track(n, full), Track(m, full[..n.logBase] + m.log))
  {
    if req.term < n.term {
      SameKeeps(n, m, full);
    } else {
      var h := HearLeader(n, req);
      HearKeeps(n, req);
      SameKeeps(n, h, full);
      if PrevMatches(h, req) {
        AcceptKeeps(h, full, req, ok, m);
        KeepsTransitive(Track(n, full), Track(h, full), Track(m, full[..n.logBase] + m.log));
      }
    }
  }

  lemma AppendKeeps(t: Track, req: AppendRequest, ok: bool)
    requires Inv(t) && Legal(t, Append(req, ok))
    ensures Inv(Next(t, Append(req, ok))) && Keeps(t, Next(t, Append(req, ok)))
  {
    HandleKeeps(t.node, t.full, req, ok, Node'(t, Append(req, ok)));
  }

  // ---- Snapshots ----

  lemma CompactShape(n: Node, index: int, data: Payload, okState: bool, okSnap: bool)
    requires index <= n.lastApplied
    ensures var m := TakeSnapshot(n, index, data, okState, okSnap).0;
            || SameWork(n, m)
            || (&& n.logBase < index <= LastIndex(n) && SameWork(n, m.(log := n.log, logBase := n.logBase))
                && m.logBase == index && m.log == n.log[index - n.logBase..])
  {
  }

  lemma ShortenedKeeps(n: Node, full: seq<Entry>, m: Node)
    requires Inv(Track(n, full)) && n.logBase < m.logBase <= n.lastApplied
    requires SameWork(n, m.(log := n.log, logBase := n.logBase)) && m.log == n.log[m.logBase - n.logBase..]
    ensures Inv(Track(m, full)) && Keeps(Track(n, full), Track(m, full))
  {
    assert full[m.logBase..] == n.log[m.logBase - n.logBase..];
    assert forall k :: 0 <= k < |m.sent| ==> StreamAt(n.sent, full, k);
  }

  lemma CompactKeeps(t: Track, index: int, data: Payload, okState: bool, okSnap: bool)
    requires Inv(t) && index <= t.node.lastApplied
    ensures Inv(Next(t, Compact(index, data, okState, okSnap))) && Keeps(t, Next(t, Compact(index, data, okState, okSnap)))
  {
    var m := TakeSnapshot(t.node, index, data, okState, okSnap).0;
    CompactShape(t.node, index, data, okState, okSnap);
    if SameWork(t.node, m) {
      SameKeeps(t.node, m, t.full);
    } else {
      ShortenedKeeps(t.node, t.full, m);
    }
  }

  lemma {:induction false} AfterIsTail(log: seq<Entry>, base: nat, index: nat)
    requires Numbered(log, base) && base <= index
    ensures EntriesAfter(log, index) == if index - base <= |log| then log[index - base..] else []
  {
    if log != [] {
      var front := log[..|log| - 1];
      AfterIsTail(front, base, index);
      if index - base < |log| {
        assert log[index - base..] == front[index - base..] + [log[|log| - 1]];
      }
    }
  }

  lemma InstalledFull(n: Node, full: seq<Entry>, index: nat, past: seq<Entry>, full': seq<Entry>)
    requires Compacted(n, full) && n.commitIndex < index == |past| && Numbered(past, 0)
    requires past[..n.commitIndex] == full[..n.commitIndex]
    requires full' == if index <= |full| then past + full[index..] else past
    ensures Numbered(full', 0) && full'[index..] == EntriesAfter(n.log, index)
    ensures full'[..n.commitIndex] == full[..n.commitIndex]
  {
    assert forall k :: 0 <= k < |n.log| ==> n.log[k] == full[n.logBase + k];
    AfterIsTail(n.log, n.logBase, index);
    if index <= |full| {
      assert full'[index..] == full[index..] == n.log[index - n.logBase..];
    }
    assert full'[..n.commitIndex] == past[..n.commitIndex];
  }

  lemma InstallKeeps(t: Track, req: SnapshotRequest, past: seq<Entry>, okState: bool, okSnap: bool)
    requires Inv(t) && Legal(t, Install(req, past, okState, okSnap))
    ensures var t' := Next(t, Install(req, past, okState, okSnap)); Inv(t') && Keeps(t, t')
  {
    var n, full := t.node, t.full;
    var m, full' := Node'(t, Install(req, past, okState, okSnap)), Full'(t, Install(req, past, okState, okSnap));
    InstallShape(n, req, okState, okSnap);
    if Installs(n, req) {
      InstalledFull(n, full, req.lastIndex, past, full');
      InstalledKeeps(n, m, full, full', req);
    } else {
      SameKeeps(n, m, full);
    }
  }

  lemma InstallStateShape(n: Node, req: SnapshotRequest, okState: bool, okSnap: bool)
    requires req.lastIndex > n.commitIndex
    ensures var m := InstallState(n, req, okState, okSnap);
            && req.lastIndex == m.logBase == m.lastApplied == m.commitIndex
            && m.log == EntriesAfter(n.log, req.lastIndex)
            && m.sent == n.sent + if okState && okSnap then [SnapshotMsg(req.data, req.lastIndex, req.lastTerm)] else []
  {
  }

  // The message goes out only if both files were written.
  lemma InstallShape(n: Node, req: SnapshotRequest, okState: bool, okSnap: bool)
    ensures var m := HandleInstallSnapshot(n, req, okState, okSnap).0;
            if Installs(n, req) then
              && req.lastIndex == m.logBase == m.lastApplied == m.commitIndex
              && m.log == EntriesAfter(n.log, req.lastIndex)
              && m.sent == n.sent + if okState && okSnap then [SnapshotMsg(req.data, req.lastIndex, req.lastTerm)] else []
            else SameWork(n, m)
  {
    if Installs(n, req) {
      var h := (if req.term > n.term then StepDown(n, req.term) else n).(leaderId := req.leader);
      InstallStateShape(h, req, okState, okSnap);
    }
  }

  lemma InstalledKeeps(n: Node, m: Node, full: seq<Entry>, full': seq<Entry>, req: SnapshotRequest)
    requires Inv(Track(n, full)) && n.commitIndex < req.lastIndex == m.logBase == m.lastApplied == m.commitIndex
    requires Numbered(full', 0) && m.logBase <= |full'| && full'[m.logBase..] == m.log
    requires full'[..n.commitIndex] == full[..n.commitIndex]
    requires m.sent == n.sent || m.sent == n.sent + [SnapshotMsg(req.data, req.lastIndex, req.lastTerm)]
    ensures Inv(Track(m, full')) && Keeps(Track(n, full), Track(m, full'))
  {
    StreamKept(n.sent, full, full', n.commitIndex, n.lastApplied);
    if m.sent != n.sent { StreamMore(n.sent, full', SnapshotMsg(req.data, req.lastIndex, req.lastTerm)); }
  }

  lemma StreamMore(sent: seq<ApplyMsg>, full: seq<Entry>, m: ApplyMsg)
    requires forall k :: 0 <= k < |sent| ==> StreamAt(sent, full, k)
    requires Covered(sent) < IndexOf(m) && 0 < IndexOf(m) <= |full|
    requires m.CommandMsg? ==> m.command == full[m.index - 1].command
    ensures forall k :: 0 <= k < |sent + [m]| ==> StreamAt(sent + [m], full, k)
  {
    var more := sent + [m];
    forall k | 0 <= k < |more|
      ensures StreamAt(more, full, k)
    {
      assert more[..k] == sent[..k];
      if k < |sent| { assert StreamAt(sent, full, k); } else { assert sent[..k] == sent; }
    }
  }

  // ---- The apply loop ----

  lemma ApplyShape(n: Node, full: seq<Entry>)
    requires Compacted(n, full)
    ensures var m := ApplyOne(n);
            if n.lastApplied < n.commitIndex then
              && n.lastApplied < |full|
              && m == n.(lastApplied := n.lastApplied + 1,
                         sent := n.sent + [CommandMsg(full[n.lastApplied].command, n.lastApplied + 1)])
            else m == n.(applying := false)
  {
    if n.lastApplied < n.commitIndex { assert n.log[n.lastApplied - n.logBase] == full[n.lastApplied]; }
  }

  lemma AppliedKeeps(n: Node, full: seq<Entry>, m: Node)
    requires Inv(Track(n, full)) && n.applying && m == ApplyOne(n)
    ensures Inv(Track(m, full)) && Keeps(Track(n, full), Track(m, full)) && m.log == n.log
  {
    ApplyShape(n, full);
    assert forall k :: 0 <= k < |n.sent| ==> StreamAt(n.sent, full, k);
    if n.lastApplied < n.commitIndex {
      StreamMore(n.sent, full, CommandMsg(full[n.lastApplied].command, n.lastApplied + 1));
    }
  }

  lemma ApplyKeeps(t: Track)
    requires Inv(t)
    ensures Inv(Next(t, Apply)) && Keeps(t, Next(t, Apply))
  {
    Rejoined(t.node, t.full);
    if t.node.applying { AppliedKeeps(t.node, t.full, ApplyOne(t.node)); }
  }

  lemma WakeKeeps(t: Track)
    requires Inv(t)
    ensures Inv(Next(t, Wake)) && Keeps(t, Next(t, Wake))
  {
    Rejoined(t.node, t.full);
    assert forall k :: 0 <= k < |t.node.sent| ==> StreamAt(t.node.sent, t.full, k);
  }

  lemma ElectionKeeps(t: Track, a: Action)
    requires Inv(t) && (a.Timeout? || a.Vote? || a.Count? || a.Promote?)
    ensures Inv(Next(t, a)) && Keeps(t, Next(t, a))
  {
    SameKeeps(t.node, Node'(t, a), t.full);
  }

  lemma StepKeeps(t: Track, a: Action)
    requires Inv(t) && Legal(t, a)
    ensures Inv(Next(t, a)) && Keeps(t, Next(t, a))
  {
    match a
    case Replicate(cmd, ok) => ReplicateKeeps(t, cmd, ok);
    case Reply(peer, req, reply) => ReplyKeeps(t, peer, req, reply);
    case Append(req, ok) => AppendKeeps(t, req, ok);
    case Compact(index, data, okState, okSnap) => CompactKeeps(t, index, data, okState, okSnap);
    case Install(req, past, okState, okSnap) => InstallKeeps(t, req, past, okState, okSnap);
    case Wake => WakeKeeps(t);
    case Apply => ApplyKeeps(t);
    case _ => ElectionKeeps(t, a);
  }
}
