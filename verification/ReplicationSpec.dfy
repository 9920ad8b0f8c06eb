// What the replication functions promise, apart from any cluster.
module ReplicationSpec {
  import opened KvTypes
  import opened RaftTypes
  import opened NodeSpec

  // ---- updateCommitIndex and Figure 2's leader rule ----

  ghost predicate TermsRise(log: seq<Entry>, top: int) {
    && (forall j, k :: 0 <= j <= k < |log| ==> log[j].term <= log[k].term)
    && (forall k :: 0 <= k < |log| ==> log[k].term <= top)
  }

  // Entry k is in the log and, of the cluster, this node and the peers known to
  // hold it are a majority.
  ghost predicate MajorityHolds(n: Node, k: int) {
    && 0 <= k - n.logBase - 1 < |n.log|
    && 2 * (1 + |set p | p in n.peers && n.peers[p].matchIndex >= k|) > |n.peers| + 1
  }

  // N > commitIndex, a majority matches N, and log[N].term == currentTerm.
  ghost predicate MayCommit(n: Node, k: int) {
    n.commitIndex < k && MajorityHolds(n, k) && n.log[k - n.logBase - 1].term == n.term
  }

  // The greatest index beyond commitIndex and at most k that a majority holds.
  ghost predicate TopHeld(n: Node, k: int, top: int) {
    n.commitIndex < top <= k && MajorityHolds(n, top) && forall j :: top < j <= k ==> !MajorityHolds(n, j)
  }

  // Whatever the log, the scan looks at that index alone.
  lemma {:induction false} ScanExactly(n: Node, k: int)
    ensures ScanCommit(n, k) >= n.commitIndex
    ensures ScanCommit(n, k) > n.commitIndex ==> TopHeld(n, k, ScanCommit(n, k)) && MayCommit(n, ScanCommit(n, k))
    ensures forall top :: TopHeld(n, k, top) && MayCommit(n, top) ==> ScanCommit(n, k) == top
    decreases k - n.commitIndex
  {
    if k > n.commitIndex && !MajorityHolds(n, k) {
      ScanExactly(n, k - 1);
      forall top | TopHeld(n, k, top)
        ensures TopHeld(n, k - 1, top)
      {
      }
    }
  }

  // With rising terms that is the greatest index the leader rule allows.
  lemma ScanPicksGreatest(n: Node, k: int)
    requires TermsRise(n.log, n.term) && k <= LastIndex(n)
    ensures forall j :: MayCommit(n, j) && j <= k ==> j <= ScanCommit(n, k)
    ensures ScanCommit(n, k) > n.commitIndex ==> MayCommit(n, ScanCommit(n, k))
    ensures ScanCommit(n, k) >= n.commitIndex
  {
    ScanExactly(n, k);
    forall j | MayCommit(n, j) && j <= k
      ensures j <= ScanCommit(n, k)
    {
      var top := FindTop(n, j, k);
      assert n.log[j - n.logBase - 1].term <= n.log[top - n.logBase - 1].term;
    }
  }

  lemma {:induction false} FindTop(n: Node, j: int, k: int) returns (top: int)
    requires n.commitIndex < j <= k && MajorityHolds(n, j)
    ensures j <= top && TopHeld(n, k, top)
    decreases k - j
  {
    if i :| j < i <= k && MajorityHolds(n, i) {
      top := FindTop(n, i, k);
    } else {
      top := j;
    }
  }

  // The downward scan with its early break commits exactly the greatest index
  // the leader rule allows, or nothing when it allows none; nothing else about
  // the leader changes, except that the apply loop is then signalled.
  lemma UpdateCommitIsLeaderRule(n: Node)
    requires TermsRise(n.log, n.term)
    ensures var c := UpdateCommit(n).commitIndex;
            && c >= n.commitIndex
            && (c > n.commitIndex ==> n.role == Leader && MayCommit(n, c))
            && (n.role == Leader ==> forall j :: MayCommit(n, j) ==> j <= c)
            && UpdateCommit(n) == n.(commitIndex := c, wake := n.wake || c > n.commitIndex)
  {
    ScanPicksGreatest(n, LastIndex(n));
  }

  // ---- AppendEntries as a merge ----

  // The log holds, at some position of the request, an entry of another term.
  ghost predicate Conflicts(log: seq<Entry>, at: nat, entries: seq<Entry>) {
    exists j :: 0 <= j < |entries| && at + j < |log| && log[at + j].term != entries[j].term
  }

  // After the merge the log agrees with the request by term through its end,
  // keeps everything before it, and keeps what lies beyond exactly when nothing
  // conflicted.
  lemma MergeMeaning(log: seq<Entry>, at: nat, entries: seq<Entry>)
    requires at <= |log|
    ensures var m := Merge(log, at, entries);
            && at + |entries| <= |m| && m[..at] == log[..at]
            && (forall j :: 0 <= j < |entries| ==>
                  && m[at + j].term == entries[j].term
                  && (m[at + j] == entries[j] || (at + j < |log| && m[at + j] == log[at + j])))
            && (Conflicts(log, at, entries) ==> |m| == at + |entries|)
            && (!Conflicts(log, at, entries) ==> log <= m && |m| == if |log| < at + |entries| then at + |entries| else |log|)
  {
    var i := FirstNew(log, at, entries);
    if i < |entries| && at + i < |log| {
      assert Conflicts(log, at, entries);
    }
    forall j | 0 <= j < |entries| && at + j < |log| && log[at + j].term != entries[j].term
      ensures i <= j
    {
    }
  }

  // Handling the same request again changes no entry.
  lemma MergeIdempotent(log: seq<Entry>, at: nat, entries: seq<Entry>)
    requires at <= |log|
    ensures at <= |Merge(log, at, entries)| && Merge(Merge(log, at, entries), at, entries) == Merge(log, at, entries)
  {
    MergeMeaning(log, at, entries);
    var m := Merge(log, at, entries);
    assert FirstNew(m, at, entries) == |entries|;
  }

  // ---- The answer to AppendEntries ----

  function Max(a: int, b: int): int {
    if a > b then a else b
  }

  function Min(a: int, b: int): int {
    if a < b then a else b
  }

  // The request is current and its anchor, if it has one, is in the log.
  ghost predicate Anchored(n: Node, req: AppendRequest) {
    && req.term >= n.term
    && (req.prevLogIndex <= 0
        || (&& 0 <= req.prevLogIndex - n.logBase - 1 < |n.log|
            && n.log[req.prevLogIndex - n.logBase - 1].term == req.prevLogTerm))
  }

  // The log has entry j of the request in its place.
  ghost predicate HasAt(log: seq<Entry>, at: int, entries: seq<Entry>, j: nat) {
    0 <= at + j < |log| && j < |entries| && log[at + j].term == entries[j].term
  }

  // Entry i is the first one it has not.
  ghost predicate FirstMissing(log: seq<Entry>, at: int, entries: seq<Entry>, i: nat) {
    i < |entries| && !HasAt(log, at, entries, i) && forall j :: 0 <= j < i ==> HasAt(log, at, entries, j)
  }

  ghost predicate Misses(log: seq<Entry>, at: int, entries: seq<Entry>) {
    exists i :: FirstMissing(log, at, entries, i)
  }

  ghost predicate Adds(n: Node, req: AppendRequest) {
    Anchored(n, req) && Misses(n.log, req.prevLogIndex - n.logBase, req.entries)
  }

  lemma FirstNewMissing(log: seq<Entry>, at: nat, entries: seq<Entry>)
    requires at <= |log|
    ensures var i := FirstNew(log, at, entries);
            && (i < |entries| ==> FirstMissing(log, at, entries, i))
            && (Misses(log, at, entries) <==> i < |entries|)
  {
    var i := FirstNew(log, at, entries);
    forall j | 0 <= j < i
      ensures HasAt(log, at, entries, j)
    {
    }
    if i < |entries| { assert FirstMissing(log, at, entries, i); }
  }

  // The ways through AppendEntries once the anchor is found.
  lemma AcceptUnchanged(n: Node, req: AppendRequest, ok: bool)
    requires PrevMatches(n, req) && (req.prevLogIndex > 0 || req.entries == [] || req.prevLogIndex >= n.logBase)
    requires req.entries != [] ==> FirstNew(n.log, req.prevLogIndex - n.logBase, req.entries) == |req.entries|
    ensures AcceptEntries(n, req, ok) == (FollowerCommit(n, req), Some(AppendReply(n.term, true)))
  {
  }

  lemma AcceptMerged(n: Node, req: AppendRequest, ok: bool)
    requires PrevMatches(n, req) && 0 <= req.prevLogIndex - n.logBase <= |n.log|
    requires FirstNew(n.log, req.prevLogIndex - n.logBase, req.entries) < |req.entries|
    ensures var merged := n.(log := Merge(n.log, req.prevLogIndex - n.logBase, req.entries));
            AcceptEntries(n, req, ok) ==
              if ok then (FollowerCommit(Persist(merged), req), Some(AppendReply(n.term, true))) else (merged, None)
  {
  }

  lemma AcceptAnswers(n: Node, req: AppendRequest, ok: bool)
    requires PrevMatches(n, req) && (req.prevLogIndex > 0 || req.entries == [] || req.prevLogIndex >= n.logBase)
    ensures AcceptEntries(n, req, ok).1 ==
              if !ok && Misses(n.log, req.prevLogIndex - n.logBase, req.entries) then None else Some(AppendReply(n.term, true))
  {
    if req.entries != [] { FirstNewMissing(n.log, req.prevLogIndex - n.logBase, req.entries); }
    if Misses(n.log, req.prevLogIndex - n.logBase, req.entries) {
      AcceptMerged(n, req, ok);
    } else {
      AcceptUnchanged(n, req, ok);
    }
  }

  // A request succeeds exactly when it is current, its anchor is in the log and
  // what it adds, if anything, could be saved; there is no answer exactly when
  // the save fails.
  lemma AcceptsExactly(n: Node, req: AppendRequest, ok: bool)
    requires InContract(n, req)
    ensures HandleAppendEntries(n, req, ok).1 ==
              if Adds(n, req) && !ok then None else Some(AppendReply(Max(n.term, req.term), Anchored(n, req)))
  {
    if req.term >= n.term {
      var m := HearLeader(n, req);
      assert m.log == n.log && m.logBase == n.logBase && m.term == req.term;
      if PrevMatches(m, req) { AcceptAnswers(m, req, ok); }
    }
  }

  // What the request leaves of the receiver, besides its log, its file and how
  // far it has committed.
  ghost predicate Hears(n: Node, n': Node, req: AppendRequest) {
    && n' == n.(term := Max(n.term, req.term), role := n'.role, votedFor := n'.votedFor, leaderId := n'.leaderId,
                log := n'.log, commitIndex := n'.commitIndex, wake := n'.wake, disk := n'.disk)
    && n'.role == (if req.term > n.term then Follower else n.role)
    && n'.votedFor == (if req.term > n.term then NO_ONE else n.votedFor)
    && n'.leaderId == (if req.term < n.term || n'.role == Leader then n.leaderId else req.leader)
  }

  // The log keeps what it has of the request, and from the first entry it lacks
  // the request's take the place of its own and end it.
  ghost predicate Joined(log: seq<Entry>, at: int, entries: seq<Entry>, log': seq<Entry>) {
    exists i: nat :: FirstMissing(log, at, entries, i) && 0 <= at + i <= |log| && log' == log[..at + i] + entries[i..]
  }

  // That happens exactly when the request adds something, and is saved if
  // possible.
  ghost predicate TakesLog(n: Node, n': Node, req: AppendRequest, adds: bool, ok: bool) {
    && (if adds then Joined(n.log, req.prevLogIndex - n.logBase, req.entries, n'.log) else n'.log == n.log)
    && n'.disk == (if adds && ok then n.disk.(saved := Some(SavedState(n'.term, n'.votedFor, n'.log))) else n.disk)
  }

  // Once that is done the log is committed as far as the leader's commit index
  // and the request reach.
  ghost predicate TakesCommit(n: Node, n': Node, req: AppendRequest, done: bool) {
    var upTo := req.prevLogIndex + |req.entries|;
    && n'.commitIndex == (if done then Max(n.commitIndex, Min(req.leaderCommit, upTo)) else n.commitIndex)
    && n'.wake == (n.wake || n'.commitIndex > n.commitIndex)
  }

  lemma CommitTakes(n: Node, req: AppendRequest)
    ensures TakesCommit(n, FollowerCommit(n, req), req, true)
    ensures FollowerCommit(n, req) == n.(commitIndex := FollowerCommit(n, req).commitIndex, wake := FollowerCommit(n, req).wake)
  {
  }

  lemma MergeJoins(log: seq<Entry>, at: nat, entries: seq<Entry>)
    requires at <= |log| && Misses(log, at, entries)
    ensures FirstNew(log, at, entries) < |entries| && Joined(log, at, entries, Merge(log, at, entries))
  {
    FirstNewMissing(log, at, entries);
  }

  lemma AcceptTakes(n: Node, req: AppendRequest, ok: bool)
    requires PrevMatches(n, req) && (req.prevLogIndex > 0 || req.entries == [] || req.prevLogIndex >= n.logBase)
    ensures var n', adds := AcceptEntries(n, req, ok).0, Misses(n.log, req.prevLogIndex - n.logBase, req.entries);
            && TakesLog(n, n', req, adds, ok) && TakesCommit(n, n', req, ok || !adds)
            && n' == n.(log := n'.log, commitIndex := n'.commitIndex, wake := n'.wake, disk := n'.disk)
  {
    if Misses(n.log, req.prevLogIndex - n.logBase, req.entries) {
      MergeJoins(n.log, req.prevLogIndex - n.logBase, req.entries);
      AcceptMerged(n, req, ok);
      CommitTakes(Persist(n.(log := Merge(n.log, req.prevLogIndex - n.logBase, req.entries))), req);
    } else {
      if req.entries != [] { FirstNewMissing(n.log, req.prevLogIndex - n.logBase, req.entries); }
      AcceptUnchanged(n, req, ok);
      CommitTakes(n, req);
    }
  }

  lemma HearsHeard(n: Node, n': Node, req: AppendRequest)
    requires req.term >= n.term
    requires n' == HearLeader(n, req).(log := n'.log, commitIndex := n'.commitIndex, wake := n'.wake, disk := n'.disk)
    ensures Hears(n, n', req)
  {
  }

  lemma TakesHeard(n: Node, m: Node, n': Node, req: AppendRequest, adds: bool, done: bool, ok: bool)
    requires TakesLog(m, n', req, adds, ok) && TakesCommit(m, n', req, done)
    requires m.log == n.log && m.logBase == n.logBase && m.disk == n.disk && m.commitIndex == n.commitIndex && m.wake == n.wake
    ensures TakesLog(n, n', req, adds, ok) && TakesCommit(n, n', req, done)
  {
  }

  ghost predicate Takes(n: Node, n': Node, req: AppendRequest, ok: bool) {
    && Hears(n, n', req) && TakesLog(n, n', req, Adds(n, req), ok)
    && TakesCommit(n, n', req, Anchored(n, req) && (ok || !Adds(n, req)))
  }

  lemma AnchoredTakes(n: Node, req: AppendRequest, ok: bool)
    requires InContract(n, req) && Anchored(n, req)
    ensures PrevMatches(HearLeader(n, req), req) && Takes(n, AcceptEntries(HearLeader(n, req), req, ok).0, req, ok)
  {
    var m := HearLeader(n, req);
    var n' := AcceptEntries(m, req, ok).0;
    AcceptTakes(m, req, ok);
    HearsHeard(n, n', req);
    TakesHeard(n, m, n', req, Adds(n, req), ok || !Adds(n, req), ok);
  }

  // Everything a request does to its receiver.
  lemma AppendTakes(n: Node, req: AppendRequest, ok: bool)
    requires InContract(n, req)
    ensures Takes(n, HandleAppendEntries(n, req, ok).0, req, ok)
  {
    if Anchored(n, req) {
      AnchoredTakes(n, req, ok);
    } else if req.term >= n.term {
      HearsHeard(n, HearLeader(n, req), req);
    }
  }

  // ---- Building a request ----

  // The entries from position `lo`. A compacted leader stops short: it counts
  // positions up to the length of its log as if they were indexes.
  ghost predicate Stretch(n: Node, lo: int, entries: seq<Entry>) {
    0 <= lo <= |n.log| && entries <= n.log[lo..] && |entries| == Max(0, |n.log| - n.logBase - lo)
  }

  // A request begins after the entry before the peer's nextIndex, or, when that
  // one is not in the log, at the very beginning, which a compacted leader no
  // longer has.
  ghost predicate BuiltFor(n: Node, next: int, req: AppendRequest) {
    var a := next - 1 - n.logBase - 1;
    if next > 1 && 0 <= a < |n.log| then
      req.prevLogIndex == next - 1 && req.prevLogTerm == n.log[a].term && Stretch(n, a + 1, req.entries)
    else
      && req.prevLogIndex == 0 && req.prevLogTerm == 0
      && req.entries == if n.logBase == 0 then n.log else []
  }

  lemma CollectsStretch(n: Node, next: int)
    requires 0 <= next - n.logBase - 1 <= |n.log|
    ensures Stretch(n, next - n.logBase - 1, CollectEntries(n.log, n.logBase, next))
  {
    var lo, hi := next - n.logBase - 1, |n.log| - n.logBase;
    if lo <= hi { assert n.log[lo..hi] == n.log[lo..][..hi - lo]; }
  }

  lemma BuildsFor(n: Node, peer: int, commitIdx: int, next: int)
    requires peer in n.peers && n.role == Leader && next == Max(1, n.peers[peer].nextIndex) && n.logBase < next
    ensures var out := BuildAppend(n, peer, n.term, commitIdx);
            && out.Send? && out.req.term == n.term && out.req.leader == n.id && out.req.leaderCommit == commitIdx
            && BuiltFor(n, next, out.req)
  {
    if next - n.logBase - 1 <= |n.log| { CollectsStretch(n, next); }
    assert CollectEntries(n.log, n.logBase, 1) == if n.logBase == 0 then n.log else [];
  }

  lemma BuildsExactly(n: Node, peer: int, term: int, commitIdx: int)
    requires peer in n.peers
    ensures var out, leads, next := BuildAppend(n, peer, term, commitIdx), n.role == Leader && n.term == term, n.peers[peer].nextIndex;
            && (out.NotLeader? <==> !leads)
            && (out.ShipSnapshot? <==> leads && n.logBase > 0 && next <= n.logBase)
            && (out.Send? ==>
                  && out.req.term == term && out.req.leader == n.id && out.req.leaderCommit == commitIdx
                  && BuiltFor(n, Max(1, next), out.req))
  {
    var next := Max(1, n.peers[peer].nextIndex);
    if n.role == Leader && n.term == term && n.logBase < next { BuildsFor(n, peer, commitIdx, next); }
  }

  // The request reaches the end of the leader's log exactly when the leader
  // has not compacted, or the peer lacks nothing and the log is not empty: the
  // entry loop is bounded by the slice length, not by the last index.
  lemma RequestReachesEnd(n: Node, peer: int, commitIdx: int)
    requires n.role == Leader && peer in n.peers
    requires n.logBase < n.peers[peer].nextIndex <= LastIndex(n) + 1
    ensures BuildAppend(n, peer, n.term, commitIdx).Send?
    ensures var req := BuildAppend(n, peer, n.term, commitIdx).req;
            (req.prevLogIndex + |req.entries| == LastIndex(n)) <==>
              (n.logBase == 0 || (n.peers[peer].nextIndex == LastIndex(n) + 1 && n.log != []))
  {
  }

  // A peer that has just installed the leader's snapshot is sent empty
  // requests from then on: each success leaves the leader where it was.
  lemma CatchUpStalls(n: Node, peer: int, commitIdx: int, reply: AppendReply)
    requires n.role == Leader && peer in n.peers && n.logBase > 0
    requires n.peers[peer] == Peer(n.logBase + 1, n.logBase)
    requires reply.success && reply.term <= n.term
    ensures var req := AppendRequest(n.term, n.id, 0, 0, [], commitIdx);
            && BuildAppend(n, peer, n.term, commitIdx) == Send(req)
            && var n' := HandleAppendReply(n, peer, req, reply);
               n'.peers == n.peers && n'.log == n.log && n'.logBase == n.logBase && n'.role == Leader && n'.term == n.term
  {
    var req := AppendRequest(n.term, n.id, 0, 0, [], commitIdx);
    assert RecordMatch(n, peer, 0).peers == n.peers;
  }

  // ---- The leader's other steps ----

  // The commit index moved to where the leader rule, over the state before the
  // move, has it.
  ghost predicate Advanced(before: Node, n': Node) {
    var c := n'.commitIndex;
    && c >= before.commitIndex && (c > before.commitIndex ==> MayCommit(before, c))
    && (forall j :: MayCommit(before, j) ==> j <= c)
    && n' == before.(commitIndex := c, wake := before.wake || c > before.commitIndex)
  }

  // A success raises the peer's matchIndex to the end of the request, never
  // lowers it, and sets nextIndex behind it; a rejection goes back one entry.
  // Only the peer's entry changes, and after a success the commit index.
  lemma ReplyExactly(n: Node, peer: int, req: AppendRequest, reply: AppendReply)
    requires peer in n.peers && TermsRise(n.log, n.term) && reply.term <= n.term
    ensures var n', p := HandleAppendReply(n, peer, req, reply), n.peers[peer];
            if n.role != Leader || n.term != req.term then n' == n
            else if reply.success then
              var m := Max(p.matchIndex, req.prevLogIndex + |req.entries|);
              Advanced(n.(peers := n.peers[peer := Peer(m + 1, m)]), n')
            else n' == n.(peers := n.peers[peer := Peer(if p.nextIndex > 1 then p.nextIndex - 1 else p.nextIndex, p.matchIndex)])
  {
    var m := Max(n.peers[peer].matchIndex, req.prevLogIndex + |req.entries|);
    UpdateCommitIsLeaderRule(n.(peers := n.peers[peer := Peer(m + 1, m)]));
  }

  // A leader that can save a command gives it the next index, in its own term;
  // otherwise nothing happens.
  lemma SubmitExactly(n: Node, cmd: Command, ok: bool)
    requires TermsRise(n.log, n.term)
    ensures var (n', idx) := ReplicateCommand(n, cmd, ok);
            if n.role != Leader || !ok then n' == n && idx == None
            else
              var log' := n.log + [Entry(LastIndex(n) + 1, n.term, cmd)];
              && idx == Some(LastIndex(n) + 1)
              && Advanced(n.(log := log', disk := n.disk.(saved := Some(SavedState(n.term, n.votedFor, log')))), n')
  {
    if n.role == Leader && ok {
      var log' := n.log + [Entry(LastIndex(n) + 1, n.term, cmd)];
      UpdateCommitIsLeaderRule(n.(log := log', disk := n.disk.(saved := Some(SavedState(n.term, n.votedFor, log')))));
    }
  }

  // ---- A request below the log ----

  // AppendEntries indexes its log with a negative number, and panics, exactly
  // outside InContract: when it gets as far as a first entry that belongs
  // before the first one it still holds.
  lemma PanicsExactly(n: Node, req: AppendRequest)
    ensures !InContract(n, req) <==>
            req.term >= n.term && PrevMatches(HearLeader(n, req), req) && req.entries != [] && req.prevLogIndex - n.logBase < 0
  {
  }

  // An uncompacted leader that goes back to the beginning sends such a request
  // to every compacted follower.
  lemma UncompactedLeaderPanicsFollower(l: Node, f: Node, peer: int, commitIdx: int)
    requires l.role == Leader && peer in l.peers && l.logBase == 0 && l.log != [] && l.peers[peer].nextIndex <= 1
    requires f.logBase > 0 && f.term <= l.term
    ensures BuildAppend(l, peer, l.term, commitIdx).Send? && !InContract(f, BuildAppend(l, peer, l.term, commitIdx).req)
  {
  }
}
