// The reject, decrement, retry loop between a leader and one follower
// (sendAppendEntries), while nothing else happens to either.
module Backtracking {
  import opened RaftTypes
  import opened NodeSpec
  import opened ReplicationSpec

  // The Log Matching property for two logs.
  ghost predicate Matching(a: seq<Entry>, b: seq<Entry>) {
    forall k :: MatchingAt(a, b, k)
  }

  ghost predicate MatchingAt(a: seq<Entry>, b: seq<Entry>, k: int) {
    0 <= k < |a| && k < |b| && a[k].term == b[k].term ==> a[..k + 1] == b[..k + 1]
  }

  // Both uncompacted, and the follower not ahead in term.
  ghost predicate Stable(leader: Node, follower: Node, peer: int) {
    && leader.role == Leader && peer in leader.peers
    && leader.logBase == 0 && follower.logBase == 0
    && follower.term <= leader.term
    && 1 <= leader.peers[peer].nextIndex <= |leader.log| + 1
    && leader.peers[peer].matchIndex <= |leader.log|
    && Matching(leader.log, follower.log)
  }

  // The two logs are the same through index k.
  ghost predicate Agree(a: seq<Entry>, b: seq<Entry>, k: int) {
    0 <= k <= |a| && k <= |b| && a[..k] == b[..k]
  }

  // What a follower with this log has once it has caught up.
  function CaughtUp(leader: seq<Entry>, log: seq<Entry>): seq<Entry> {
    if leader <= log then log else leader
  }

  // With matching logs an accepted request leaves the follower caught up.
  lemma AcceptedPrefix(log: seq<Entry>, w: seq<Entry>, at: nat)
    requires Matching(w, log) && Agree(w, log, at)
    ensures Merge(log, at, w[at..]) == CaughtUp(w, log)
  {
    var i := FirstNew(log, at, w[at..]);
    assert log[..at + i] == w[..at + i] by {
      if i > 0 {
        assert log[at + (i - 1)].term == w[at..][i - 1].term;
        assert w[at + i - 1].term == log[at + i - 1].term && MatchingAt(w, log, at + i - 1);
      }
    }
    if i < |w[at..]| {
      assert w == w[..at + i] + w[at..][i..];
      assert at + i < |log| ==> log[at + i].term != w[at..][i].term;
    } else {
      assert w == w[..at + i];
    }
  }

  lemma BuiltRequest(leader: Node, follower: Node, peer: int, commitIdx: int)
    requires Stable(leader, follower, peer)
    ensures var prev := leader.peers[peer].nextIndex - 1;
            BuildAppend(leader, peer, leader.term, commitIdx) ==
              Send(AppendRequest(leader.term, leader.id, prev, if prev > 0 then leader.log[prev - 1].term else 0,
                                 leader.log[prev..], commitIdx))
  {
    var prev := leader.peers[peer].nextIndex - 1;
    assert leader.log[prev..|leader.log|] == leader.log[prev..];
  }

  // A request's anchor is in a matching log exactly when the logs agree up to it.
  lemma AnchoredExactly(leader: Node, follower: Node, peer: int, req: AppendRequest)
    requires Stable(leader, follower, peer)
    requires req.term == leader.term && 0 <= req.prevLogIndex <= |leader.log|
    requires req.prevLogIndex > 0 ==> req.prevLogTerm == leader.log[req.prevLogIndex - 1].term
    ensures Anchored(follower, req) <==> Agree(leader.log, follower.log, req.prevLogIndex)
  {
    var p := req.prevLogIndex;
    if 0 < p <= |follower.log| {
      assert MatchingAt(leader.log, follower.log, p - 1);
      assert leader.log[..p] == follower.log[..p] ==> leader.log[..p][p - 1] == follower.log[..p][p - 1];
    }
  }

  // The follower accepts exactly when the logs agree up to the anchor, and has
  // then caught up and committed as far as the leader says; otherwise its log
  // stays as it is.
  ghost predicate Answered(leader: Node, f: Node, f': Node, req: AppendRequest, success: bool) {
    && success == Agree(leader.log, f.log, req.prevLogIndex)
    && f'.log == (if success then CaughtUp(leader.log, f.log) else f.log)
    && f'.commitIndex == (if success then Max(f.commitIndex, Min(req.leaderCommit, |leader.log|)) else f.commitIndex)
    && f'.term == leader.term && f'.logBase == 0 && f'.lastApplied == f.lastApplied
  }

  lemma FollowerAnswer(leader: Node, follower: Node, peer: int, req: AppendRequest)
    requires Stable(leader, follower, peer)
    requires req.term == leader.term && 0 <= req.prevLogIndex <= |leader.log| && req.entries == leader.log[req.prevLogIndex..]
    requires req.prevLogIndex > 0 ==> req.prevLogTerm == leader.log[req.prevLogIndex - 1].term
    ensures InContract(follower, req)
    ensures var (f, r) := HandleAppendEntries(follower, req, true);
            r.Some? && r.value.term == leader.term && Answered(leader, follower, f, req, r.value.success)
  {
    AnchoredExactly(leader, follower, peer, req);
    AcceptsExactly(follower, req, true);
    AppendTakes(follower, req, true);
    if Anchored(follower, req) {
      AcceptedPrefix(follower.log, leader.log, req.prevLogIndex);
      TakesMerge(follower, HandleAppendEntries(follower, req, true).0, req);
    }
  }

  lemma TakesMerge(n: Node, n': Node, req: AppendRequest)
    requires Anchored(n, req) && n.logBase == 0 <= req.prevLogIndex && TakesLog(n, n', req, Adds(n, req), true)
    ensures req.prevLogIndex <= |n.log| && n'.log == Merge(n.log, req.prevLogIndex, req.entries)
  {
    FirstNewMissing(n.log, req.prevLogIndex, req.entries);
  }

  // One round: either done, or one step further back.
  lemma RoundOutcome(l: Node, f: Node, peer: int, success: bool, l': Node, f': Node)
    requires Stable(l, f, peer) && l'.log == l.log && l'.logBase == l.logBase && l'.role == Leader && l'.term == l.term
    requires f'.term == l.term && f'.logBase == 0
    requires var p := l.peers[peer];
             l'.peers == l.peers[peer := if success then Peer(|l.log| + 1, |l.log|)
                                         else p.(nextIndex := if p.nextIndex > 1 then p.nextIndex - 1 else 1)]
    requires !success ==> f'.log == f.log && l.peers[peer].nextIndex > 1
    ensures !success ==> Stable(l', f', peer) && l'.peers[peer].nextIndex == l.peers[peer].nextIndex - 1
  {
  }

  // One sendAppendEntries with the follower's answer.
  method SendOnce(l: Node, f: Node, peer: int, commitIdx: int) returns (l': Node, f': Node, success: bool)
    requires Stable(l, f, peer)
    ensures l'.log == l.log && l'.role == Leader && l'.term == l.term && f'.term == l.term
    ensures peer in l'.peers && l'.peers == l.peers[peer := l'.peers[peer]]
    ensures success == Agree(l.log, f.log, l.peers[peer].nextIndex - 1)
    ensures success ==> f'.log == CaughtUp(l.log, f.log) && l'.peers[peer] == Peer(|l.log| + 1, |l.log|)
    ensures !success ==>
              Stable(l', f', peer) && l'.peers[peer].nextIndex == l.peers[peer].nextIndex - 1 && f'.log == f.log
  {
    var req := Build(l, f, peer, commitIdx);
    var reply;
    f', reply := Answer(l, f, peer, req);
    l' := Learn(l, peer, req, reply);
    success := reply.success;
    RoundOutcome(l, f, peer, success, l', f');
  }

  method Build(l: Node, f: Node, peer: int, commitIdx: int) returns (req: AppendRequest)
    requires Stable(l, f, peer)
    ensures var prev := l.peers[peer].nextIndex - 1;
            req == AppendRequest(l.term, l.id, prev, if prev > 0 then l.log[prev - 1].term else 0, l.log[prev..], commitIdx)
  {
    BuiltRequest(l, f, peer, commitIdx);
    return BuildAppend(l, peer, l.term, commitIdx).req;
  }

  method Answer(l: Node, f: Node, peer: int, req: AppendRequest) returns (f': Node, reply: AppendReply)
    requires Stable(l, f, peer)
    requires req.term == l.term && 0 <= req.prevLogIndex <= |l.log| && req.entries == l.log[req.prevLogIndex..]
    requires req.prevLogIndex > 0 ==> req.prevLogTerm == l.log[req.prevLogIndex - 1].term
    ensures reply == AppendReply(l.term, Agree(l.log, f.log, req.prevLogIndex)) && f'.term == l.term && f'.logBase == 0
    ensures f'.log == if reply.success then CaughtUp(l.log, f.log) else f.log
  {
    FollowerAnswer(l, f, peer, req);
    var (next, r) := HandleAppendEntries(f, req, true);
    return next, r.value;
  }

  // Only this peer's entry changes.
  method Learn(l: Node, peer: int, req: AppendRequest, reply: AppendReply) returns (l': Node)
    requires l.role == Leader && peer in l.peers && req.term == l.term == reply.term
    requires 1 <= l.peers[peer].nextIndex && l.peers[peer].matchIndex <= req.prevLogIndex + |req.entries|
    ensures l'.log == l.log && l'.logBase == l.logBase && l'.role == Leader && l'.term == l.term
    ensures var p, upTo := l.peers[peer], req.prevLogIndex + |req.entries|;
            l'.peers == l.peers[peer := if reply.success then Peer(upTo + 1, upTo)
                                        else p.(nextIndex := if p.nextIndex > 1 then p.nextIndex - 1 else 1)]
  {
    return HandleAppendReply(l, peer, req, reply);
  }

  // g is the greatest index below `next` through which the logs agree.
  ghost predicate GreatestAgreed(a: seq<Entry>, b: seq<Entry>, next: int, g: int) {
    0 <= g < next && Agree(a, b, g) && forall k :: g < k < next ==> !Agree(a, b, k)
  }

  // There are as many rejections as there are indexes between nextIndex - 1 and
  // the greatest one the logs agree through; then the follower has caught up,
  // and matchIndex is the length of the leader's log.
  method CatchUp(leader: Node, follower: Node, peer: int, commitIdx: int)
    returns (l: Node, f: Node, rejections: nat)
    requires Stable(leader, follower, peer)
    ensures GreatestAgreed(leader.log, follower.log, leader.peers[peer].nextIndex, leader.peers[peer].nextIndex - 1 - rejections)
    ensures f.log == CaughtUp(leader.log, follower.log) && f.term == leader.term
    ensures l.log == leader.log && l.role == Leader && l.term == leader.term && peer in l.peers
    ensures l.peers == leader.peers[peer := Peer(|leader.log| + 1, |leader.log|)]
  {
    l, f, rejections := leader, follower, 0;
    var done := false;
    var next := leader.peers[peer].nextIndex;
    while !done
      invariant l.log == leader.log && l.role == Leader && l.term == leader.term && peer in l.peers
      invariant l.peers == leader.peers[peer := l.peers[peer]]
      invariant !done ==> Stable(l, f, peer) && rejections == next - l.peers[peer].nextIndex && f.log == follower.log
      invariant forall k :: next - 1 - rejections < k < next ==> !Agree(leader.log, follower.log, k)
      invariant done ==>
        && Agree(leader.log, follower.log, next - 1 - rejections) && f.log == CaughtUp(leader.log, follower.log)
        && f.term == leader.term && l.peers[peer] == Peer(|leader.log| + 1, |leader.log|)
      invariant rejections <= next - 1
      decreases !done, l.peers[peer].nextIndex
    {
      l, f, done := SendOnce(l, f, peer, commitIdx);
      if !done {
        rejections := rejections + 1;
      }
    }
  }
}
