// What a vote is given for, how votes are counted, and how a node follows the
// terms it hears of (raft/election.go), apart from any cluster.
module ElectionSpec {
  import opened KvTypes
  import opened RaftTypes
  import opened NodeSpec
  import opened Cluster
  import opened ReplicationSpec

  // ---- Which log is newer ----

  ghost predicate Positive(log: seq<Entry>) {
    forall k :: 0 <= k < |log| ==> log[k].index >= 1 && log[k].term >= 1
  }

  // The last entries are compared by term, then by index; an empty log is older
  // than any other.
  ghost predicate NotOlder(a: seq<Entry>, b: seq<Entry>) {
    || b == []
    || (&& a != []
        && var x, y := a[|a| - 1], b[|b| - 1];
           x.term > y.term || (x.term == y.term && x.index >= y.index))
  }

  // Of any two logs one is not older, and this is transitive: some node of
  // every cluster has a log that is not older than any other.
  lemma NotOlderOrders(a: seq<Entry>, b: seq<Entry>, c: seq<Entry>)
    ensures NotOlder(a, b) || NotOlder(b, a)
    ensures NotOlder(a, b) && NotOlder(b, c) ==> NotOlder(a, c)
  {
  }

  // The request speaks of this log.
  ghost predicate Describes(req: VoteRequest, log: seq<Entry>) {
    if log == [] then req.lastLogIndex == 0 && req.lastLogTerm == 0
    else req.lastLogIndex == log[|log| - 1].index && req.lastLogTerm == log[|log| - 1].term
  }

  // What sendRequestVote sends describes the candidate's log, in its name and
  // in the term of its election.
  lemma AskDescribes(s: State, c: Call)
    requires Enabled(s, AskVote(c), true)
    ensures exists req ::
              && DoAskVote(s, c) == s.(net := s.net.(voteMsgs := s.net.voteMsgs + {VoteMsg(c, req)}))
              && req.term == c.term && req.candidate == c.candidate && Describes(req, s.nodes[c.candidate].log)
  {
    var (lastIdx, lastTerm) := LastLogInfo(s.nodes[c.candidate].log);
    var req := VoteRequest(c.term, c.candidate, lastIdx, lastTerm);
    assert Describes(req, s.nodes[c.candidate].log);
  }

  // ---- Granting a vote ----

  // The voter has not voted for another candidate in this term, or gone past it.
  ghost predicate Free(n: Node, term: int, candidate: int) {
    n.term < term || (n.term == term && (n.votedFor == NO_ONE || n.votedFor == candidate))
  }

  // A vote is due exactly when the voter is free and the candidate's log is not
  // older; it is given unless it cannot be saved, and then there is no answer.
  lemma GrantsExactly(n: Node, log: seq<Entry>, req: VoteRequest, ok: bool)
    requires Positive(n.log) && Positive(log) && Describes(req, log)
    ensures var due := Free(n, req.term, req.candidate) && NotOlder(log, n.log);
            && HandleRequestVote(n, req, ok).1 ==
                 (if due && !ok then None else Some(VoteReply(Max(n.term, req.term), due)))
            && VoteKept(n, HandleRequestVote(n, req, ok).0, req, due && ok)
  {
  }

  // A newer term makes the voter a follower of it; beyond that only the vote
  // and the file change, and those only for a vote. The file gets the term, but
  // the vote as it was before.
  ghost predicate VoteKept(n: Node, n': Node, req: VoteRequest, voted: bool) {
    var vote := if req.term > n.term then NO_ONE else n.votedFor;
    && n' == n.(term := Max(n.term, req.term), votedFor := n'.votedFor, role := n'.role, disk := n'.disk)
    && n'.votedFor == (if voted then req.candidate else vote)
    && n'.role == (if req.term > n.term then Follower else n.role)
    && n'.disk == if voted then n.disk.(saved := Some(SavedState(req.term, vote, n.log))) else n.disk
  }

  // ---- Counting votes ----

  // A vote counts once the candidate still stands in that term, and elects it
  // when the votes are more than half of its peers.
  lemma CountsExactly(n: Node, term: int, reply: VoteReply)
    ensures var counts := n.role == Candidate && n.term == term && reply.granted && reply.term <= term;
            && (CountVote(n, term, reply).1 <==> counts && 2 * (n.votes + 1) > |n.peers|)
            && (counts ==> CountVote(n, term, reply).0 == n.(votes := n.votes + 1))
            && (!counts && reply.term <= n.term ==> CountVote(n, term, reply).0 == n)
  {
  }

  // ---- Campaigning ----

  // Whoever does not lead stands in the next term with its own vote, and asks
  // for others once that is saved.
  lemma CampaignsExactly(n: Node, ok: bool)
    ensures var (c, asks) := BecomeCandidate(n, ok);
            if n.role == Leader then c == n && !asks
            else
              && asks == ok && c.role == Candidate && c.term == n.term + 1 && c.votedFor == n.id && c.votes == 1
              && c == n.(role := c.role, term := c.term, votedFor := c.votedFor, votes := c.votes, leaderId := NO_ONE, disk := c.disk)
              && c.disk == if ok then n.disk.(saved := Some(SavedState(c.term, c.votedFor, n.log))) else n.disk
  {
  }

  // ---- Becoming leader ----

  // A new leader expects nothing of its peers. It begins with the entry after
  // its last one exactly when it has an entry or has not compacted; otherwise
  // with the first.
  lemma LeaderBeginsExactly(n: Node, p: int)
    requires n.role == Candidate && p in n.peers
    requires n.log != [] ==> n.log[|n.log| - 1].index == LastIndex(n)
    ensures var l := BecomeLeader(n);
            && l == n.(role := Leader, leaderId := n.id, peers := l.peers)
            && l.peers.Keys == n.peers.Keys && l.peers[p].matchIndex == 0
            && (l.peers[p].nextIndex == LastIndex(n) + 1 <==> n.log != [] || n.logBase == 0)
            && (n.log == [] ==> l.peers[p].nextIndex == 1)
  {
  }

  // ---- Terms ----

  // A node with this term, as it was otherwise, that follows nobody.
  ghost predicate Deposed(n: Node, n': Node, term: int) {
    n' == n.(term := term, role := Follower, votedFor := NO_ONE, leaderId := NO_ONE, votes := 0)
  }

  // The paper's rule for all servers is that who hears of a newer term adopts it
  // and becomes a follower.
  // A vote reply is listened to only by a candidate of the term it was asked
  // in, and an append reply only by a leader of that term: the rule holds of
  // them exactly then, and otherwise the newer term is missed.
  lemma VoteRepliesAdoptExactly(n: Node, term: int, reply: VoteReply)
    requires reply.term > n.term
    ensures var n' := CountVote(n, term, reply).0;
            if n.role == Candidate && n.term == term then Deposed(n, n', reply.term) else n' == n
  {
  }

  lemma AppendRepliesAdoptExactly(n: Node, peer: int, req: AppendRequest, reply: AppendReply)
    requires reply.term > n.term && peer in n.peers
    ensures var n' := HandleAppendReply(n, peer, req, reply);
            if n.role == Leader && n.term == req.term then Deposed(n, n', reply.term) else n' == n
  {
  }
}
