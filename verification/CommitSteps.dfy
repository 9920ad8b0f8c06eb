// Commitment: what a leader's count establishes, and that nothing undoes it.
module CommitSteps {
  import opened RaftTypes
  import opened Cluster
  import opened ClusterInvariant
  import opened ClusterEffects
  import opened Quorums
  import opened ReplicationSteps

  // ---- Leader completeness ----

  // An entry committed in term t is in the log of every later leader: that
  // leader's voters and the entry's confirmers share a node.
  lemma {:induction false} CommittedInherited(nodes: map<int, Node>, net: Network, h: History, t: int, n: nat, t': int)
    requires GrantedOk(nodes, h) && ElectedOk(nodes, net, h) && LeadersOk(nodes, h) && ElectorsOk(h)
    requires CommitOk(nodes, h, t, n) && t < t' && t' in h.leaderLog
    ensures h.leaderLog[t][..n] <= h.leaderLog[t']
    decreases t' - t
  {
    var ll := h.leaderLog;
    var c :| (c, t') in h.leaders;
    assert Elected(nodes, h, c, t');
    assert |nodes.Keys| == |nodes|;
    var v := VoteMeetsCommit(nodes.Keys, h.granted[(c, t')], Ackers(nodes, h.acks, t, n));
    assert OwnAck(h, v, t, n);
    assert Inherits(ll[t'], ll, t, n, t');
    if !(ll[t][..n] <= ll[t']) {
      var u :| u <= t' - 1 && Lacks(ll, t, n, u);
      CommittedInherited(nodes, net, h, t, n, u);
      assert false;
    }
  }

  // The same with the committing term included.
  lemma CommittedHeld(nodes: map<int, Node>, net: Network, h: History, t: int, n: nat, t': int)
    requires GrantedOk(nodes, h) && ElectedOk(nodes, net, h) && LeadersOk(nodes, h) && ElectorsOk(h)
    requires CommitOk(nodes, h, t, n) && t <= t' && t' in h.leaderLog
    ensures h.leaderLog[t][..n] <= h.leaderLog[t']
  {
    if t < t' {
      CommittedInherited(nodes, net, h, t, n, t');
    }
  }

  // ---- CommitsOk ----

  lemma CommitStable(nodes: map<int, Node>, nodes': map<int, Node>, h: History, h': History, t: int, n: nat)
    requires CommitOk(nodes, h, t, n) && nodes'.Keys == nodes.Keys
    requires LogsGrow(h.leaderLog, h'.leaderLog) && AcksGrow(h.acks, h'.acks)
    ensures CommitOk(nodes', h', t, n)
  {
    assert |nodes'| == |nodes'.Keys| == |nodes|;
    Within(Ackers(nodes', h'.acks, t, n), Ackers(nodes, h.acks, t, n));
  }

  lemma CommitsKept(nodes: map<int, Node>, nodes': map<int, Node>, h: History, h': History)
    requires CommitsOk(nodes, h) && nodes'.Keys == nodes.Keys && h'.committed == h.committed
    requires LogsGrow(h.leaderLog, h'.leaderLog) && AcksGrow(h.acks, h'.acks)
    ensures CommitsOk(nodes', h')
  {
    forall t, n | (t, n) in h'.committed
      ensures CommitOk(nodes', h', t, n)
    {
      CommitStable(nodes, nodes', h, h', t, n);
    }
  }

  // The count behind a leader's commit is a majority of confirmations.
  lemma CountedCommit(nodes: map<int, Node>, h: History, i: int)
    requires WellFormed(nodes) && MatchOk(nodes, h) && LeadersOk(nodes, h)
    requires i in nodes && nodes[i].role == Leader
    requires 1 <= nodes[i].commitIndex <= |nodes[i].log|
    requires nodes[i].log[nodes[i].commitIndex - 1].term == nodes[i].term
    requires 2 * (1 + |set p | p in nodes[i].peers && nodes[i].peers[p].matchIndex >= nodes[i].commitIndex|) > |nodes[i].peers| + 1
    ensures CommitOk(nodes, h, nodes[i].term, nodes[i].commitIndex)
  {
    var n := nodes[i];
    var k := n.commitIndex;
    var matched := set p | p in n.peers && n.peers[p].matchIndex >= k;
    var ackers := Ackers(nodes, h.acks, n.term, k);
    assert i !in matched && |matched + {i}| == |matched| + 1;
    assert forall p :: p in matched ==> p in n.peers.Keys;
    assert matched + {i} <= ackers;
    Within(ackers, matched + {i});
    assert |n.peers| == |n.peers.Keys| == |nodes.Keys| - 1;
    assert (i, n.term) in h.leaders;
  }

  lemma NotedCommits(nodes: map<int, Node>, nodes': map<int, Node>, h: History, h': History, i: int)
    requires CommitsOk(nodes, h) && nodes'.Keys == nodes.Keys
    requires LogsGrow(h.leaderLog, h'.leaderLog) && AcksGrow(h.acks, h'.acks)
    requires WellFormed(nodes') && MatchOk(nodes', h') && LeadersOk(nodes', h')
    requires i in nodes && nodes'[i].role == Leader && CommitsBy(nodes[i], nodes'[i])
    requires h'.committed == if nodes'[i].commitIndex > nodes[i].commitIndex
                             then h.committed + {(nodes'[i].term, nodes'[i].commitIndex)} else h.committed
    ensures CommitsOk(nodes', h')
  {
    forall t, n | (t, n) in h'.committed
      ensures CommitOk(nodes', h', t, n)
    {
      if (t, n) in h.committed {
        CommitStable(nodes, nodes', h, h', t, n);
      } else {
        CountedCommit(nodes', h', i);
      }
    }
  }

  // ---- NodeCommitsOk and MsgCommitsOk ----

  lemma BackedForever(h: History, h': History, log: seq<Entry>, log': seq<Entry>, k: nat, top: int, top': int)
    requires Backed(h, log, k, top) && top <= top' && log <= log'
    requires LogsGrow(h.leaderLog, h'.leaderLog) && h.committed <= h'.committed
    ensures Backed(h', log', k, top')
  {
    if k > 0 {
      var t, n :| (t, n) in h.committed && k <= n && t <= top && t in h.leaderLog && n <= |h.leaderLog[t]|
                  && log[..k] == h.leaderLog[t][..k];
      assert (t, n) in h'.committed && log'[..k] == h'.leaderLog[t][..k];
    }
  }

  lemma BackedLess(h: History, log: seq<Entry>, k: nat, k': nat, top: int)
    requires Backed(h, log, k, top) && k' <= k
    ensures Backed(h, log, k', top)
  {
    if k' > 0 {
      var t, n :| (t, n) in h.committed && k <= n && t <= top && t in h.leaderLog && n <= |h.leaderLog[t]|
                  && log[..k] == h.leaderLog[t][..k];
      assert log[..k'] == log[..k][..k'] == h.leaderLog[t][..k'];
    }
  }

  // Logs and commit indexes stay or grow; what is committed stays.
  lemma NodeCommitsKept(nodes: map<int, Node>, nodes': map<int, Node>, h: History, h': History)
    requires NodeCommitsOk(nodes, h) && nodes'.Keys == nodes.Keys
    requires forall j :: j in nodes ==> nodes[j].log <= nodes'[j].log && nodes[j].term <= nodes'[j].term
    requires forall j :: j in nodes ==>
               nodes'[j].commitIndex == nodes[j].commitIndex || Backed(h', nodes'[j].log, nodes'[j].commitIndex, nodes'[j].term)
    requires LogsGrow(h.leaderLog, h'.leaderLog) && h.committed <= h'.committed
    ensures NodeCommitsOk(nodes', h')
  {
    forall j | j in nodes'
      ensures Backed(h', nodes'[j].log, nodes'[j].commitIndex, nodes'[j].term)
    {
      BackedForever(h, h', nodes[j].log, nodes'[j].log, nodes[j].commitIndex, nodes[j].term, nodes'[j].term);
    }
  }

  // A leader's new commit index is backed by the record of it.
  lemma NewCommitBacked(nodes: map<int, Node>, h: History, i: int)
    requires LeadersOk(nodes, h) && i in nodes && nodes[i].role == Leader
    requires 1 <= nodes[i].commitIndex <= |nodes[i].log| && (nodes[i].term, nodes[i].commitIndex) in h.committed
    ensures Backed(h, nodes[i].log, nodes[i].commitIndex, nodes[i].term)
  {
    assert (i, nodes[i].term) in h.leaders;
  }

  lemma MsgCommitsKept(net: Network, net': Network, h: History, h': History)
    requires MsgCommitsOk(net, h) && net'.appendMsgs == net.appendMsgs
    requires LogsGrow(h.leaderLog, h'.leaderLog) && h.committed <= h'.committed
    ensures MsgCommitsOk(net', h')
  {
    forall m | m in net'.appendMsgs
      ensures m.req.term in h'.leaderLog && Backed(h', h'.leaderLog[m.req.term], m.req.leaderCommit, m.req.term)
    {
      BackedForever(h, h', h.leaderLog[m.req.term], h'.leaderLog[m.req.term], m.req.leaderCommit, m.req.term, m.req.term);
    }
  }

  lemma SendsMsgCommits(s: State, s': State, i: int, p: int, k: nat)
    requires MsgCommitsOk(s.net, s.hist) && NodeCommitsOk(s.nodes, s.hist) && LeadersOk(s.nodes, s.hist)
    requires Sends(s, s', i, p, k)
    ensures MsgCommitsOk(s'.net, s'.hist)
  {
    forall m | m in s'.net.appendMsgs && m !in s.net.appendMsgs
      ensures m.req.term in s.hist.leaderLog && Backed(s.hist, s.hist.leaderLog[m.req.term], m.req.leaderCommit, m.req.term)
    {
      assert (i, s.nodes[i].term) in s.hist.leaders;
      BackedLess(s.hist, s.nodes[i].log, s.nodes[i].commitIndex, k, s.nodes[i].term);
    }
  }

  // What is backed below the sender's term is a prefix of the sender's log.
  lemma BackedBySender(nodes: map<int, Node>, net: Network, h: History, log: seq<Entry>, k: nat, top: int, u: int)
    requires GrantedOk(nodes, h) && ElectedOk(nodes, net, h) && LeadersOk(nodes, h) && ElectorsOk(h)
    requires CommitsOk(nodes, h) && Backed(h, log, k, top) && top <= u && u in h.leaderLog
    ensures k <= |h.leaderLog[u]| && log[..k] == h.leaderLog[u][..k]
  {
    if k > 0 {
      var t, n := Backing(h, log, k, top);
      CommittedHeld(nodes, net, h, t, n, u);
      ShorterPrefix(h.leaderLog[t], h.leaderLog[u], n, k);
    }
  }

  lemma Backing(h: History, log: seq<Entry>, k: nat, top: int) returns (t: int, n: nat)
    requires Backed(h, log, k, top) && k > 0
    ensures (t, n) in h.committed && k <= n && t <= top && t in h.leaderLog && n <= |h.leaderLog[t]|
    ensures log[..k] == h.leaderLog[t][..k]
  {
    t, n :| (t, n) in h.committed && k <= n && t <= top && t in h.leaderLog && n <= |h.leaderLog[t]|
            && log[..k] == h.leaderLog[t][..k];
  }

  lemma ShorterPrefix(a: seq<Entry>, b: seq<Entry>, n: nat, k: nat)
    requires k <= n <= |a| && a[..n] <= b
    ensures k <= |b| && b[..k] == a[..k]
  {
    assert b[..k] == b[..n][..k] && a[..k] == a[..n][..k];
  }

  // An accepted request keeps the committed prefix and moves the index within backing.
  lemma AdoptCommits(h: History, n: Node, log': seq<Entry>, u: int, upTo: nat, leaderCommit: nat, k': nat)
    requires u in h.leaderLog && n.term <= u && Adopts(n.log, log', h.leaderLog[u], upTo)
    requires Backed(h, n.log, n.commitIndex, n.term)
    requires n.commitIndex <= |h.leaderLog[u]| && n.log[..n.commitIndex] == h.leaderLog[u][..n.commitIndex]
    requires Backed(h, h.leaderLog[u], leaderCommit, u)
    requires k' == n.commitIndex || (k' <= upTo && k' <= leaderCommit)
    ensures n.commitIndex <= |log'| && log'[..n.commitIndex] == n.log[..n.commitIndex]
    ensures Backed(h, log', k', u)
  {
    var w, c := h.leaderLog[u], n.commitIndex;
    assert log' != n.log ==> c <= upTo;
    assert log'[..c] == w[..c];
    if k' == c {
      BackedSame(h, n.log, log', c, n.term, u);
    } else {
      BackedLess(h, w, leaderCommit, k', u);
      assert log'[..k'] == w[..upTo][..k'] == w[..k'];
      BackedSame(h, w, log', k', u, u);
    }
  }

  lemma BackedSame(h: History, log: seq<Entry>, log': seq<Entry>, k: nat, top: int, top': int)
    requires Backed(h, log, k, top) && top <= top' && k <= |log'| && log'[..k] == log[..k]
    ensures Backed(h, log', k, top')
  {
  }

  // What a follower has committed, the sender of a current request has too.
  lemma FollowerBacked(s: State, m: AppendMsg)
    requires GrantedOk(s.nodes, s.hist) && ElectedOk(s.nodes, s.net, s.hist) && LeadersOk(s.nodes, s.hist) && ElectorsOk(s.hist)
    requires CommitsOk(s.nodes, s.hist) && NodeCommitsOk(s.nodes, s.hist)
    requires m.to in s.nodes && s.nodes[m.to].term <= m.req.term && m.req.term in s.hist.leaderLog
    ensures var n, w := s.nodes[m.to], s.hist.leaderLog[m.req.term];
            && n.commitIndex <= |n.log| && n.commitIndex <= |w|
            && n.log[..n.commitIndex] == w[..n.commitIndex]
  {
    var n := s.nodes[m.to];
    assert Backed(s.hist, n.log, n.commitIndex, n.term);
    BackedBySender(s.nodes, s.net, s.hist, n.log, n.commitIndex, n.term, m.req.term);
  }

  lemma AcceptsBacked(s: State, s': State, m: AppendMsg, answered: bool)
    requires NodeCommitsOk(s.nodes, s.hist) && MsgCommitsOk(s.net, s.hist)
    requires Accepts(s, s', m, answered) && m.req.term in s.hist.leaderLog
    requires Adopts(s.nodes[m.to].log, s'.nodes[m.to].log, s.hist.leaderLog[m.req.term], m.req.prevLogIndex + |m.req.entries|)
    requires var n, w := s.nodes[m.to], s.hist.leaderLog[m.req.term];
             && n.commitIndex <= |n.log| && n.commitIndex <= |w|
             && n.log[..n.commitIndex] == w[..n.commitIndex]
    ensures s.nodes[m.to].commitIndex <= |s'.nodes[m.to].log|
    ensures s'.nodes[m.to].log[..s.nodes[m.to].commitIndex] == s.nodes[m.to].log[..s.nodes[m.to].commitIndex]
    ensures Backed(s.hist, s'.nodes[m.to].log, s'.nodes[m.to].commitIndex, s'.nodes[m.to].term)
  {
    var n, n' := s.nodes[m.to], s'.nodes[m.to];
    AdoptCommits(s.hist, n, n'.log, m.req.term, m.req.prevLogIndex + |m.req.entries|, m.req.leaderCommit, n'.commitIndex);
  }

  lemma AcceptsCommits(s: State, s': State, m: AppendMsg, answered: bool)
    requires GrantedOk(s.nodes, s.hist) && ElectedOk(s.nodes, s.net, s.hist) && LeadersOk(s.nodes, s.hist) && ElectorsOk(s.hist)
    requires CommitsOk(s.nodes, s.hist) && NodeCommitsOk(s.nodes, s.hist) && MsgCommitsOk(s.net, s.hist)
    requires Accepts(s, s', m, answered) && m.req.term in s.hist.leaderLog
    requires Adopts(s.nodes[m.to].log, s'.nodes[m.to].log, s.hist.leaderLog[m.req.term], m.req.prevLogIndex + |m.req.entries|)
    ensures NodeCommitsOk(s'.nodes, s'.hist)
    ensures s.nodes[m.to].commitIndex <= |s'.nodes[m.to].log|
    ensures s'.nodes[m.to].log[..s.nodes[m.to].commitIndex] == s.nodes[m.to].log[..s.nodes[m.to].commitIndex]
  {
    FollowerBacked(s, m);
    AcceptsBacked(s, s', m, answered);
    OneMoreBacked(s.nodes, s'.nodes, s.hist, s'.hist, m.to);
  }

  lemma OneMoreBacked(nodes: map<int, Node>, nodes': map<int, Node>, h: History, h': History, i: int)
    requires NodeCommitsOk(nodes, h) && i in nodes && nodes'.Keys == nodes.Keys
    requires forall j :: j in nodes && j != i ==> nodes'[j] == nodes[j]
    requires h'.committed == h.committed && h'.leaderLog == h.leaderLog
    requires Backed(h, nodes'[i].log, nodes'[i].commitIndex, nodes'[i].term)
    ensures NodeCommitsOk(nodes', h')
  {
    forall j | j in nodes'
      ensures Backed(h', nodes'[j].log, nodes'[j].commitIndex, nodes'[j].term)
    {
      assert Backed(h, nodes'[j].log, nodes'[j].commitIndex, nodes'[j].term);
    }
  }

  // ---- DeliveredOk ----

  lemma DeliveredKept(nodes: map<int, Node>, nodes': map<int, Node>)
    requires DeliveredOk(nodes) && nodes'.Keys == nodes.Keys
    requires forall j :: j in nodes ==>
      && LogShape(nodes[j].log, nodes[j].term)
      && nodes[j].commitIndex <= nodes'[j].commitIndex <= |nodes'[j].log|
      && nodes'[j].log[..nodes[j].commitIndex] == nodes[j].log[..nodes[j].commitIndex]
      && DeliversNext(nodes[j], nodes'[j])
    ensures DeliveredOk(nodes')
  {
    forall i | i in nodes'
      ensures |nodes'[i].sent| == nodes'[i].lastApplied <= nodes'[i].commitIndex <= |nodes'[i].log|
      ensures forall k :: 0 <= k < nodes'[i].lastApplied ==>
                nodes'[i].sent[k] == CommandMsg(nodes'[i].log[k].command, k + 1)
    {
      var n, n' := nodes[i], nodes'[i];
      forall k | 0 <= k < n'.lastApplied
        ensures n'.sent[k] == CommandMsg(n'.log[k].command, k + 1)
      {
        assert n'.log[..n.commitIndex][k] == n.log[..n.commitIndex][k];
      }
    }
  }
}
