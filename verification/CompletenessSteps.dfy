// Why a new leader has what earlier terms committed: the log comparison in
// RequestVote hands every confirmed entry from voter to candidate.
module CompletenessSteps {
  import opened RaftTypes
  import opened NodeSpec
  import opened Cluster
  import opened ClusterInvariant
  import opened ClusterEffects
  import opened ReplicationSteps

  // ---- The comparison ----

  // A candidate log that passes the comparison against a voter's log holds
  // whatever own-term prefix the voter holds, or a leader in between lacks it.
  lemma ComparisonInherits(voter: seq<Entry>, cand: seq<Entry>, ll: Logs, t: int, n: nat, t': int, req: VoteRequest)
    requires Follows(voter, ll) && Follows(cand, ll) && LeaderLogsOk(ll)
    requires LogShape(cand, t') && t' !in ll
    requires LogShape(voter, if voter == [] then 0 else voter[|voter| - 1].term)
    requires (req.lastLogIndex, req.lastLogTerm) == LastLogInfo(cand) && UpToDate(req, voter)
    requires t in ll && 1 <= n <= |ll[t]| && ll[t][n - 1].term == t && ll[t][..n] <= voter
    ensures Inherits(cand, ll, t, n, t')
  {
    assert voter[n - 1] == ll[t][..n][n - 1];
    var c := |cand| - 1;
    var s := cand[c].term;
    assert FollowsAt(cand, ll, c);
    if s == voter[|voter| - 1].term {
      assert FollowsAt(voter, ll, |voter| - 1);
      assert voter == ll[s][..|voter|] && cand == ll[s][..|cand|];
    } else if ll[t][..n] <= ll[s] {
      assert ll[s][n - 1].term == t < s == ll[s][c].term;
      assert n - 1 <= c;
      assert ll[t][..n] <= ll[s][..c + 1] == cand;
    } else {
      assert s <= t' - 1 && Lacks(ll, t, n, s);
    }
  }

  // ---- Elections that stay open ----

  ghost predicate NoneOpened(nodes: map<int, Node>, nodes': map<int, Node>, ll: Logs, ll': Logs) {
    forall c, t :: Running(nodes', ll', c, t) ==> Running(nodes, ll, c, t) && nodes'[c].log == nodes[c].log
  }

  lemma InfoKept(nodes: map<int, Node>, nodes': map<int, Node>, net: Network, net': Network, ll: Logs, ll': Logs)
    requires VoteInfoOk(nodes, net, ll) && NoneOpened(nodes, nodes', ll, ll') && net'.voteMsgs == net.voteMsgs
    ensures VoteInfoOk(nodes', net', ll')
  {
  }

  lemma CampaignInfo(s: State, s': State, i: int)
    requires VoteInfoOk(s.nodes, s.net, s.hist.leaderLog) && CallsOk(s.nodes, s.net, s.hist) && Campaigns(s, s', i)
    ensures VoteInfoOk(s'.nodes, s'.net, s'.hist.leaderLog)
  {
  }

  lemma AskInfo(s: State, s': State, c: Call)
    requires VoteInfoOk(s.nodes, s.net, s.hist.leaderLog) && Asks(s, s', c)
    ensures VoteInfoOk(s'.nodes, s'.net, s'.hist.leaderLog)
  {
  }

  // ---- Voters ----

  // New confirmations concern the node's own current term only.
  ghost predicate OnlyCurrentAcks(nodes: map<int, Node>, h: History, h': History) {
    && LogsGrow(h.leaderLog, h'.leaderLog)
    && (forall v, t :: (v, t) in h'.acks && v in nodes && t < nodes[v].term ==>
          (v, t) in h.acks && h'.acks[(v, t)] == h.acks[(v, t)])
  }

  lemma OldOwnAck(nodes: map<int, Node>, h: History, h': History, v: int, t: int, n: nat)
    requires AcksShape(nodes, h) && OnlyCurrentAcks(nodes, h, h')
    requires v in nodes && t < nodes[v].term && OwnAck(h', v, t, n)
    ensures OwnAck(h, v, t, n)
  {
  }

  lemma InheritsForever(log: seq<Entry>, log': seq<Entry>, ll: Logs, ll': Logs, t: int, n: nat, t': int)
    requires LogsGrow(ll, ll') && t in ll && LogShape(ll[t], t) && n <= |ll[t]|
    requires log <= log' && Inherits(log, ll, t, n, t')
    ensures n <= |ll'[t]| && Inherits(log', ll', t, n, t')
  {
    assert ll'[t][..n] == ll[t][..n];
    if Overruled(ll, t, n, t' - 1) {
      OverruledForever(ll, ll', t, n, t' - 1, t' - 1);
    }
  }

  lemma VotersKept(nodes: map<int, Node>, nodes': map<int, Node>, h: History, h': History)
    requires VotersOk(nodes, h) && VotesOk(nodes, h.votes) && LeaderLogsOk(h.leaderLog) && AcksShape(nodes, h)
    requires OnlyCurrentAcks(nodes, h, h') && NoneOpened(nodes, nodes', h.leaderLog, h'.leaderLog)
    requires h'.votes == h.votes
    ensures VotersOk(nodes', h')
  {
    forall v, t', t, n: nat |
      (v, t') in h'.votes && Running(nodes', h'.leaderLog, h'.votes[(v, t')], t') && OwnAck(h', v, t, n) && t < t'
      ensures Inherits(nodes'[h'.votes[(v, t')]].log, h'.leaderLog, t, n, t')
    {
      OldOwnAck(nodes, h, h', v, t, n);
      var c := h.votes[(v, t')];
      assert Running(nodes, h.leaderLog, c, t');
      InheritsForever(nodes[c].log, nodes'[c].log, h.leaderLog, h'.leaderLog, t, n, t');
    }
  }

  lemma CampaignVoters(s: State, s': State, i: int)
    requires VotersOk(s.nodes, s.hist) && VotesOk(s.nodes, s.hist.votes) && AcksOk(s.nodes, s.hist)
    requires Campaigns(s, s', i)
    ensures VotersOk(s'.nodes, s'.hist)
  {
    var h, h', t1 := s.hist, s'.hist, s'.nodes[i].term;
    forall v, t', t, n: nat |
      (v, t') in h'.votes && Running(s'.nodes, h'.leaderLog, h'.votes[(v, t')], t') && OwnAck(h', v, t, n) && t < t'
      ensures Inherits(s'.nodes[h'.votes[(v, t')]].log, h'.leaderLog, t, n, t')
    {
      if (v, t') == (i, t1) {
        assert Retains(s.nodes[i], h.leaderLog, t, n);
      } else {
        assert h.votes[(v, t')] != i || t' != t1;
        assert Running(s.nodes, h.leaderLog, h.votes[(v, t')], t') && OwnAck(h, v, t, n);
      }
    }
  }

  lemma NewVoter(s: State, s': State, m: VoteMsg, t: int, n: nat)
    requires LogsOk(s.nodes, s.hist.leaderLog) && LeaderLogsOk(s.hist.leaderLog) && AcksOk(s.nodes, s.hist)
    requires CallsOk(s.nodes, s.net, s.hist) && VoteInfoOk(s.nodes, s.net, s.hist.leaderLog)
    requires Votes(s, s', m) && Running(s'.nodes, s'.hist.leaderLog, m.req.candidate, m.req.term)
    requires OwnAck(s.hist, m.call.peer, t, n) && t < m.req.term
    ensures Inherits(s'.nodes[m.req.candidate].log, s.hist.leaderLog, t, n, m.req.term)
  {
    var v, c, ll := m.call.peer, m.req.candidate, s.hist.leaderLog;
    assert Running(s.nodes, ll, c, m.req.term);
    assert Retains(s.nodes[v], ll, t, n);
    if ll[t][..n] <= s.nodes[v].log {
      ComparisonInherits(s.nodes[v].log, s.nodes[c].log, ll, t, n, m.req.term, m.req);
    } else {
      var u :| u <= s.nodes[v].term && Lacks(ll, t, n, u);
      assert u <= m.req.term - 1 && Lacks(ll, t, n, u);
    }
  }

  lemma VoteVoters(s: State, s': State, m: VoteMsg)
    requires LogsOk(s.nodes, s.hist.leaderLog) && LeaderLogsOk(s.hist.leaderLog) && AcksOk(s.nodes, s.hist)
    requires CallsOk(s.nodes, s.net, s.hist) && VoteInfoOk(s.nodes, s.net, s.hist.leaderLog)
    requires VotersOk(s.nodes, s.hist) && Votes(s, s', m)
    ensures VotersOk(s'.nodes, s'.hist)
  {
    var h, h' := s.hist, s'.hist;
    forall v, t', t, n: nat |
      (v, t') in h'.votes && Running(s'.nodes, h'.leaderLog, h'.votes[(v, t')], t') && OwnAck(h', v, t, n) && t < t'
      ensures Inherits(s'.nodes[h'.votes[(v, t')]].log, h'.leaderLog, t, n, t')
    {
      assert OwnAck(h, v, t, n);
      if (v, t') == (m.call.peer, m.req.term) {
        NewVoter(s, s', m, t, n);
      } else {
        assert Running(s.nodes, h.leaderLog, h.votes[(v, t')], t');
      }
    }
  }

  // ---- Electors ----

  lemma ElectorsKept(nodes: map<int, Node>, h: History, h': History)
    requires ElectorsOk(h) && VotesOk(nodes, h.votes) && GrantedOk(nodes, h)
    requires LeaderLogsOk(h.leaderLog) && AcksShape(nodes, h) && OnlyCurrentAcks(nodes, h, h')
    requires h'.leaders == h.leaders && h'.leaderLog.Keys == h.leaderLog.Keys
    requires forall c, t :: (c, t) in h.leaders && (c, t) in h'.granted ==>
               (c, t) in h.granted && h'.granted[(c, t)] == h.granted[(c, t)]
    ensures ElectorsOk(h')
  {
    forall c, t', v, t, n: nat |
      (c, t') in h'.leaders && (c, t') in h'.granted && v in h'.granted[(c, t')] && OwnAck(h', v, t, n) && t < t' && t' in h'.leaderLog
      ensures Inherits(h'.leaderLog[t'], h'.leaderLog, t, n, t')
    {
      assert (v, t') in h.votes;
      OldOwnAck(nodes, h, h', v, t, n);
      InheritsForever(h.leaderLog[t'], h'.leaderLog[t'], h.leaderLog, h'.leaderLog, t, n, t');
    }
  }

  lemma CrownsElectors(s: State, s': State, i: int)
    requires ElectorsOk(s.hist) && VotersOk(s.nodes, s.hist)
    requires VotesOk(s.nodes, s.hist.votes) && GrantedOk(s.nodes, s.hist) && LeadersOk(s.nodes, s.hist)
    requires LeaderLogsOk(s.hist.leaderLog) && AcksShape(s.nodes, s.hist)
    requires Crowns(s, s', i) && s.nodes[i].term !in s.hist.leaderLog
    requires OnlyCurrentAcks(s.nodes, s.hist, s'.hist)
    ensures ElectorsOk(s'.hist)
  {
    var h, h', t1 := s.hist, s'.hist, s.nodes[i].term;
    forall c, t', v, t, n: nat |
      (c, t') in h'.leaders && (c, t') in h'.granted && v in h'.granted[(c, t')] && OwnAck(h', v, t, n) && t < t' && t' in h'.leaderLog
      ensures Inherits(h'.leaderLog[t'], h'.leaderLog, t, n, t')
    {
      assert (v, t') in h.votes && h.votes[(v, t')] == c;
      OldOwnAck(s.nodes, h, h', v, t, n);
      if (c, t') == (i, t1) {
        assert Running(s.nodes, h.leaderLog, i, t1);
        InheritsForever(s.nodes[i].log, h'.leaderLog[t1], h.leaderLog, h'.leaderLog, t, n, t1);
      } else {
        InheritsForever(h.leaderLog[t'], h'.leaderLog[t'], h.leaderLog, h'.leaderLog, t, n, t');
      }
    }
  }
}
