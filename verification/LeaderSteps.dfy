// Leaders: at most one per term, and the log each one stands for.
module LeaderSteps {
  import opened KvTypes
  import opened RaftTypes
  import opened Cluster
  import opened ClusterInvariant
  import opened ClusterEffects
  import opened Quorums

  // Two leaders of one term would share a voter.
  lemma OneLeader(nodes: map<int, Node>, net: Network, h: History)
    requires GrantedOk(nodes, h) && ElectedOk(nodes, net, h) && SafeSize(|nodes|)
    ensures OneLeaderPerTerm(h.leaders)
  {
    forall a, b, t | (a, t) in h.leaders && (b, t) in h.leaders
      ensures a == b
    {
      SameWinner(nodes, h, a, b, t);
    }
  }

  lemma SameWinner(nodes: map<int, Node>, h: History, a: int, b: int, t: int)
    requires GrantedOk(nodes, h) && SafeSize(|nodes|)
    requires Elected(nodes, h, a, t) && Elected(nodes, h, b, t)
    ensures a == b
  {
    assert |nodes.Keys| == |nodes|;
    var v := VoteMeetsVote(nodes.Keys, h.granted[(a, t)], h.granted[(b, t)]);
  }

  // A candidate about to be promoted is the first winner of its term.
  lemma CrownsNewTerm(s: State, s': State, i: int)
    requires GrantedOk(s.nodes, s.hist) && ElectedOk(s.nodes, s.net, s.hist) && SafeSize(|s.nodes|)
    requires LeadersOk(s.nodes, s.hist) && Crowns(s, s', i)
    ensures s.nodes[i].term !in s.hist.leaderLog
  {
    var t := s.nodes[i].term;
    if t in s.hist.leaderLog {
      var c :| (c, t) in s.hist.leaders;
      SameWinner(s.nodes, s.hist, i, c, t);
    }
  }

  // ---- LeadersOk ----

  // No node becomes leader; a leader that keeps its term keeps its log.
  ghost predicate SameReign(n: Node, n': Node) {
    && n.term <= n'.term
    && (n'.role == Leader ==> n.role == Leader && n'.term == n.term)
    && (n.role == Leader && n'.term == n.term ==> n'.role == Leader && n'.log == n.log)
  }

  ghost predicate SameReigns(nodes: map<int, Node>, nodes': map<int, Node>) {
    nodes'.Keys == nodes.Keys && forall j :: j in nodes ==> SameReign(nodes[j], nodes'[j])
  }

  lemma LeadersKept(nodes: map<int, Node>, nodes': map<int, Node>, h: History, h': History)
    requires LeadersOk(nodes, h) && SameReigns(nodes, nodes')
    requires h'.leaders == h.leaders && h'.leaderLog == h.leaderLog
    ensures LeadersOk(nodes', h')
  {
  }

  lemma CrownsLeaders(s: State, s': State, i: int)
    requires LeadersOk(s.nodes, s.hist) && Crowns(s, s', i)
    requires s.nodes[i].term !in s.hist.leaderLog
    ensures LeadersOk(s'.nodes, s'.hist)
  {
    assert (i, s.nodes[i].term) in s'.hist.leaders;
  }

  lemma ExtendsLeaders(s: State, s': State, i: int, cmd: Command)
    requires LeadersOk(s.nodes, s.hist) && OneLeaderPerTerm(s.hist.leaders) && Extends(s, s', i, cmd)
    ensures LeadersOk(s'.nodes, s'.hist)
  {
  }
}
