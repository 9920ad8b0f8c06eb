// Elections: what every step keeps about votes, counts and promotions.
module ElectionSteps {
  import opened RaftTypes
  import opened Cluster
  import opened ClusterInvariant
  import opened ClusterEffects

  ghost predicate ElectionInv(s: State) {
    && WellFormed(s.nodes)
    && VotesOk(s.nodes, s.hist.votes)
    && GrantedOk(s.nodes, s.hist)
    && CallsOk(s.nodes, s.net, s.hist)
    && ElectedOk(s.nodes, s.net, s.hist)
  }

  // ---- Steps that leave elections alone ----

  ghost predicate SameBallot(n: Node, n': Node) {
    && n'.id == n.id && n'.peers.Keys == n.peers.Keys && n'.logBase == n.logBase
    && (SameStanding(n, n') || Retires(n, n'))
  }

  ghost predicate SameBallots(nodes: map<int, Node>, nodes': map<int, Node>) {
    nodes'.Keys == nodes.Keys && forall j :: j in nodes ==> SameBallot(nodes[j], nodes'[j])
  }

  ghost predicate SameElections(h: History, h': History) {
    h'.votes == h.votes && h'.granted == h.granted && h'.leaders == h.leaders
  }

  ghost predicate NoNewVotes(net: Network, net': Network) {
    && net'.calls <= net.calls && net'.promotions <= net.promotions && net'.voteMsgs == net.voteMsgs
    && (forall a :: a in net'.voteAnswers ==> a in net.voteAnswers || !a.reply.granted)
  }

  lemma BallotsKept(nodes: map<int, Node>, nodes': map<int, Node>, votes: map<(int, int), int>)
    requires SameBallots(nodes, nodes')
    ensures WellFormed(nodes) ==> WellFormed(nodes')
    ensures VotesOk(nodes, votes) ==> VotesOk(nodes', votes)
  {
    forall v, t | VotesOk(nodes, votes) && (v, t) in votes
      ensures v in nodes' && t <= nodes'[v].term && votes[(v, t)] in nodes' && t <= nodes'[votes[(v, t)]].term
    {
      var c := votes[(v, t)];
      assert c in nodes && SameBallot(nodes[c], nodes'[c]);
    }
  }

  lemma CountsKept(nodes: map<int, Node>, nodes': map<int, Node>, net: Network, net': Network, h: History, h': History)
    requires SameBallots(nodes, nodes') && SameElections(h, h') && NoNewVotes(net, net')
    ensures GrantedOk(nodes, h) ==> GrantedOk(nodes', h')
    ensures CallsOk(nodes, net, h) ==> CallsOk(nodes', net', h')
    ensures ElectedOk(nodes, net, h) ==> ElectedOk(nodes', net', h')
  {
    assert |nodes'| == |nodes'.Keys| == |nodes|;
  }

  lemma NoElection(s: State, s': State)
    requires ElectionInv(s)
    requires SameBallots(s.nodes, s'.nodes) && SameElections(s.hist, s'.hist) && NoNewVotes(s.net, s'.net)
    ensures ElectionInv(s')
  {
    BallotsKept(s.nodes, s'.nodes, s.hist.votes);
    CountsKept(s.nodes, s'.nodes, s.net, s'.net, s.hist, s'.hist);
  }

  // ---- Becoming a candidate ----

  lemma CampaignVotes(s: State, s': State, i: int)
    requires WellFormed(s.nodes) && VotesOk(s.nodes, s.hist.votes) && Campaigns(s, s', i)
    ensures WellFormed(s'.nodes) && VotesOk(s'.nodes, s'.hist.votes)
    ensures (i, s'.nodes[i].term) !in s.hist.votes
  {
  }

  lemma CampaignGranted(s: State, s': State, i: int)
    requires WellFormed(s.nodes) && GrantedOk(s.nodes, s.hist) && Campaigns(s, s', i)
    requires (i, s'.nodes[i].term) !in s.hist.votes
    ensures (i, s'.nodes[i].term) !in s.hist.granted
    ensures GrantedOk(s'.nodes, s'.hist)
  {
  }

  lemma CampaignCalls(s: State, s': State, i: int)
    requires WellFormed(s.nodes) && CallsOk(s.nodes, s.net, s.hist) && Campaigns(s, s', i)
    requires (i, s'.nodes[i].term) !in s.hist.votes && (i, s'.nodes[i].term) !in s.hist.granted
    ensures CallsOk(s'.nodes, s'.net, s'.hist)
  {
  }

  lemma CampaignElected(s: State, s': State, i: int)
    requires WellFormed(s.nodes) && ElectedOk(s.nodes, s.net, s.hist) && Campaigns(s, s', i)
    requires (i, s'.nodes[i].term) !in s.hist.granted
    ensures ElectedOk(s'.nodes, s'.net, s'.hist)
  {
    assert |s'.nodes| == |s'.nodes.Keys| == |s.nodes|;
    if s.nodes[i].peers == map[] {
      assert s.nodes.Keys - {i} == {};
      assert s.nodes.Keys == {i};
    }
  }

  // ---- Voting ----

  lemma VoteExtends(s: State, s': State, m: VoteMsg)
    requires WellFormed(s.nodes) && VotesOk(s.nodes, s.hist.votes)
    requires CallsOk(s.nodes, s.net, s.hist) && Votes(s, s', m)
    ensures forall k :: k in s.hist.votes ==> k in s'.hist.votes && s'.hist.votes[k] == s.hist.votes[k]
    ensures VotesOk(s'.nodes, s'.hist.votes)
  {
    var key := (m.call.peer, s'.nodes[m.call.peer].term);
    if key in s.hist.votes {
      assert s.hist.votes[key] == m.req.candidate;
    }
  }

  lemma VoteCounts(s: State, s': State, m: VoteMsg)
    requires WellFormed(s.nodes) && GrantedOk(s.nodes, s.hist) && CallsOk(s.nodes, s.net, s.hist)
    requires ElectedOk(s.nodes, s.net, s.hist) && Votes(s, s', m)
    requires forall k :: k in s.hist.votes ==> k in s'.hist.votes && s'.hist.votes[k] == s.hist.votes[k]
    ensures WellFormed(s'.nodes) && GrantedOk(s'.nodes, s'.hist) && CallsOk(s'.nodes, s'.net, s'.hist)
    ensures ElectedOk(s'.nodes, s'.net, s'.hist)
  {
    VoteCountsGranted(s, s', m);
    VoteCountsCalls(s, s', m);
    assert |s'.nodes| == |s'.nodes.Keys| == |s.nodes|;
  }

  lemma VoteCountsGranted(s: State, s': State, m: VoteMsg)
    requires GrantedOk(s.nodes, s.hist) && Votes(s, s', m)
    requires forall k :: k in s.hist.votes ==> k in s'.hist.votes && s'.hist.votes[k] == s.hist.votes[k]
    ensures GrantedOk(s'.nodes, s'.hist)
  {
  }

  lemma VoteCountsCalls(s: State, s': State, m: VoteMsg)
    requires CallsOk(s.nodes, s.net, s.hist) && Votes(s, s', m)
    requires forall k :: k in s.hist.votes ==> k in s'.hist.votes && s'.hist.votes[k] == s.hist.votes[k]
    ensures CallsOk(s'.nodes, s'.net, s'.hist)
  {
  }

  // ---- Counting ----

  lemma CountBallots(s: State, s': State, v: VoteAnswer)
    requires WellFormed(s.nodes) && VotesOk(s.nodes, s.hist.votes) && Counts(s, s', v)
    ensures WellFormed(s'.nodes) && VotesOk(s'.nodes, s'.hist.votes)
  {
  }

  lemma CountGranted(s: State, s': State, v: VoteAnswer)
    requires GrantedOk(s.nodes, s.hist) && CallsOk(s.nodes, s.net, s.hist) && Counts(s, s', v)
    ensures GrantedOk(s'.nodes, s'.hist)
  {
  }

  lemma CountCalls(s: State, s': State, v: VoteAnswer)
    requires CallsOk(s.nodes, s.net, s.hist) && Counts(s, s', v)
    ensures CallsOk(s'.nodes, s'.net, s'.hist)
  {
  }

  // Enough answers make a quorum.
  lemma CountElects(s: State, s': State, v: VoteAnswer)
    requires WellFormed(s.nodes) && GrantedOk(s.nodes, s.hist) && CallsOk(s.nodes, s.net, s.hist) && Counts(s, s', v)
    requires 2 * s'.nodes[v.call.candidate].votes > |s.nodes[v.call.candidate].peers|
    ensures Elected(s'.nodes, s'.hist, v.call.candidate, v.call.term)
  {
    var key := (v.call.candidate, v.call.term);
    var before, after := s.hist.granted[key], s'.hist.granted[key];
    assert after == before + {v.call.peer} && |after| == |before| + 1;
    assert |s'.nodes| == |s'.nodes.Keys| == |s.nodes|;
    assert |s.nodes[v.call.candidate].peers| == |s.nodes[v.call.candidate].peers.Keys| == |s.nodes| - 1;
    assert v.call.candidate in before;
  }

  lemma ElectedKept(s: State, s': State, v: VoteAnswer, c: int, t: int)
    requires CallsOk(s.nodes, s.net, s.hist) && Counts(s, s', v) && Elected(s.nodes, s.hist, c, t)
    ensures Elected(s'.nodes, s'.hist, c, t)
  {
    assert |s'.nodes| == |s'.nodes.Keys| == |s.nodes|;
    var key := (v.call.candidate, v.call.term);
    assert |s'.hist.granted[key]| == |s.hist.granted[key]| + 1;
  }

  lemma CountElected(s: State, s': State, v: VoteAnswer)
    requires WellFormed(s.nodes) && GrantedOk(s.nodes, s.hist) && CallsOk(s.nodes, s.net, s.hist)
    requires ElectedOk(s.nodes, s.net, s.hist) && Counts(s, s', v)
    ensures ElectedOk(s'.nodes, s'.net, s'.hist)
  {
    forall c, t | (c, t) in s'.net.promotions
      ensures Elected(s'.nodes, s'.hist, c, t)
    {
      if (c, t) in s.net.promotions { ElectedKept(s, s', v, c, t); } else { CountElects(s, s', v); }
    }
    forall c, t | (c, t) in s'.hist.leaders
      ensures Elected(s'.nodes, s'.hist, c, t)
    {
      ElectedKept(s, s', v, c, t);
    }
  }
}
