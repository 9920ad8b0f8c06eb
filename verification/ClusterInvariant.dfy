// The inductive invariant of the cluster, one named predicate per idea.
module ClusterInvariant {
  import opened RaftTypes
  import opened NodeSpec
  import opened Cluster

  type Logs = map<int, seq<Entry>>

  // ---- Nodes and logs ----

  ghost predicate WellFormed(nodes: map<int, Node>) {
    forall i :: i in nodes ==>
      && i >= 0
      && nodes[i].id == i
      && nodes[i].peers.Keys == nodes.Keys - {i}
      && nodes[i].logBase == 0
      && nodes[i].term >= 0
  }

  // Indexes count from 1, terms are positive, do not decrease and stay at or below `top`.
  ghost predicate LogShape(log: seq<Entry>, top: int) {
    && (forall k :: 0 <= k < |log| ==> log[k].index == k + 1 && 1 <= log[k].term <= top)
    && (forall j, k :: 0 <= j <= k < |log| ==> log[j].term <= log[k].term)
  }

  ghost predicate FollowsAt(log: seq<Entry>, ll: Logs, k: nat)
    requires k < |log|
  {
    var t := log[k].term;
    t in ll && k < |ll[t]| && log[..k + 1] == ll[t][..k + 1]
  }

  // An entry of term t at index k means the log agrees with t's leader through k.
  ghost predicate Follows(log: seq<Entry>, ll: Logs) {
    forall k :: 0 <= k < |log| ==> FollowsAt(log, ll, k)
  }

  ghost predicate LogsOk(nodes: map<int, Node>, ll: Logs) {
    forall i :: i in nodes ==> LogShape(nodes[i].log, nodes[i].term) && Follows(nodes[i].log, ll)
  }

  ghost predicate LeaderLogsOk(ll: Logs) {
    forall t :: t in ll ==> LogShape(ll[t], t) && Follows(ll[t], ll)
  }

  // Leader logs only grow, by entries of their own term.
  ghost predicate LogsGrow(ll: Logs, ll': Logs) {
    forall t :: t in ll ==>
      && t in ll'
      && ll[t] <= ll'[t]
      && (forall k :: |ll[t]| <= k < |ll'[t]| ==> ll'[t][k].term == t)
  }

  // ---- Votes ----

  ghost predicate VotesOk(nodes: map<int, Node>, votes: map<(int, int), int>) {
    && (forall v, t :: (v, t) in votes ==>
          v in nodes && t <= nodes[v].term && votes[(v, t)] in nodes && t <= nodes[votes[(v, t)]].term)
    && (forall v :: v in nodes ==>
          nodes[v].votedFor == if (v, nodes[v].term) in votes then votes[(v, nodes[v].term)] else NO_ONE)
  }

  // The source tests the threshold only after a peer's vote has come in.
  ghost predicate VoteQuorum(size: nat, count: int) {
    2 * count >= size && (count >= 2 || size == 1)
  }

  ghost predicate GrantedOk(nodes: map<int, Node>, h: History) {
    && (forall c, t :: (c, t) in h.granted ==> c in nodes && 1 <= t <= nodes[c].term && h.granted[(c, t)] <= nodes.Keys)
    && (forall c, t, v :: (c, t) in h.granted && v in h.granted[(c, t)] ==> (v, t) in h.votes && h.votes[(v, t)] == c)
    && (forall c :: c in nodes && nodes[c].role == Candidate ==>
          (c, nodes[c].term) in h.granted && nodes[c].votes == |h.granted[(c, nodes[c].term)]|
          && c in h.granted[(c, nodes[c].term)])
  }

  ghost predicate CallsOk(nodes: map<int, Node>, net: Network, h: History) {
    && (forall c :: c in net.calls ==>
          && c.candidate in nodes && c.peer in nodes
          && (c.candidate, c.term) in h.granted
          && c.peer !in h.granted[(c.candidate, c.term)])
    && (forall m :: m in net.voteMsgs ==>
          && m.req.candidate == m.call.candidate && m.req.term == m.call.term
          && m.call.candidate in nodes && m.call.peer in nodes
          && m.req.term <= nodes[m.call.candidate].term)
    && (forall a :: a in net.voteAnswers && a.reply.granted ==>
          (a.call.peer, a.call.term) in h.votes && h.votes[(a.call.peer, a.call.term)] == a.call.candidate)
  }

  ghost predicate Elected(nodes: map<int, Node>, h: History, c: int, t: int) {
    (c, t) in h.granted && VoteQuorum(|nodes|, |h.granted[(c, t)]|)
  }

  ghost predicate ElectedOk(nodes: map<int, Node>, net: Network, h: History) {
    && (forall c, t :: (c, t) in net.promotions ==> Elected(nodes, h, c, t))
    && (forall c, t :: (c, t) in h.leaders ==> Elected(nodes, h, c, t))
  }

  // ---- Leaders ----

  ghost predicate LeadersOk(nodes: map<int, Node>, h: History) {
    && (forall c, t :: (c, t) in h.leaders ==>
          && c in nodes && t in h.leaderLog && t <= nodes[c].term
          && (t == nodes[c].term ==> nodes[c].role == Leader && nodes[c].log == h.leaderLog[t]))
    && (forall t :: t in h.leaderLog ==> exists c :: (c, t) in h.leaders)
    && (forall c :: c in nodes && nodes[c].role == Leader ==> (c, nodes[c].term) in h.leaders)
  }

  ghost predicate OneLeaderPerTerm(leaders: set<(int, int)>) {
    forall a, b, t :: (a, t) in leaders && (b, t) in leaders ==> a == b
  }

  // ---- Replication ----

  // The request is a stretch of its leader's log.
  ghost predicate RequestOk(nodes: map<int, Node>, h: History, to: int, req: AppendRequest) {
    && to in nodes && req.leader in nodes && to != req.leader
    && (req.leader, req.term) in h.leaders
    && req.term in h.leaderLog
    && 0 <= req.prevLogIndex
    && req.prevLogIndex + |req.entries| <= |h.leaderLog[req.term]|
    && req.entries == h.leaderLog[req.term][req.prevLogIndex..req.prevLogIndex + |req.entries|]
    && (req.prevLogIndex > 0 ==> req.prevLogTerm == h.leaderLog[req.term][req.prevLogIndex - 1].term)
  }

  ghost predicate RequestsOk(nodes: map<int, Node>, net: Network, h: History) {
    forall m :: m in net.appendMsgs ==> RequestOk(nodes, h, m.to, m.req)
  }

  ghost predicate Acked(acks: map<(int, int), nat>, v: int, t: int, n: int) {
    (v, t) in acks && n <= acks[(v, t)]
  }

  // The leader of a later term u does not have the first n entries of t's leader.
  ghost predicate Lacks(ll: Logs, t: int, n: nat, u: int)
    requires t in ll && n <= |ll[t]|
  {
    t < u && u in ll && !(ll[t][..n] <= ll[u])
  }

  ghost predicate Overruled(ll: Logs, t: int, n: nat, upTo: int)
    requires t in ll && n <= |ll[t]|
  {
    exists u :: u <= upTo && Lacks(ll, t, n, u)
  }

  // What a node confirmed it still holds, unless a later leader overruled it.
  ghost predicate Retains(node: Node, ll: Logs, t: int, n: nat)
    requires t in ll && n <= |ll[t]|
  {
    ll[t][..n] <= node.log || Overruled(ll, t, n, node.term)
  }

  ghost predicate AcksShape(nodes: map<int, Node>, h: History) {
    forall v, t :: (v, t) in h.acks ==>
      v in nodes && t in h.leaderLog && h.acks[(v, t)] <= |h.leaderLog[t]| && t <= nodes[v].term
  }

  ghost predicate AcksOk(nodes: map<int, Node>, h: History) {
    && AcksShape(nodes, h)
    && (forall v, t, n: nat :: Acked(h.acks, v, t, n) ==> Retains(nodes[v], h.leaderLog, t, n))
  }

  ghost predicate AnswersOk(net: Network, h: History) {
    forall a :: a in net.appendAnswers ==>
      && a.msg in net.appendMsgs
      && (a.reply.success ==> Acked(h.acks, a.msg.to, a.msg.req.term, a.msg.req.prevLogIndex + |a.msg.req.entries|))
  }

  ghost predicate MatchOk(nodes: map<int, Node>, h: History) {
    forall c :: c in nodes && nodes[c].role == Leader ==>
      && Acked(h.acks, c, nodes[c].term, |nodes[c].log|)
      && (forall p :: p in nodes[c].peers ==>
            nodes[c].peers[p].matchIndex <= 0 || Acked(h.acks, p, nodes[c].term, nodes[c].peers[p].matchIndex))
  }

  // ---- Why a new leader has what was committed ----

  // A candidate whose election is still open: its log has not changed since it began.
  ghost predicate Running(nodes: map<int, Node>, ll: Logs, c: int, t: int) {
    c in nodes && nodes[c].term == t && nodes[c].role == Candidate && t !in ll
  }

  ghost predicate VoteInfoOk(nodes: map<int, Node>, net: Network, ll: Logs) {
    forall m :: m in net.voteMsgs && Running(nodes, ll, m.call.candidate, m.call.term) ==>
      (m.req.lastLogIndex, m.req.lastLogTerm) == LastLogInfo(nodes[m.call.candidate].log)
  }

  // v confirmed n entries of t's leader, the last of them t's own.
  ghost predicate OwnAck(h: History, v: int, t: int, n: nat) {
    && Acked(h.acks, v, t, n)
    && t in h.leaderLog && 1 <= n <= |h.leaderLog[t]|
    && h.leaderLog[t][n - 1].term == t
  }

  ghost predicate Inherits(log: seq<Entry>, ll: Logs, t: int, n: nat, t': int)
    requires t in ll && n <= |ll[t]|
  {
    ll[t][..n] <= log || Overruled(ll, t, n, t' - 1)
  }

  // A running candidate has what its voters had confirmed in earlier terms.
  ghost predicate VotersOk(nodes: map<int, Node>, h: History) {
    forall v, t', t, n: nat ::
      (v, t') in h.votes && Running(nodes, h.leaderLog, h.votes[(v, t')], t') && OwnAck(h, v, t, n) && t < t' ==>
        Inherits(nodes[h.votes[(v, t')]].log, h.leaderLog, t, n, t')
  }

  // So does every leader.
  ghost predicate ElectorsOk(h: History) {
    forall c, t', v, t, n: nat ::
      (c, t') in h.leaders && (c, t') in h.granted && v in h.granted[(c, t')] && OwnAck(h, v, t, n) && t < t' && t' in h.leaderLog ==>
        Inherits(h.leaderLog[t'], h.leaderLog, t, n, t')
  }

  // ---- Commitment ----

  ghost function Ackers(nodes: map<int, Node>, acks: map<(int, int), nat>, t: int, n: nat): set<int> {
    set v | v in nodes && Acked(acks, v, t, n)
  }

  ghost predicate CommitOk(nodes: map<int, Node>, h: History, t: int, n: nat) {
    && t in h.leaderLog && 1 <= n <= |h.leaderLog[t]| && h.leaderLog[t][n - 1].term == t
    && 2 * |Ackers(nodes, h.acks, t, n)| > |nodes|
  }

  ghost predicate CommitsOk(nodes: map<int, Node>, h: History) {
    forall t, n :: (t, n) in h.committed ==> CommitOk(nodes, h, t, n)
  }

  // The first k entries of `log` were committed in some term at or below `top`.
  ghost predicate Backed(h: History, log: seq<Entry>, k: nat, top: int) {
    && k <= |log|
    && (k > 0 ==> exists t, n ::
          (t, n) in h.committed && k <= n && t <= top && t in h.leaderLog && n <= |h.leaderLog[t]|
          && log[..k] == h.leaderLog[t][..k])
  }

  ghost predicate NodeCommitsOk(nodes: map<int, Node>, h: History) {
    forall i :: i in nodes ==> Backed(h, nodes[i].log, nodes[i].commitIndex, nodes[i].term)
  }

  ghost predicate MsgCommitsOk(net: Network, h: History) {
    forall m :: m in net.appendMsgs ==>
      0 <= m.req.leaderCommit && m.req.term in h.leaderLog
      && Backed(h, h.leaderLog[m.req.term], m.req.leaderCommit, m.req.term)
  }

  // Node i has delivered exactly the entries through lastApplied, in order.
  ghost predicate DeliveredOk(nodes: map<int, Node>) {
    forall i :: i in nodes ==>
      && |nodes[i].sent| == nodes[i].lastApplied <= nodes[i].commitIndex <= |nodes[i].log|
      && (forall k :: 0 <= k < nodes[i].lastApplied ==>
            nodes[i].sent[k] == CommandMsg(nodes[i].log[k].command, k + 1))
  }
}
