// Replication: what every step keeps about logs, requests and confirmations.
module ReplicationSteps {
  import opened KvTypes
  import opened RaftTypes
  import opened NodeSpec
  import opened Cluster
  import opened ClusterInvariant
  import opened ClusterEffects

  // ---- Facts about leader logs ----

  // A log that follows the leaders through an entry's term agrees with them there.
  lemma Agree(a: seq<Entry>, b: seq<Entry>, ll: Logs, k: nat)
    requires Follows(a, ll) && Follows(b, ll)
    requires k < |a| && k < |b| && a[k].term == b[k].term
    ensures a[..k + 1] == b[..k + 1]
  {
    assert FollowsAt(a, ll, k) && FollowsAt(b, ll, k);
  }

  lemma FollowsGrown(log: seq<Entry>, ll: Logs, ll': Logs)
    requires Follows(log, ll) && LogsGrow(ll, ll')
    ensures Follows(log, ll')
  {
    forall k | 0 <= k < |log|
      ensures FollowsAt(log, ll', k)
    {
      assert FollowsAt(log, ll, k);
    }
  }

  lemma FollowsPrefix(log: seq<Entry>, ll: Logs, n: nat)
    requires Follows(log, ll) && n <= |log|
    ensures Follows(log[..n], ll)
  {
    forall k | 0 <= k < n
      ensures FollowsAt(log[..n], ll, k)
    {
      assert FollowsAt(log, ll, k);
      assert log[..n][..k + 1] == log[..k + 1];
    }
  }

  // A later leader that lacks a prefix never acquires it.
  lemma LacksForever(ll: Logs, ll': Logs, t: int, n: nat, u: int)
    requires LogsGrow(ll, ll') && t in ll && LogShape(ll[t], t) && n <= |ll[t]|
    requires Lacks(ll, t, n, u)
    ensures n <= |ll'[t]| && Lacks(ll', t, n, u)
  {
    assert ll'[t][..n] == ll[t][..n];
    var k := |ll[u]|;
    if k < n && k < |ll'[u]| {
      assert ll'[u][k].term == u > ll[t][k].term;
    }
  }

  lemma OverruledForever(ll: Logs, ll': Logs, t: int, n: nat, upTo: int, upTo': int)
    requires LogsGrow(ll, ll') && t in ll && LogShape(ll[t], t) && n <= |ll[t]|
    requires Overruled(ll, t, n, upTo) && upTo <= upTo'
    ensures n <= |ll'[t]| && Overruled(ll', t, n, upTo')
  {
    var u :| u <= upTo && Lacks(ll, t, n, u);
    LacksForever(ll, ll', t, n, u);
  }

  lemma RetainsForever(node: Node, node': Node, ll: Logs, ll': Logs, t: int, n: nat)
    requires LogsGrow(ll, ll') && t in ll && LogShape(ll[t], t) && n <= |ll[t]|
    requires node.log <= node'.log && node.term <= node'.term
    requires Retains(node, ll, t, n)
    ensures n <= |ll'[t]| && Retains(node', ll', t, n)
  {
    assert ll'[t][..n] == ll[t][..n];
    if Overruled(ll, t, n, node.term) {
      OverruledForever(ll, ll', t, n, node.term, node'.term);
    }
  }

  // ---- Merging a stretch of a leader's log ----

  // Under log matching the merge keeps the follower's log when it already holds
  // the stretch, and otherwise replaces it by the leader's prefix.
  lemma MergeOfPrefix(log: seq<Entry>, w: seq<Entry>, ll: Logs, at: nat, len: nat)
    requires Follows(log, ll) && Follows(w, ll)
    requires at <= |log| && at + len <= |w|
    requires at > 0 ==> log[at - 1].term == w[at - 1].term
    ensures Merge(log, at, w[at..at + len]) == if w[..at + len] <= log then log else w[..at + len]
  {
    var i := FirstNew(log, at, w[at..at + len]);
    assert at + i > 0 ==> log[at + i - 1].term == w[at + i - 1].term by {
      if i > 0 { assert log[at + (i - 1)].term == w[at..at + len][i - 1].term; }
    }
    if at + i > 0 { Agree(log, w, ll, at + i - 1); }
    MergeFrom(log, w, at, len);
  }

  lemma MergeFrom(log: seq<Entry>, w: seq<Entry>, at: nat, len: nat)
    requires at <= |log| && at + len <= |w|
    requires var i := FirstNew(log, at, w[at..at + len]); log[..at + i] == w[..at + i]
    ensures Merge(log, at, w[at..at + len]) == if w[..at + len] <= log then log else w[..at + len]
  {
    var entries := w[at..at + len];
    var i := FirstNew(log, at, entries);
    if i < len {
      assert w[..at + len] == w[..at + i] + entries[i..];
      if at + i < |log| { assert w[..at + len][at + i] == entries[i] != log[at + i]; }
    } else {
      assert log[..at + len] == w[..at + len];
    }
  }

  // ---- Steps that leave logs alone ----

  ghost predicate SameLogs(nodes: map<int, Node>, nodes': map<int, Node>) {
    && nodes'.Keys == nodes.Keys
    && forall j :: j in nodes ==>
         nodes'[j].log == nodes[j].log && nodes'[j].commitIndex == nodes[j].commitIndex && nodes[j].term <= nodes'[j].term
  }

  lemma LogsKept(nodes: map<int, Node>, nodes': map<int, Node>, ll: Logs)
    requires LogsOk(nodes, ll) && SameLogs(nodes, nodes')
    ensures LogsOk(nodes', ll)
  {
  }

  lemma AcksKept(nodes: map<int, Node>, nodes': map<int, Node>, h: History)
    requires AcksOk(nodes, h) && SameLogs(nodes, nodes')
    ensures AcksOk(nodes', h)
  {
    forall v, t, n: nat | Acked(h.acks, v, t, n)
      ensures Retains(nodes'[v], h.leaderLog, t, n)
    {
      assert Retains(nodes[v], h.leaderLog, t, n);
    }
  }

  // Nobody becomes leader, and leaders learn nothing.
  ghost predicate SameProgress(nodes: map<int, Node>, nodes': map<int, Node>) {
    && nodes'.Keys == nodes.Keys
    && forall j :: j in nodes && nodes'[j].role == Leader ==>
         && nodes[j].role == Leader && nodes'[j].term == nodes[j].term && nodes'[j].log == nodes[j].log
         && SameMatches(nodes[j], nodes'[j])
  }

  ghost predicate AcksGrow(acks: map<(int, int), nat>, acks': map<(int, int), nat>) {
    forall v, t :: (v, t) in acks ==> (v, t) in acks' && acks[(v, t)] <= acks'[(v, t)]
  }

  lemma MatchKept(nodes: map<int, Node>, nodes': map<int, Node>, h: History, h': History)
    requires MatchOk(nodes, h) && SameProgress(nodes, nodes') && AcksGrow(h.acks, h'.acks)
    ensures MatchOk(nodes', h')
  {
  }

  lemma RequestsKept(nodes: map<int, Node>, net: Network, h: History, h': History)
    requires RequestsOk(nodes, net, h) && LogsGrow(h.leaderLog, h'.leaderLog) && h.leaders <= h'.leaders
    ensures RequestsOk(nodes, net, h')
  {
  }

  lemma RequestsFrame(nodes: map<int, Node>, nodes': map<int, Node>, net: Network, net': Network, h: History)
    requires RequestsOk(nodes, net, h) && nodes'.Keys == nodes.Keys && net'.appendMsgs == net.appendMsgs
    ensures RequestsOk(nodes', net', h)
  {
  }

  lemma AnswersKept(net: Network, net': Network, h: History, h': History)
    requires AnswersOk(net, h) && AcksGrow(h.acks, h'.acks)
    requires net.appendMsgs <= net'.appendMsgs
    requires forall a :: a in net'.appendAnswers ==>
               || a in net.appendAnswers
               || (a.msg in net.appendMsgs && !a.reply.success)
    ensures AnswersOk(net', h')
  {
  }

  // ---- A new leader ----

  lemma CrownsGrow(s: State, s': State, i: int)
    requires Crowns(s, s', i) && s.nodes[i].term !in s.hist.leaderLog
    ensures LogsGrow(s.hist.leaderLog, s'.hist.leaderLog)
  {
  }

  lemma CrownsLogs(s: State, s': State, i: int)
    requires LogsOk(s.nodes, s.hist.leaderLog) && LeaderLogsOk(s.hist.leaderLog)
    requires Crowns(s, s', i) && s.nodes[i].term !in s.hist.leaderLog
    ensures LogsOk(s'.nodes, s'.hist.leaderLog) && LeaderLogsOk(s'.hist.leaderLog)
  {
    var ll, ll', n := s.hist.leaderLog, s'.hist.leaderLog, s.nodes[i];
    CrownsGrow(s, s', i);
    LogsGrown(s.nodes, ll, ll');
    LogsUpdated(s.nodes, ll', i, s'.nodes[i]);
    LeaderLogsGrown(ll, ll', n.term);
  }

  lemma CrownsAcks(s: State, s': State, i: int)
    requires AcksOk(s.nodes, s.hist) && LeaderLogsOk(s.hist.leaderLog)
    requires Crowns(s, s', i) && s.nodes[i].term !in s.hist.leaderLog
    ensures AcksOk(s'.nodes, s'.hist) && AcksGrow(s.hist.acks, s'.hist.acks)
  {
    var h, h' := s.hist, s'.hist;
    CrownsGrow(s, s', i);
    forall v, t, n: nat | Acked(h'.acks, v, t, n)
      ensures Retains(s'.nodes[v], h'.leaderLog, t, n)
    {
      if (v, t) in h.acks {
        assert Acked(h.acks, v, t, n);
        RetainsForever(s.nodes[v], s'.nodes[v], h.leaderLog, h'.leaderLog, t, n);
      }
    }
  }

  lemma CrownsMatch(s: State, s': State, i: int)
    requires MatchOk(s.nodes, s.hist) && AcksGrow(s.hist.acks, s'.hist.acks) && Crowns(s, s', i)
    ensures MatchOk(s'.nodes, s'.hist)
  {
  }

  // ---- The leader appends ----

  lemma ExtendsGrow(s: State, s': State, i: int, cmd: Command)
    requires LeadersOk(s.nodes, s.hist) && Extends(s, s', i, cmd)
    ensures LogsGrow(s.hist.leaderLog, s'.hist.leaderLog)
    ensures s.nodes[i].term in s.hist.leaderLog && s.hist.leaderLog[s.nodes[i].term] == s.nodes[i].log
  {
    assert (i, s.nodes[i].term) in s.hist.leaders;
  }

  lemma ExtendedFollows(log: seq<Entry>, ll: Logs, t: int, cmd: Command)
    requires Follows(log, ll) && LogShape(log, t) && t >= 1
    requires t in ll && ll[t] == log + [Entry(|log| + 1, t, cmd)]
    ensures Follows(ll[t], ll) && LogShape(ll[t], t)
  {
    forall k | 0 <= k < |ll[t]|
      ensures FollowsAt(ll[t], ll, k)
    {
      if k < |log| {
        assert FollowsAt(log, ll, k);
        assert ll[t][..k + 1] == log[..k + 1];
      }
    }
  }

  lemma LogsGrown(nodes: map<int, Node>, ll: Logs, ll': Logs)
    requires LogsOk(nodes, ll) && LogsGrow(ll, ll')
    ensures LogsOk(nodes, ll')
  {
    forall j | j in nodes
      ensures Follows(nodes[j].log, ll')
    {
      FollowsGrown(nodes[j].log, ll, ll');
    }
  }

  lemma LogsUpdated(nodes: map<int, Node>, ll: Logs, i: int, n': Node)
    requires LogsOk(nodes, ll) && LogShape(n'.log, n'.term) && Follows(n'.log, ll)
    ensures LogsOk(nodes[i := n'], ll)
  {
  }

  lemma LeaderLogsGrown(ll: Logs, ll': Logs, t: int)
    requires LeaderLogsOk(ll) && LogsGrow(ll, ll')
    requires ll'.Keys == ll.Keys + {t} && forall u :: u in ll && u != t ==> ll'[u] == ll[u]
    requires LogShape(ll'[t], t) && Follows(ll'[t], ll')
    ensures LeaderLogsOk(ll')
  {
    forall u | u in ll'
      ensures LogShape(ll'[u], u) && Follows(ll'[u], ll')
    {
      if u != t {
        FollowsGrown(ll[u], ll, ll');
      }
    }
  }

  // Over the fields alone: node i and its term's leader log gain one entry.
  lemma ExtendedLogs(nodes: map<int, Node>, nodes': map<int, Node>, ll: Logs, ll': Logs, i: int, cmd: Command)
    requires LogsOk(nodes, ll) && LeaderLogsOk(ll) && LogsGrow(ll, ll') && i in nodes && nodes[i].term >= 1
    requires i in nodes' && nodes' == nodes[i := nodes'[i]] && nodes'[i].term == nodes[i].term
    requires nodes'[i].log == nodes[i].log + [Entry(|nodes[i].log| + 1, nodes[i].term, cmd)]
    requires ll' == ll[nodes[i].term := nodes'[i].log]
    ensures LogsOk(nodes', ll') && LeaderLogsOk(ll')
  {
    var t := nodes[i].term;
    LogsGrown(nodes, ll, ll');
    ExtendedFollows(nodes[i].log, ll', t, cmd);
    LogsUpdated(nodes, ll', i, nodes'[i]);
    LeaderLogsGrown(ll, ll', t);
  }

  lemma ExtendsLogs(s: State, s': State, i: int, cmd: Command)
    requires LogsOk(s.nodes, s.hist.leaderLog) && LeaderLogsOk(s.hist.leaderLog)
    requires LeadersOk(s.nodes, s.hist) && Extends(s, s', i, cmd) && s.nodes[i].term >= 1
    ensures LogsOk(s'.nodes, s'.hist.leaderLog) && LeaderLogsOk(s'.hist.leaderLog)
  {
    ExtendsGrow(s, s', i, cmd);
    ExtendedLogs(s.nodes, s'.nodes, s.hist.leaderLog, s'.hist.leaderLog, i, cmd);
  }

  // One longer log and one more confirmation, its own.
  lemma ExtendedAcks(
    nodes: map<int, Node>, nodes': map<int, Node>, ll: Logs, ll': Logs,
    acks: map<(int, int), nat>, acks': map<(int, int), nat>, i: int, v: int, t: int, n: nat)
    requires i in nodes && i in nodes' && nodes' == nodes[i := nodes'[i]] && nodes'[i].term == nodes[i].term
    requires nodes[i].log <= nodes'[i].log && LeaderLogsOk(ll) && LogsGrow(ll, ll')
    requires ll' == ll[nodes[i].term := nodes'[i].log]
    requires acks' == Confirm(acks, (i, nodes[i].term), |nodes'[i].log|) && Acked(acks', v, t, n)
    requires (v, t) in acks ==> v in nodes && t in ll && acks[(v, t)] <= |ll[t]| && acks[(v, t)] <= |ll'[t]|
    requires Acked(acks, v, t, n) ==> Retains(nodes[v], ll, t, n)
    ensures v in nodes' && t in ll' && n <= |ll'[t]| && Retains(nodes'[v], ll', t, n)
  {
    if (v, t) != (i, nodes[i].term) {
      assert Acked(acks, v, t, n);
      RetainsForever(nodes[v], nodes'[v], ll, ll', t, n);
    }
  }

  lemma ExtendsAcksShape(s: State, s': State, i: int, cmd: Command)
    requires AcksShape(s.nodes, s.hist) && LogsGrow(s.hist.leaderLog, s'.hist.leaderLog) && Extends(s, s', i, cmd)
    ensures AcksShape(s'.nodes, s'.hist) && AcksGrow(s.hist.acks, s'.hist.acks)
  {
  }

  lemma ExtendsAcks(s: State, s': State, i: int, cmd: Command)
    requires AcksOk(s.nodes, s.hist) && LeaderLogsOk(s.hist.leaderLog)
    requires LeadersOk(s.nodes, s.hist) && Extends(s, s', i, cmd)
    ensures AcksOk(s'.nodes, s'.hist) && AcksGrow(s.hist.acks, s'.hist.acks)
  {
    ExtendsGrow(s, s', i, cmd);
    ExtendsAcksShape(s, s', i, cmd);
    forall v, t, n: nat | Acked(s'.hist.acks, v, t, n)
      ensures Retains(s'.nodes[v], s'.hist.leaderLog, t, n)
    {
      ExtendedAcks(s.nodes, s'.nodes, s.hist.leaderLog, s'.hist.leaderLog, s.hist.acks, s'.hist.acks, i, v, t, n);
    }
  }

  lemma ExtendsMatch(s: State, s': State, i: int, cmd: Command)
    requires MatchOk(s.nodes, s.hist) && AcksGrow(s.hist.acks, s'.hist.acks) && Extends(s, s', i, cmd)
    ensures MatchOk(s'.nodes, s'.hist)
  {
  }

  // ---- The leader sends ----

  lemma SentIsStretch(s: State, i: int, m: AppendMsg)
    requires WellFormed(s.nodes) && LeadersOk(s.nodes, s.hist) && i in s.nodes && s.nodes[i].role == Leader
    requires m.to in s.nodes[i].peers && m.req.term == s.nodes[i].term && m.req.leader == i
    requires 0 <= m.req.prevLogIndex <= |s.nodes[i].log| && m.req.entries == s.nodes[i].log[m.req.prevLogIndex..]
    requires m.req.prevLogIndex > 0 ==> m.req.prevLogTerm == s.nodes[i].log[m.req.prevLogIndex - 1].term
    ensures RequestOk(s.nodes, s.hist, m.to, m.req)
  {
    assert (i, s.nodes[i].term) in s.hist.leaders;
    assert m.to in s.nodes[i].peers.Keys;
  }

  lemma SendsRequests(s: State, s': State, i: int, p: int, k: nat)
    requires WellFormed(s.nodes) && RequestsOk(s.nodes, s.net, s.hist) && LeadersOk(s.nodes, s.hist)
    requires Sends(s, s', i, p, k)
    ensures RequestsOk(s'.nodes, s'.net, s'.hist)
  {
    forall m | m in s'.net.appendMsgs
      ensures RequestOk(s'.nodes, s'.hist, m.to, m.req)
    {
      if m !in s.net.appendMsgs { SentIsStretch(s, i, m); }
    }
  }

  // ---- A follower accepts ----

  // The shape of the follower's new log, for the invariants that follow.
  ghost predicate Adopts(log: seq<Entry>, log': seq<Entry>, w: seq<Entry>, upTo: nat) {
    && upTo <= |w|
    && log' == if w[..upTo] <= log then log else w[..upTo]
  }

  lemma StretchAdopts(log: seq<Entry>, log': seq<Entry>, ll: Logs, u: int, req: AppendRequest)
    requires u in ll && Follows(log, ll) && Follows(ll[u], ll) && 0 <= req.prevLogIndex <= |log|
    requires req.prevLogIndex + |req.entries| <= |ll[u]|
    requires req.entries == ll[u][req.prevLogIndex..req.prevLogIndex + |req.entries|]
    requires req.prevLogIndex > 0 ==> log[req.prevLogIndex - 1].term == ll[u][req.prevLogIndex - 1].term
    requires log' == Merge(log, req.prevLogIndex, req.entries)
    ensures Adopts(log, log', ll[u], req.prevLogIndex + |req.entries|)
  {
    MergeOfPrefix(log, ll[u], ll, req.prevLogIndex, |req.entries|);
  }

  lemma AcceptsAdopts(s: State, s': State, m: AppendMsg, answered: bool)
    requires LogsOk(s.nodes, s.hist.leaderLog) && LeaderLogsOk(s.hist.leaderLog)
    requires RequestsOk(s.nodes, s.net, s.hist) && Accepts(s, s', m, answered)
    ensures m.req.term in s.hist.leaderLog
    ensures Adopts(s.nodes[m.to].log, s'.nodes[m.to].log, s.hist.leaderLog[m.req.term], m.req.prevLogIndex + |m.req.entries|)
  {
    assert RequestOk(s.nodes, s.hist, m.to, m.req);
    StretchAdopts(s.nodes[m.to].log, s'.nodes[m.to].log, s.hist.leaderLog, m.req.term, m.req);
  }

  lemma AdoptedShape(n: Node, n': Node, ll: Logs, u: int, upTo: nat)
    requires u in ll && LogShape(ll[u], u) && LogShape(n.log, n.term) && n.term <= u == n'.term
    requires Follows(n.log, ll) && upTo <= |ll[u]| && Follows(ll[u][..upTo], ll) && Adopts(n.log, n'.log, ll[u], upTo)
    ensures LogShape(n'.log, n'.term) && Follows(n'.log, ll)
  {
  }

  lemma AcceptsLogs(s: State, s': State, m: AppendMsg, answered: bool)
    requires LogsOk(s.nodes, s.hist.leaderLog) && LeaderLogsOk(s.hist.leaderLog)
    requires RequestsOk(s.nodes, s.net, s.hist) && Accepts(s, s', m, answered)
    ensures LogsOk(s'.nodes, s'.hist.leaderLog)
  {
    AcceptsAdopts(s, s', m, answered);
    FollowsPrefix(s.hist.leaderLog[m.req.term], s.hist.leaderLog, m.req.prevLogIndex + |m.req.entries|);
    AdoptedShape(s.nodes[m.to], s'.nodes[m.to], s.hist.leaderLog, m.req.term, m.req.prevLogIndex + |m.req.entries|);
    LogsUpdated(s.nodes, s.hist.leaderLog, m.to, s'.nodes[m.to]);
  }

  // A confirmed prefix survives an accepted request, or its leader is overruled by the sender.
  lemma AdoptRetains(n: Node, n': Node, ll: Logs, t: int, k: nat, u: int, upTo: nat)
    requires t in ll && k <= |ll[t]| && u in ll && t <= u == n'.term && n.term <= u
    requires Adopts(n.log, n'.log, ll[u], upTo)
    requires Retains(n, ll, t, k)
    ensures Retains(n', ll, t, k)
  {
    var p := ll[t][..k];
    if Overruled(ll, t, k, n.term) {
      var w :| w <= n.term && Lacks(ll, t, k, w);
      assert w <= n'.term && Lacks(ll, t, k, w);
    } else if t < u && !(p <= ll[u]) {
      assert u <= n'.term && Lacks(ll, t, k, u);
    } else if n'.log != n.log {
      assert p <= ll[u] && p <= n.log;
      assert k <= upTo;
      assert p <= n'.log;
    }
  }

  // Node i adopts a stretch of u's leader log and may confirm its end.
  lemma AcceptedAcks(
    n: Node, n': Node, ll: Logs, acks: map<(int, int), nat>, acks': map<(int, int), nat>,
    i: int, u: int, upTo: nat, v: int, node: Node, node': Node, t: int, k: nat)
    requires t in ll && k <= |ll[t]| && u in ll && Adopts(n.log, n'.log, ll[u], upTo) && n.term <= u == n'.term
    requires acks' == acks || acks' == Confirm(acks, (i, u), upTo)
    requires Acked(acks', v, t, k) && (Acked(acks, v, t, k) ==> Retains(node, ll, t, k) && t <= node.term)
    requires if v == i then node == n && node' == n' else node' == node
    ensures Retains(node', ll, t, k)
  {
    if Acked(acks, v, t, k) {
      if v == i { AdoptRetains(n, n', ll, t, k, u, upTo); }
    } else {
      ConfirmedNow(n, n', ll, u, upTo, k);
    }
  }

  lemma ConfirmedNow(n: Node, n': Node, ll: Logs, u: int, upTo: nat, k: nat)
    requires u in ll && Adopts(n.log, n'.log, ll[u], upTo) && k <= upTo
    ensures ll[u][..k] <= n'.log
  {
    assert ll[u][..upTo] <= n'.log;
    assert ll[u][..k] == ll[u][..upTo][..k];
  }

  lemma AcceptsAcksShape(s: State, s': State, m: AppendMsg, answered: bool)
    requires AcksShape(s.nodes, s.hist) && Accepts(s, s', m, answered)
    requires m.req.term in s.hist.leaderLog && m.req.prevLogIndex + |m.req.entries| <= |s.hist.leaderLog[m.req.term]|
    ensures AcksShape(s'.nodes, s'.hist) && AcksGrow(s.hist.acks, s'.hist.acks)
  {
  }

  lemma AcceptRetains(s: State, s': State, m: AppendMsg, answered: bool, v: int, t: int, n: nat)
    requires AcksOk(s.nodes, s.hist) && Accepts(s, s', m, answered) && Acked(s'.hist.acks, v, t, n)
    requires AcksShape(s'.nodes, s'.hist) && m.req.term in s.hist.leaderLog
    requires Adopts(s.nodes[m.to].log, s'.nodes[m.to].log, s.hist.leaderLog[m.req.term], m.req.prevLogIndex + |m.req.entries|)
    ensures Retains(s'.nodes[v], s'.hist.leaderLog, t, n)
  {
    assert v in s.nodes && t in s.hist.leaderLog && s'.hist.leaderLog == s.hist.leaderLog;
    AcceptedAcks(s.nodes[m.to], s'.nodes[m.to], s.hist.leaderLog, s.hist.acks, s'.hist.acks, m.to, m.req.term,
                 m.req.prevLogIndex + |m.req.entries|, v, s.nodes[v], s'.nodes[v], t, n);
  }

  lemma AcceptsAcks(s: State, s': State, m: AppendMsg, answered: bool)
    requires AcksOk(s.nodes, s.hist)
    requires LogsOk(s.nodes, s.hist.leaderLog) && LeaderLogsOk(s.hist.leaderLog)
    requires RequestsOk(s.nodes, s.net, s.hist) && Accepts(s, s', m, answered)
    ensures AcksOk(s'.nodes, s'.hist) && AcksGrow(s.hist.acks, s'.hist.acks)
  {
    AcceptsAdopts(s, s', m, answered);
    AcceptsAcksShape(s, s', m, answered);
    AcceptsRetain(s, s', m, answered);
  }

  lemma AcceptsRetain(s: State, s': State, m: AppendMsg, answered: bool)
    requires AcksOk(s.nodes, s.hist) && AcksShape(s'.nodes, s'.hist) && Accepts(s, s', m, answered)
    requires m.req.term in s.hist.leaderLog
    requires Adopts(s.nodes[m.to].log, s'.nodes[m.to].log, s.hist.leaderLog[m.req.term], m.req.prevLogIndex + |m.req.entries|)
    ensures AcksOk(s'.nodes, s'.hist)
  {
    forall v, t, n: nat | Acked(s'.hist.acks, v, t, n)
      ensures Retains(s'.nodes[v], s'.hist.leaderLog, t, n)
    {
      AcceptRetains(s, s', m, answered, v, t, n);
    }
  }

  lemma AcceptsAnswers(s: State, s': State, m: AppendMsg, answered: bool)
    requires AnswersOk(s.net, s.hist) && AcksGrow(s.hist.acks, s'.hist.acks) && Accepts(s, s', m, answered)
    ensures AnswersOk(s'.net, s'.hist)
  {
  }

  // ---- The leader learns ----

  lemma LearnsMatch(s: State, s': State, v: AppendAnswer)
    requires MatchOk(s.nodes, s.hist) && AnswersOk(s.net, s.hist) && Learns(s, s', v)
    ensures MatchOk(s'.nodes, s'.hist)
  {
  }
}
