// The safety properties of Figure 3 of the Raft paper, over whole runs of a
// restart-free cluster whose promotions are timely. Each compares any two
// moments of a run.
module ClusterSafety {
  import opened KvTypes
  import opened RaftTypes
  import opened NodeSpec
  import opened Cluster
  import opened ClusterInvariant
  import opened ClusterEffects
  import opened Quorums
  import opened ElectionSteps
  import opened LeaderSteps
  import opened ReplicationSteps
  import opened CommitSteps
  import opened ClusterSteps

  // ---- The invariant holds throughout ----

  lemma InitialElections(ids: set<int>)
    requires ValidIds(ids)
    ensures ElectionInv(InitialState(ids)) && |InitialState(ids).nodes| == |ids|
  {
    var s := InitialState(ids);
    assert s.nodes.Keys == ids;
    assert |s.nodes| == |s.nodes.Keys|;
  }

  lemma InitialRest(ids: set<int>)
    requires ValidIds(ids)
    ensures ReplicationInv(InitialState(ids)) && CompletenessInv(InitialState(ids)) && CommitInv(InitialState(ids))
  {
  }

  lemma InitialInv(ids: set<int>)
    requires ValidIds(ids) && SafeSize(|ids|)
    ensures Inv(InitialState(ids))
  {
    InitialElections(ids);
    InitialRest(ids);
  }

  lemma ActionKeeps(s: State, a: Action)
    requires Inv(s) && Enabled(s, a, true)
    ensures Inv(Do(s, a))
  {
    ActionEffect(s, a);
    EffectKeeps(s, Do(s, a));
  }

  lemma StartKeeps(ids: set<int>, run: seq<State>, acts: seq<Action>)
    requires ValidIds(ids) && SafeSize(|ids|) && IsRun(ids, true, run, acts)
    ensures Inv(run[0])
  {
    InitialInv(ids);
  }

  lemma {:induction false} RunInv(ids: set<int>, run: seq<State>, acts: seq<Action>, k: nat)
    requires ValidIds(ids) && SafeSize(|ids|) && IsRun(ids, true, run, acts) && k < |run|
    ensures Inv(run[k])
    decreases k, 1
  {
    if k == 0 {
      StartKeeps(ids, run, acts);
    } else {
      NextKeeps(ids, run, acts, k - 1, k);
    }
  }

  lemma {:induction false} NextKeeps(ids: set<int>, run: seq<State>, acts: seq<Action>, j: nat, k: nat)
    requires ValidIds(ids) && SafeSize(|ids|) && IsRun(ids, true, run, acts) && j < |acts| && k == j + 1
    ensures Inv(run[k])
    decreases k, 0
  {
    RunInv(ids, run, acts, j);
    assert StepAt(true, run, acts, j);
    ActionKeeps(run[j], acts[j]);
  }

  // ---- What only grows ----

  // Along a run terms rise, and the history gains records but loses none.
  ghost predicate Later(s: State, s': State) {
    && s'.nodes.Keys == s.nodes.Keys
    && (forall i :: i in s.nodes ==> s.nodes[i].term <= s'.nodes[i].term && s.nodes[i].commitIndex <= s'.nodes[i].commitIndex)
    && s.hist.leaders <= s'.hist.leaders
    && s.hist.committed <= s'.hist.committed
    && LogsGrow(s.hist.leaderLog, s'.hist.leaderLog)
  }

  lemma TouchLater(s: State, s': State, i: int)
    requires Touches(s, s', i) && s.nodes[i].commitIndex <= s'.nodes[i].commitIndex
    requires s.hist.leaders <= s'.hist.leaders && s.hist.committed <= s'.hist.committed
    requires LogsGrow(s.hist.leaderLog, s'.hist.leaderLog)
    ensures Later(s, s')
  {
  }

  lemma ElectionLater(s: State, s': State, i: int)
    requires Touches(s, s', i) && SameLog(s.nodes[i], s'.nodes[i])
    requires s'.hist == s.hist.(votes := s'.hist.votes, granted := s'.hist.granted)
    ensures Later(s, s')
  {
    TouchLater(s, s', i);
  }

  lemma CrownsLater(s: State, s': State, i: int)
    requires Crowns(s, s', i) && s.nodes[i].term !in s.hist.leaderLog
    ensures Later(s, s')
  {
    CrownsGrow(s, s', i);
    TouchLater(s, s', i);
  }

  lemma ExtendsLater(s: State, s': State, i: int, cmd: Command)
    requires Extends(s, s', i, cmd) && LeadersOk(s.nodes, s.hist)
    ensures Later(s, s')
  {
    ExtendsGrow(s, s', i, cmd);
    TouchLater(s, s', i);
  }

  lemma AcceptsLater(s: State, s': State, m: AppendMsg, answered: bool)
    requires Accepts(s, s', m, answered)
    ensures Later(s, s')
  {
    TouchLater(s, s', m.to);
  }

  lemma LearnsLater(s: State, s': State, v: AppendAnswer)
    requires Learns(s, s', v)
    ensures Later(s, s')
  {
    TouchLater(s, s', v.msg.req.leader);
  }

  lemma EffectLater(s: State, s': State)
    requires Inv(s) && Effect(s, s')
    ensures Later(s, s')
  {
    if s' == s {
    } else if i :| Quiet(s, s', i) { ElectionLater(s, s', i);
    } else if i :| Campaigns(s, s', i) { ElectionLater(s, s', i);
    } else if c :| Asks(s, s', c) {
    } else if m :| Votes(s, s', m) { ElectionLater(s, s', m.call.peer);
    } else if v :| Counts(s, s', v) { ElectionLater(s, s', v.call.candidate);
    } else if i :| Crowns(s, s', i) {
      CrownsNewTerm(s, s', i);
      CrownsLater(s, s', i);
    } else if i, cmd :| Extends(s, s', i, cmd) { ExtendsLater(s, s', i, cmd);
    } else if i, p, k :| Sends(s, s', i, p, k) {
    } else if m, answered :| Accepts(s, s', m, answered) { AcceptsLater(s, s', m, answered);
    } else {
      var v :| Learns(s, s', v);
      LearnsLater(s, s', v);
    }
  }

  lemma LaterTransitive(a: State, b: State, c: State)
    requires Later(a, b) && Later(b, c)
    ensures Later(a, c)
  {
    forall t | t in a.hist.leaderLog
      ensures t in c.hist.leaderLog && a.hist.leaderLog[t] <= c.hist.leaderLog[t]
      ensures forall k :: |a.hist.leaderLog[t]| <= k < |c.hist.leaderLog[t]| ==> c.hist.leaderLog[t][k].term == t
    {
      forall k | |a.hist.leaderLog[t]| <= k < |c.hist.leaderLog[t]|
        ensures c.hist.leaderLog[t][k].term == t
      {
        if k < |b.hist.leaderLog[t]| {
          assert c.hist.leaderLog[t][k] == b.hist.leaderLog[t][k];
        }
      }
    }
  }

  lemma ActionLater(s: State, a: Action)
    requires Inv(s) && Enabled(s, a, true)
    ensures Later(s, Do(s, a))
  {
    ActionEffect(s, a);
    EffectLater(s, Do(s, a));
  }

  lemma StepLater(ids: set<int>, run: seq<State>, acts: seq<Action>, k: nat)
    requires ValidIds(ids) && SafeSize(|ids|) && IsRun(ids, true, run, acts) && k < |acts|
    ensures Later(run[k], run[k + 1])
  {
    RunInv(ids, run, acts, k);
    assert StepAt(true, run, acts, k);
    ActionLater(run[k], acts[k]);
  }

  lemma {:induction false} RunLater(ids: set<int>, run: seq<State>, acts: seq<Action>, j: nat, k: nat)
    requires ValidIds(ids) && SafeSize(|ids|) && IsRun(ids, true, run, acts) && j <= k < |run|
    ensures Later(run[j], run[k])
    decreases k - j
  {
    if j < k {
      RunLater(ids, run, acts, j, k - 1);
      StepLater(ids, run, acts, k - 1);
      LaterTransitive(run[j], run[k - 1], run[k]);
    }
  }

  // ---- Facts shared by the theorems ----

  // The later of two moments, from which both can be seen.
  function Max(j: nat, k: nat): nat {
    if j < k then k else j
  }

  // A leader's log is its term's leader log, and stays a prefix of it.
  lemma LeaderLogSeen(s: State, s': State, i: int)
    requires LeadersOk(s.nodes, s.hist) && Later(s, s') && i in s.nodes && s.nodes[i].role == Leader
    ensures var t := s.nodes[i].term;
            && (i, t) in s'.hist.leaders && t in s'.hist.leaderLog && s.nodes[i].log <= s'.hist.leaderLog[t]
            && (forall k :: |s.nodes[i].log| <= k < |s'.hist.leaderLog[t]| ==> s'.hist.leaderLog[t][k].term == t)
  {
    assert (i, s.nodes[i].term) in s.hist.leaders;
  }

  lemma BackedSeen(s: State, s': State, i: int)
    requires NodeCommitsOk(s.nodes, s.hist) && Later(s, s') && i in s.nodes
    ensures Backed(s'.hist, s.nodes[i].log, s.nodes[i].commitIndex, s.nodes[i].term)
  {
    BackedForever(s.hist, s'.hist, s.nodes[i].log, s.nodes[i].log, s.nodes[i].commitIndex, s.nodes[i].term, s.nodes[i].term);
  }

  lemma HeldPrefix(a: seq<Entry>, m: nat, early: seq<Entry>, x: nat, late: seq<Entry>)
    requires m <= x <= |early| && m <= |a| && a[..m] == early[..m] && early[..x] <= late
    ensures m <= |late| && forall k :: 0 <= k < m ==> a[k] == late[k]
  {
    forall k | 0 <= k < m
      ensures a[k] == late[k]
    {
      assert a[k] == a[..m][k] == early[..m][k] == early[..x][k];
    }
  }

  // Two committed prefixes agree: the later leader holds both.
  lemma BackedAgree(s: State, a: seq<Entry>, m: nat, ta: int, b: seq<Entry>, n: nat, tb: int)
    requires GrantedOk(s.nodes, s.hist) && ElectedOk(s.nodes, s.net, s.hist) && LeadersOk(s.nodes, s.hist)
    requires ElectorsOk(s.hist) && CommitsOk(s.nodes, s.hist)
    requires Backed(s.hist, a, m, ta) && Backed(s.hist, b, n, tb)
    ensures forall k :: 0 <= k < m && k < n ==> a[k] == b[k]
  {
    if m > 0 && n > 0 {
      var h := s.hist;
      var t, x :| (t, x) in h.committed && m <= x && t <= ta && t in h.leaderLog && x <= |h.leaderLog[t]|
                  && a[..m] == h.leaderLog[t][..m];
      var u, y :| (u, y) in h.committed && n <= y && u <= tb && u in h.leaderLog && y <= |h.leaderLog[u]|
                  && b[..n] == h.leaderLog[u][..n];
      var w := if t < u then u else t;
      CommittedHeld(s.nodes, s.net, h, t, x, w);
      CommittedHeld(s.nodes, s.net, h, u, y, w);
      HeldPrefix(a, m, h.leaderLog[t], x, h.leaderLog[w]);
      HeldPrefix(b, n, h.leaderLog[u], y, h.leaderLog[w]);
    }
  }

  // ---- The theorems ----

  // Each node's term and commit index never decrease.
  lemma TermsNeverDecrease(ids: set<int>, run: seq<State>, acts: seq<Action>, j: nat, k: nat, i: int)
    requires ValidIds(ids) && SafeSize(|ids|) && IsRun(ids, true, run, acts) && j <= k < |run| && i in ids
    ensures i in run[j].nodes && i in run[k].nodes
    ensures run[j].nodes[i].term <= run[k].nodes[i].term
    ensures run[j].nodes[i].commitIndex <= run[k].nodes[i].commitIndex
  {
    RunLater(ids, run, acts, 0, j);
    RunLater(ids, run, acts, j, k);
    assert run[0].nodes.Keys == ids;
  }

  // Election Safety: two nodes never lead the same term, at whatever moments.
  lemma ElectionSafety(ids: set<int>, run: seq<State>, acts: seq<Action>, j: nat, k: nat, a: int, b: int)
    requires ValidIds(ids) && SafeSize(|ids|) && IsRun(ids, true, run, acts) && j < |run| && k < |run|
    requires a in run[j].nodes && run[j].nodes[a].role == Leader
    requires b in run[k].nodes && run[k].nodes[b].role == Leader
    requires run[j].nodes[a].term == run[k].nodes[b].term
    ensures a == b
  {
    var z := Max(j, k);
    RunInv(ids, run, acts, j);
    RunInv(ids, run, acts, k);
    RunInv(ids, run, acts, z);
    RunLater(ids, run, acts, j, z);
    RunLater(ids, run, acts, k, z);
    LeaderLogSeen(run[j], run[z], a);
    LeaderLogSeen(run[k], run[z], b);
    OneLeader(run[z].nodes, run[z].net, run[z].hist);
  }

  // Leader Append-Only: within its term a leader neither overwrites nor removes entries.
  lemma LeaderAppendOnly(ids: set<int>, run: seq<State>, acts: seq<Action>, j: nat, k: nat, i: int)
    requires ValidIds(ids) && SafeSize(|ids|) && IsRun(ids, true, run, acts) && j <= k < |run|
    requires i in run[j].nodes && run[j].nodes[i].role == Leader
    requires i in run[k].nodes && run[k].nodes[i].term == run[j].nodes[i].term
    ensures run[k].nodes[i].role == Leader && run[j].nodes[i].log <= run[k].nodes[i].log
  {
    RunInv(ids, run, acts, j);
    RunInv(ids, run, acts, k);
    RunLater(ids, run, acts, j, k);
    LeaderLogSeen(run[j], run[k], i);
    assert (i, run[k].nodes[i].term) in run[k].hist.leaders;
  }

  // Log Matching: entries with the same index and term, in whatever logs at
  // whatever moments, have identical logs up to and including them.
  lemma LogMatching(ids: set<int>, run: seq<State>, acts: seq<Action>, j: nat, k: nat, a: int, b: int, x: nat)
    requires ValidIds(ids) && SafeSize(|ids|) && IsRun(ids, true, run, acts) && j < |run| && k < |run|
    requires a in run[j].nodes && x < |run[j].nodes[a].log|
    requires b in run[k].nodes && x < |run[k].nodes[b].log|
    requires run[j].nodes[a].log[x].term == run[k].nodes[b].log[x].term
    ensures run[j].nodes[a].log[..x + 1] == run[k].nodes[b].log[..x + 1]
  {
    var z := Max(j, k);
    RunInv(ids, run, acts, j);
    RunInv(ids, run, acts, k);
    RunLater(ids, run, acts, j, z);
    RunLater(ids, run, acts, k, z);
    FollowsGrown(run[j].nodes[a].log, run[j].hist.leaderLog, run[z].hist.leaderLog);
    FollowsGrown(run[k].nodes[b].log, run[k].hist.leaderLog, run[z].hist.leaderLog);
    Agree(run[j].nodes[a].log, run[k].nodes[b].log, run[z].hist.leaderLog, x);
  }

  // Leader Completeness: what any node of term t considers committed is in the
  // log of every leader of a later term, whenever that leader is looked at.
  lemma LeaderCompleteness(ids: set<int>, run: seq<State>, acts: seq<Action>, j: nat, k: nat, a: int, b: int)
    requires ValidIds(ids) && SafeSize(|ids|) && IsRun(ids, true, run, acts) && j < |run| && k < |run|
    requires a in run[j].nodes
    requires b in run[k].nodes && run[k].nodes[b].role == Leader && run[j].nodes[a].term < run[k].nodes[b].term
    ensures run[j].nodes[a].commitIndex <= |run[j].nodes[a].log|
    ensures run[j].nodes[a].log[..run[j].nodes[a].commitIndex] <= run[k].nodes[b].log
  {
    var z := Max(j, k);
    RunInv(ids, run, acts, j);
    RunInv(ids, run, acts, k);
    RunInv(ids, run, acts, z);
    RunLater(ids, run, acts, j, z);
    RunLater(ids, run, acts, k, z);
    BackedSeen(run[j], run[z], a);
    LeaderLogSeen(run[k], run[z], b);
    var n, u := run[j].nodes[a], run[k].nodes[b].term;
    BackedBySender(run[z].nodes, run[z].net, run[z].hist, n.log, n.commitIndex, n.term, u);
    PrefixBeforeTerm(n.log, n.commitIndex, n.term, run[k].nodes[b].log, run[z].hist.leaderLog[u], u);
  }

  // Old entries of a grown leader log were there from the start.
  lemma PrefixBeforeTerm(log: seq<Entry>, k: nat, top: int, early: seq<Entry>, late: seq<Entry>, u: int)
    requires LogShape(log, top) && top < u && k <= |log| && k <= |late| && log[..k] == late[..k]
    requires early <= late && forall x :: |early| <= x < |late| ==> late[x].term == u
    ensures log[..k] <= early
  {
    if k > 0 {
      assert late[..k][k - 1] == log[..k][k - 1];
    }
  }

  // State Machine Safety: any two nodes hold the same entry at every index at
  // or below both commit indexes, at whatever moments.
  lemma StateMachineSafety(ids: set<int>, run: seq<State>, acts: seq<Action>, j: nat, k: nat, a: int, b: int, x: nat)
    requires ValidIds(ids) && SafeSize(|ids|) && IsRun(ids, true, run, acts) && j < |run| && k < |run|
    requires a in run[j].nodes && x < run[j].nodes[a].commitIndex
    requires b in run[k].nodes && x < run[k].nodes[b].commitIndex
    ensures x < |run[j].nodes[a].log| && x < |run[k].nodes[b].log|
    ensures run[j].nodes[a].log[x] == run[k].nodes[b].log[x]
  {
    var z := Max(j, k);
    RunInv(ids, run, acts, j);
    RunInv(ids, run, acts, k);
    RunInv(ids, run, acts, z);
    RunLater(ids, run, acts, j, z);
    RunLater(ids, run, acts, k, z);
    BackedSeen(run[j], run[z], a);
    BackedSeen(run[k], run[z], b);
    var n, m := run[j].nodes[a], run[k].nodes[b];
    BackedAgree(run[z], n.log, n.commitIndex, n.term, m.log, m.commitIndex, m.term);
  }

  // What a node has put on its applyCh: the entries through lastApplied, each once, in order.
  lemma DeliveredStream(ids: set<int>, run: seq<State>, acts: seq<Action>, k: nat, i: int)
    requires ValidIds(ids) && SafeSize(|ids|) && IsRun(ids, true, run, acts) && k < |run| && i in run[k].nodes
    ensures var n := run[k].nodes[i];
            && |n.sent| == n.lastApplied <= n.commitIndex <= |n.log|
            && (forall x :: 0 <= x < n.lastApplied ==> n.sent[x] == CommandMsg(n.log[x].command, x + 1))
  {
    RunInv(ids, run, acts, k);
  }

  // Two nodes never deliver different commands at one index: of two delivered
  // streams, one is a prefix of the other.
  lemma DeliveriesAgree(ids: set<int>, run: seq<State>, acts: seq<Action>, j: nat, k: nat, a: int, b: int)
    requires ValidIds(ids) && SafeSize(|ids|) && IsRun(ids, true, run, acts) && j < |run| && k < |run|
    requires a in run[j].nodes && b in run[k].nodes
    ensures run[j].nodes[a].sent <= run[k].nodes[b].sent || run[k].nodes[b].sent <= run[j].nodes[a].sent
  {
    DeliveredStream(ids, run, acts, j, a);
    DeliveredStream(ids, run, acts, k, b);
    var n, m := run[j].nodes[a], run[k].nodes[b];
    forall x | 0 <= x < |n.sent| && x < |m.sent|
      ensures n.sent[x] == m.sent[x]
    {
      StateMachineSafety(ids, run, acts, j, k, a, b, x);
    }
  }

  // No request in flight makes its receiver index its log out of range.
  lemma NoPanic(ids: set<int>, run: seq<State>, acts: seq<Action>, k: nat, m: AppendMsg)
    requires ValidIds(ids) && SafeSize(|ids|) && IsRun(ids, true, run, acts) && k < |run|
    requires m in run[k].net.appendMsgs
    ensures m.to in run[k].nodes && InContract(run[k].nodes[m.to], m.req)
  {
    RunInv(ids, run, acts, k);
    assert RequestOk(run[k].nodes, run[k].hist, m.to, m.req);
  }
}
