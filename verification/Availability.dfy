// What a cluster can still do at any moment of any run: elect a node, have a
// majority catch up with it, commit a command and deliver it
// (raft/election.go, raft/replication.go, raft/raft.go).
module Availability {
  import opened KvTypes
  import opened RaftTypes
  import opened NodeSpec
  import opened Cluster
  import opened ClusterInvariant
  import opened Quorums
  import opened ClusterSteps
  import opened ReplicationSpec
  import opened Backtracking
  import opened ElectionSpec
  import opened Paths
  import opened Campaigns
  import P = Progress
  import Safety = ClusterSafety

  // A state of some run.
  ghost predicate Reached(ids: set<int>, s: State) {
    ValidIds(ids) && SafeSize(|ids|) && Leadsto(true, InitialState(ids), s)
  }

  lemma Onward(ids: set<int>, s: State, s': State)
    requires Reached(ids, s) && Leadsto(true, s, s')
    ensures Reached(ids, s')
  {
    Joins(true, InitialState(ids), s, s');
  }

  lemma ReachedInv(ids: set<int>, s: State)
    requires Reached(ids, s)
    ensures Inv(s) && P.AllAwake(s.nodes)
  {
    var run, acts := RunAlong(ids, true, s);
    Safety.RunInv(ids, run, acts, |acts|);
    P.RunAwake(ids, run, acts, |acts|);
  }

  lemma ReachedIds(ids: set<int>, s: State)
    requires Reached(ids, s)
    ensures s.nodes.Keys == ids
  {
    var run, acts := RunAlong(ids, true, s);
    SameIds(ids, run, acts, |acts|);
  }

  lemma {:induction false} SameIds(ids: set<int>, run: seq<State>, acts: seq<Action>, k: nat)
    requires IsRun(ids, true, run, acts) && k < |run|
    ensures run[k].nodes.Keys == ids
  {
    if k > 0 {
      SameIds(ids, run, acts, k - 1);
      assert StepAt(true, run, acts, k - 1);
    }
  }

  lemma ReachedKnown(ids: set<int>, s: State)
    requires Reached(ids, s)
    ensures Known(s, ids)
  {
    ReachedIds(ids, s);
    ReachedInv(ids, s);
    forall i | i in ids
      ensures KnownAt(s.nodes[i], ids, i)
    {
      assert LogShape(s.nodes[i].log, s.nodes[i].term);
    }
  }

  // What a leader and a follower bring to an exchange.
  ghost predicate Ready(s: State, c: int, v: int, t: int) {
    && Leads(s, c, t) && v in s.nodes && v != c && s.nodes[v].term <= t && s.nodes[c].id == c
    && Stable(s.nodes[c], s.nodes[v], v) && TermsRise(s.nodes[c].log, t) && s.nodes[c].commitIndex <= |s.nodes[c].log|
  }

  lemma ReachedStable(ids: set<int>, s: State, c: int, v: int, t: int)
    requires Reached(ids, s) && Leads(s, c, t) && v in s.nodes && v in s.nodes[c].peers && s.nodes[v].term <= t
    ensures Stable(s.nodes[c], s.nodes[v], v)
  {
    var run, acts := RunAlong(ids, true, s);
    P.RunStable(ids, run, acts, |acts|, c, v);
  }

  lemma ReachedLeader(ids: set<int>, s: State, c: int, t: int)
    requires Reached(ids, s) && Leads(s, c, t)
    ensures TermsRise(s.nodes[c].log, t) && s.nodes[c].logBase == 0 && s.nodes[c].peers.Keys == ids - {c} && s.nodes[c].id == c
  {
    ReachedInv(ids, s);
    ReachedKnown(ids, s);
    assert LogShape(s.nodes[c].log, t) && KnownAt(s.nodes[c], ids, c);
  }

  lemma ReachedLoop(ids: set<int>, s: State, i: int)
    requires Reached(ids, s) && i in s.nodes
    ensures var n := s.nodes[i]; n.logBase == 0 && n.lastApplied <= n.commitIndex <= |n.log| && P.Awake(n)
  {
    ReachedInv(ids, s);
  }

  lemma ReachedReady(ids: set<int>, s: State, c: int, v: int, t: int)
    requires Reached(ids, s) && Leads(s, c, t) && v in s.nodes && v != c && s.nodes[v].term <= t
    ensures Ready(s, c, v, t)
  {
    ReachedIds(ids, s);
    ReachedLeader(ids, s, c, t);
    assert v in s.nodes[c].peers.Keys;
    ReachedStable(ids, s, c, v, t);
    ReachedLoop(ids, s, c);
  }

  // ---- One exchange ----

  // The leader asks with its commit index, and hears the answer.
  ghost predicate Exchanged(s: State, s': State, c: int, v: int, t: int, success: bool) {
    && c in s.nodes && v in s.nodes && s'.nodes.Keys == s.nodes.Keys && v in s.nodes[c].peers && v != c
    && s'.nodes == s.nodes[v := s'.nodes[v]][c := s'.nodes[c]]
    && Told(s.nodes[c], s.nodes[v], s'.nodes[v], v, success) && Heard(s.nodes[c], s'.nodes[c], v, success)
  }

  // The follower has caught up exactly if the logs agreed up to the anchor.
  ghost predicate Told(l: Node, f: Node, f': Node, v: int, success: bool)
    requires v in l.peers
  {
    && f'.term == l.term && f'.lastApplied == f.lastApplied
    && success == Agree(l.log, f.log, l.peers[v].nextIndex - 1)
    && f'.log == (if success then CaughtUp(l.log, f.log) else f.log)
    && f'.commitIndex == if success then Max(f.commitIndex, l.commitIndex) else f.commitIndex
  }

  // The leader records the success, or goes back one entry.
  ghost predicate Heard(l: Node, l': Node, v: int, success: bool)
    requires v in l.peers
  {
    var p := l.peers[v];
    if success then Advanced(l.(peers := l.peers[v := Peer(|l.log| + 1, |l.log|)]), l')
    else p.nextIndex > 1 && l' == l.(peers := l.peers[v := Peer(p.nextIndex - 1, p.matchIndex)])
  }

  // The three steps of one exchange.
  lemma Exchange(s: State, c: int, v: int, t: int, req: AppendRequest, reply: AppendReply) returns (s': State)
    requires Leads(s, c, t) && v in s.nodes && v != c && v in s.nodes[c].peers && s.nodes[c].id == c
    requires BuildAppend(s.nodes[c], v, t, s.nodes[c].commitIndex) == Send(req) && req.leader == c
    requires InContract(s.nodes[v], req) && HandleAppendEntries(s.nodes[v], req, true).1 == Some(reply)
    ensures Leadsto(true, s, s')
    ensures s'.nodes == s.nodes[v := HandleAppendEntries(s.nodes[v], req, true).0]
                               [c := HandleAppendReply(s.nodes[c], v, req, reply)]
  {
    var msg := AppendMsg(v, req);
    var s1 := Ship(s, c, v, req);
    var s2 := Receive(s1, msg, reply);
    s' := Hear(s2, AppendAnswer(msg, reply));
    Joins(true, s, s1, s2);
    Joins(true, s, s2, s');
  }

  lemma Ship(s: State, c: int, v: int, req: AppendRequest) returns (s': State)
    requires c in s.nodes && v in s.nodes[c].peers
    requires BuildAppend(s.nodes[c], v, s.nodes[c].term, s.nodes[c].commitIndex) == Send(req)
    ensures Leadsto(true, s, s') && s'.nodes == s.nodes && AppendMsg(v, req) in s'.net.appendMsgs
  {
    s' := Do(s, SendAppend(c, v, s.nodes[c].commitIndex));
    OneStep(true, s, SendAppend(c, v, s.nodes[c].commitIndex), s');
  }

  lemma Receive(s: State, msg: AppendMsg, reply: AppendReply) returns (s': State)
    requires msg in s.net.appendMsgs && msg.to in s.nodes && InContract(s.nodes[msg.to], msg.req)
    requires HandleAppendEntries(s.nodes[msg.to], msg.req, true).1 == Some(reply)
    ensures Leadsto(true, s, s')
    ensures s'.nodes == s.nodes[msg.to := HandleAppendEntries(s.nodes[msg.to], msg.req, true).0]
    ensures AppendAnswer(msg, reply) in s'.net.appendAnswers
  {
    s' := Do(s, ReceiveAppend(msg, true));
    OneStep(true, s, ReceiveAppend(msg, true), s');
  }

  lemma Hear(s: State, v: AppendAnswer) returns (s': State)
    requires Enabled(s, ReceiveAppendReply(v), true)
    ensures Leadsto(true, s, s')
    ensures var c := v.msg.req.leader; s'.nodes == s.nodes[c := HandleAppendReply(s.nodes[c], v.msg.to, v.msg.req, v.reply)]
  {
    s' := Do(s, ReceiveAppendReply(v));
    OneStep(true, s, ReceiveAppendReply(v), s');
  }

  // The request the leader builds for v now, and how the follower answers it.
  ghost predicate Asking(l: Node, f: Node, v: int, req: AppendRequest) {
    && v in l.peers && BuildAppend(l, v, l.term, l.commitIndex) == Send(req)
    && req.leader == l.id && req.term == l.term && req.leaderCommit == l.commitIndex
    && req.prevLogIndex == l.peers[v].nextIndex - 1 >= 0 && req.prevLogIndex + |req.entries| == |l.log|
  }

  ghost predicate Answers(l: Node, f: Node, req: AppendRequest) {
    InContract(f, req) &&
    var (f', r) := HandleAppendEntries(f, req, true);
    r.Some? && r.value.term == l.term && Answered(l, f, f', req, r.value.success)
  }

  lemma Builds(l: Node, f: Node, v: int) returns (req: AppendRequest)
    requires Stable(l, f, v)
    ensures Asking(l, f, v, req) && Answers(l, f, req)
  {
    BuiltRequest(l, f, v, l.commitIndex);
    var prev := l.peers[v].nextIndex - 1;
    req := AppendRequest(l.term, l.id, prev, if prev > 0 then l.log[prev - 1].term else 0, l.log[prev..], l.commitIndex);
    FollowerAnswer(l, f, v, req);
  }

  // What they make of the two.
  lemma Round(s: State, c: int, v: int, t: int) returns (s': State, success: bool)
    requires Ready(s, c, v, t)
    ensures Leadsto(true, s, s') && Exchanged(s, s', c, v, t, success)
  {
    var req := Builds(s.nodes[c], s.nodes[v], v);
    s', success := RoundOf(s, c, v, t, req);
  }

  lemma RoundOf(s: State, c: int, v: int, t: int, req: AppendRequest) returns (s': State, success: bool)
    requires Leads(s, c, t) && v in s.nodes && v != c && s.nodes[c].id == c && s.nodes[c].commitIndex <= |s.nodes[c].log|
    requires Asking(s.nodes[c], s.nodes[v], v, req) && Answers(s.nodes[c], s.nodes[v], req)
    requires TermsRise(s.nodes[c].log, t) && s.nodes[c].peers[v].matchIndex <= |s.nodes[c].log|
    ensures Leadsto(true, s, s') && Exchanged(s, s', c, v, t, success)
  {
    var reply := HandleAppendEntries(s.nodes[v], req, true).1.value;
    success := reply.success;
    s' := Exchange(s, c, v, t, req, reply);
    assert Agree(s.nodes[c].log, s.nodes[v].log, 0);
    Learns(s.nodes[c], v, req, reply);
    Exchanges(s, s', c, v, t, req, HandleAppendEntries(s.nodes[v], req, true).0,
              HandleAppendReply(s.nodes[c], v, req, reply), success);
  }

  lemma Exchanges(s: State, s': State, c: int, v: int, t: int, req: AppendRequest, f': Node, l': Node, success: bool)
    requires c in s.nodes && v in s.nodes && v in s.nodes[c].peers && v != c && s'.nodes == s.nodes[v := f'][c := l']
    requires req.prevLogIndex == s.nodes[c].peers[v].nextIndex - 1 && req.leaderCommit == s.nodes[c].commitIndex <= |s.nodes[c].log|
    requires Answered(s.nodes[c], s.nodes[v], f', req, success) && Heard(s.nodes[c], l', v, success) && s.nodes[c].term == t
    ensures Exchanged(s, s', c, v, t, success)
  {
  }

  lemma Learns(l: Node, v: int, req: AppendRequest, reply: AppendReply)
    requires l.role == Leader && v in l.peers && req.term == l.term == reply.term && TermsRise(l.log, l.term)
    requires req.prevLogIndex + |req.entries| == |l.log| && l.peers[v].matchIndex <= |l.log|
    requires !reply.success ==> l.peers[v].nextIndex > 1
    ensures Heard(l, HandleAppendReply(l, v, req, reply), v, reply.success)
  {
    ReplyExactly(l, v, req, reply);
  }

  // ---- Catching up ----

  // The leader rule allows nothing more.
  ghost predicate Saturated(n: Node) {
    forall j :: !MayCommit(n, j)
  }

  // The leader goes on leading, with the same log.
  ghost predicate StillLeads(l: Node, l': Node) {
    l'.role == Leader && l'.term == l.term && l'.log == l.log && l'.logBase == l.logBase && l'.commitIndex >= l.commitIndex
  }

  // The follower has the leader's log, and knows what the leader had committed.
  ghost predicate HasCaughtUp(l: Node, f: Node, f': Node) {
    && f'.term == l.term && f'.log == CaughtUp(l.log, f.log)
    && f'.commitIndex >= l.commitIndex && f'.commitIndex >= f.commitIndex
  }

  ghost predicate Up(s: State, s': State, c: int, v: int) {
    && c in s.nodes && v in s.nodes && v != c && s'.nodes.Keys == s.nodes.Keys && v in s.nodes[c].peers
    && s'.nodes == s.nodes[v := s'.nodes[v]][c := s'.nodes[c]]
    && StillLeads(s.nodes[c], s'.nodes[c]) && Saturated(s'.nodes[c]) && HasCaughtUp(s.nodes[c], s.nodes[v], s'.nodes[v])
    && s'.nodes[c].peers == s.nodes[c].peers[v := Peer(|s.nodes[c].log| + 1, |s.nodes[c].log|)]
  }

  lemma AdvancedSaturates(before: Node, n': Node)
    requires Advanced(before, n')
    ensures Saturated(n')
  {
    forall j
      ensures !MayCommit(n', j)
    {
      if MayCommit(n', j) { assert MajorityHolds(before, j) && MayCommit(before, j); }
    }
  }

  lemma SuccessUp(s: State, s': State, c: int, v: int, t: int)
    requires Exchanged(s, s', c, v, t, true) && Leads(s, c, t)
    ensures Up(s, s', c, v)
  {
    var l := s.nodes[c];
    AdvancedSaturates(l.(peers := l.peers[v := Peer(|l.log| + 1, |l.log|)]), s'.nodes[c]);
  }

  lemma FailureUp(s: State, m: State, s': State, c: int, v: int, t: int)
    requires Exchanged(s, m, c, v, t, false) && Leads(s, c, t) && Up(m, s', c, v)
    ensures Up(s, s', c, v)
  {
  }

  // However far behind it is, a follower catches up.
  lemma {:induction false} BringUp(ids: set<int>, s: State, c: int, v: int, t: int) returns (s': State)
    requires Reached(ids, s) && Leads(s, c, t) && v in s.nodes && v != c && s.nodes[v].term <= t
    requires v in s.nodes[c].peers
    ensures Leadsto(true, s, s') && Up(s, s', c, v)
    decreases s.nodes[c].peers[v].nextIndex
  {
    ReachedReady(ids, s, c, v, t);
    var m, success := Round(s, c, v, t);
    if success {
      s' := m;
      SuccessUp(s, s', c, v, t);
    } else {
      s' := BringUpAgain(ids, s, m, c, v, t);
    }
  }

  lemma {:induction false} BringUpAgain(ids: set<int>, s: State, m: State, c: int, v: int, t: int) returns (s': State)
    requires Reached(ids, s) && Leads(s, c, t) && Leadsto(true, s, m) && Exchanged(s, m, c, v, t, false)
    ensures Leadsto(true, s, s') && Up(s, s', c, v)
    decreases s.nodes[c].peers[v].nextIndex, 0
  {
    Onward(ids, s, m);
    s' := BringUp(ids, m, c, v, t);
    Joins(true, s, m, s');
    FailureUp(s, m, s', c, v, t);
  }

  // A set of followers catches up, one after the other.
  ghost predicate AllUp(s: State, s': State, c: int, group: set<int>) {
    && c in s.nodes && c !in group && group <= s.nodes.Keys && s'.nodes.Keys == s.nodes.Keys
    && StillLeads(s.nodes[c], s'.nodes[c]) && (Saturated(s.nodes[c]) || group != {} ==> Saturated(s'.nodes[c]))
    && s'.nodes[c].peers.Keys == s.nodes[c].peers.Keys && group <= s.nodes[c].peers.Keys
    && (forall p :: p in group ==>
          HasCaughtUp(s.nodes[c], s.nodes[p], s'.nodes[p]) && s'.nodes[c].peers[p].matchIndex == |s.nodes[c].log|)
    && (forall p :: p in s.nodes && p != c && p !in group ==> s'.nodes[p] == s.nodes[p])
    && (forall p :: p in s.nodes[c].peers && p !in group ==> s'.nodes[c].peers[p] == s.nodes[c].peers[p])
  }

  lemma AllUpMore(s: State, m: State, s': State, c: int, v: int, rest: set<int>)
    requires Up(s, m, c, v) && AllUp(m, s', c, rest) && v !in rest
    ensures AllUp(s, s', c, rest + {v})
  {
    forall p | p in rest + {v}
      ensures p in s.nodes && HasCaughtUp(s.nodes[c], s.nodes[p], s'.nodes[p]) && s'.nodes[c].peers[p].matchIndex == |s.nodes[c].log|
    {
    }
  }

  lemma NoneUp(s: State, c: int)
    requires c in s.nodes && s.nodes[c].role == Leader
    ensures AllUp(s, s, c, {})
  {
  }

  ghost predicate Behind(s: State, c: int, t: int, group: set<int>) {
    Leads(s, c, t) && group <= s.nodes[c].peers.Keys && forall v :: v in group ==> v in s.nodes && v != c && s.nodes[v].term <= t
  }

  lemma {:induction false} BringAllUp(ids: set<int>, s: State, c: int, t: int, group: set<int>) returns (s': State)
    requires Reached(ids, s) && Behind(s, c, t, group)
    ensures Leadsto(true, s, s') && AllUp(s, s', c, group)
    decreases |group|
  {
    if |group| == 0 {
      assert group == {};
      s' := s;
      Stays(true, s);
      NoneUp(s, c);
    } else {
      var v := Pick(group);
      var m := BringUp(ids, s, c, v, t);
      s' := BringRestUp(ids, s, m, c, t, v, group);
    }
  }

  lemma {:induction false} BringRestUp(ids: set<int>, s: State, m: State, c: int, t: int, v: int, group: set<int>)
    returns (s': State)
    requires Reached(ids, s) && Behind(s, c, t, group) && v in group && Leadsto(true, s, m) && Up(s, m, c, v)
    ensures Leadsto(true, s, s') && AllUp(s, s', c, group)
    decreases |group|, 0
  {
    var rest := group - {v};
    assert |rest| == |group| - 1 && rest + {v} == group;
    Onward(ids, s, m);
    s' := BringAllUp(ids, m, c, t, rest);
    Joins(true, s, m, s');
    AllUpMore(s, m, s', c, v, rest);
  }

  // ---- Committing ----

  // When, with the leader, those who have its whole log are a majority and its
  // last entry is of its own term, the whole log is committed.
  lemma MajorityCommits(s: State, s': State, ids: set<int>, c: int, group: set<int>)
    requires AllUp(s, s', c, group) && Saturated(s'.nodes[c]) && s'.nodes[c].logBase == 0
    requires s'.nodes[c].peers.Keys == ids - {c} && c in ids && 2 * (|group| + 1) > |ids|
    requires s.nodes[c].log != [] && s.nodes[c].log[|s.nodes[c].log| - 1].term == s.nodes[c].term
    ensures s'.nodes[c].commitIndex >= |s.nodes[c].log|
  {
    var n, k := s'.nodes[c], |s.nodes[c].log|;
    var holders := set p | p in n.peers && n.peers[p].matchIndex >= k;
    forall p | p in group
      ensures p in holders
    {
      assert HasCaughtUp(s.nodes[c], s.nodes[p], s'.nodes[p]) && p in s.nodes[c].peers.Keys && p in n.peers.Keys;
    }
    Within(holders, group);
    assert |n.peers| == |n.peers.Keys| == |ids| - 1;
    assert MajorityHolds(n, k) && !MayCommit(n, k);
  }

  // The leader takes a command.
  ghost predicate Taken(s: State, s': State, c: int, cmd: Command) {
    && c in s.nodes && s'.nodes.Keys == s.nodes.Keys && s'.nodes == s.nodes[c := s'.nodes[c]]
    && var n, n' := s.nodes[c], s'.nodes[c];
    && n'.role == Leader && n'.term == n.term && n'.logBase == n.logBase && n'.peers == n.peers && Saturated(n')
    && n'.log == n.log + [Entry(LastIndex(n) + 1, n.term, cmd)]
  }

  lemma Take(s: State, c: int, t: int, cmd: Command) returns (s': State)
    requires Leads(s, c, t) && TermsRise(s.nodes[c].log, t)
    ensures Leadsto(true, s, s') && Taken(s, s', c, cmd)
  {
    var n := s.nodes[c];
    SubmitExactly(n, cmd, true);
    s' := Do(s, ClientCommand(c, cmd, true));
    OneStep(true, s, ClientCommand(c, cmd, true), s');
    var log' := n.log + [Entry(LastIndex(n) + 1, n.term, cmd)];
    AdvancedSaturates(n.(log := log', disk := n.disk.(saved := Some(SavedState(n.term, n.votedFor, log')))), s'.nodes[c]);
  }

  // Everybody in the group, and the leader, has committed the leader's log.
  ghost predicate CommittedBy(s: State, c: int, log: seq<Entry>, group: set<int>) {
    forall i :: i in group + {c} ==> i in s.nodes && log <= s.nodes[i].log && s.nodes[i].commitIndex >= |log|
  }

  lemma AllKnow(s: State, s': State, c: int, group: set<int>)
    requires AllUp(s, s', c, group) && s.nodes[c].commitIndex >= |s.nodes[c].log|
    ensures CommittedBy(s', c, s.nodes[c].log, group)
  {
    forall i | i in group + {c}
      ensures s.nodes[c].log <= s'.nodes[i].log && s'.nodes[i].commitIndex >= |s.nodes[c].log|
    {
      assert i in group ==> HasCaughtUp(s.nodes[c], s.nodes[i], s'.nodes[i]);
    }
  }

  lemma StillBehind(s: State, s': State, c: int, t: int, group: set<int>)
    requires Behind(s, c, t, group) && AllUp(s, s', c, group)
    ensures Behind(s', c, t, group)
  {
    forall v | v in group
      ensures v in s'.nodes && v != c && s'.nodes[v].term <= t
    {
      assert HasCaughtUp(s.nodes[c], s.nodes[v], s'.nodes[v]);
    }
  }

  // A leader that, with a group of nodes not ahead of it, is a majority can
  // commit any command.
  lemma CanCommit(ids: set<int>, s: State, c: int, t: int, group: set<int>, cmd: Command) returns (s': State)
    requires Reached(ids, s) && Behind(s, c, t, group) && c in ids && 2 * (|group| + 1) > |ids|
    ensures Leadsto(true, s, s') && Leads(s', c, t)
    ensures s'.nodes[c].log == s.nodes[c].log + [Entry(|s.nodes[c].log| + 1, t, cmd)]
    ensures CommittedBy(s', c, s'.nodes[c].log, group)
  {
    ReachedLeader(ids, s, c, t);
    var s1 := Take(s, c, t, cmd);
    Onward(ids, s, s1);
    assert Behind(s1, c, t, group);
    var s2 := Committed(ids, s1, c, t, group);
    Onward(ids, s1, s2);
    s' := BringAllUp(ids, s2, c, t, group);
    AllKnow(s2, s', c, group);
    Joins(true, s, s1, s2);
    Joins(true, s, s2, s');
  }

  lemma Committed(ids: set<int>, s: State, c: int, t: int, group: set<int>) returns (s': State)
    requires Reached(ids, s) && Behind(s, c, t, group) && c in ids && 2 * (|group| + 1) > |ids| && Saturated(s.nodes[c])
    requires s.nodes[c].log != [] && s.nodes[c].log[|s.nodes[c].log| - 1].term == t
    ensures Leadsto(true, s, s') && Behind(s', c, t, group) && s'.nodes[c].log == s.nodes[c].log
    ensures s'.nodes[c].commitIndex >= |s'.nodes[c].log|
  {
    s' := BringAllUp(ids, s, c, t, group);
    StillBehind(s, s', c, t, group);
    Onward(ids, s, s');
    ReachedLeader(ids, s', c, t);
    MajorityCommits(s, s', ids, c, group);
  }

  // ---- Delivering ----

  // Node i has delivered everything it has committed, and nothing else has changed.
  ghost predicate Drained(s: State, s': State, i: int) {
    && i in s.nodes && s'.nodes.Keys == s.nodes.Keys && s'.nodes == s.nodes[i := s'.nodes[i]]
    && var n, n' := s.nodes[i], s'.nodes[i];
       n' == n.(lastApplied := n.commitIndex, sent := n'.sent, wake := n'.wake, applying := n'.applying)
  }

  lemma {:induction false} Applies(s: State, i: int) returns (s': State)
    requires i in s.nodes && s.nodes[i].logBase == 0 && s.nodes[i].commitIndex <= |s.nodes[i].log|
    requires s.nodes[i].lastApplied <= s.nodes[i].commitIndex
    requires s.nodes[i].lastApplied < s.nodes[i].commitIndex ==> s.nodes[i].applying
    ensures Leadsto(true, s, s') && Drained(s, s', i)
    decreases s.nodes[i].commitIndex - s.nodes[i].lastApplied
  {
    if s.nodes[i].lastApplied == s.nodes[i].commitIndex {
      s' := s;
      Stays(true, s);
    } else {
      var m := Do(s, Apply(i));
      OneStep(true, s, Apply(i), m);
      s' := Applies(m, i);
      Joins(true, s, m, s');
    }
  }

  lemma Drain(ids: set<int>, s: State, i: int) returns (s': State)
    requires Reached(ids, s) && i in s.nodes
    ensures Leadsto(true, s, s') && Drained(s, s', i)
  {
    ReachedLoop(ids, s, i);
    if s.nodes[i].lastApplied < s.nodes[i].commitIndex && !s.nodes[i].applying {
      var m := Do(s, Wake(i));
      OneStep(true, s, Wake(i), m);
      s' := Applies(m, i);
      Joins(true, s, m, s');
    } else {
      s' := Applies(s, i);
    }
  }

  // All of the group have.
  ghost predicate AllDrained(s: State, s': State, group: set<int>) {
    && s'.nodes.Keys == s.nodes.Keys && group <= s.nodes.Keys
    && (forall i :: i in group ==> s'.nodes[i].lastApplied == s'.nodes[i].commitIndex)
    && (forall i :: i in s.nodes ==> SameButLoop(s.nodes[i], s'.nodes[i]))
  }

  ghost predicate SameButLoop(n: Node, n': Node) {
    n' == n.(lastApplied := n'.lastApplied, sent := n'.sent, wake := n'.wake, applying := n'.applying)
  }

  lemma {:induction false} DrainAll(ids: set<int>, s: State, group: set<int>) returns (s': State)
    requires Reached(ids, s) && group <= s.nodes.Keys
    ensures Leadsto(true, s, s') && AllDrained(s, s', group)
    decreases |group|
  {
    if |group| == 0 {
      assert group == {};
      s' := s;
      Stays(true, s);
    } else {
      var i := Pick(group);
      assert |group - {i}| == |group| - 1;
      var m := DrainAll(ids, s, group - {i});
      Onward(ids, s, m);
      s' := Drain(ids, m, i);
      Joins(true, s, m, s');
      DrainedMore(s, m, s', i, group);
    }
  }

  lemma DrainedMore(s: State, m: State, s': State, i: int, group: set<int>)
    requires i in group && group <= s.nodes.Keys && AllDrained(s, m, group - {i}) && Drained(m, s', i)
    ensures AllDrained(s, s', group)
  {
    forall j | j in s.nodes
      ensures SameButLoop(s.nodes[j], s'.nodes[j])
    {
      assert SameButLoop(s.nodes[j], m.nodes[j]);
    }
  }

  // ---- The whole way ----

  // Node i has told its state machine of the command at this index.
  ghost predicate HasDelivered(n: Node, cmd: Command, index: int) {
    0 < index <= |n.sent| && n.sent[index - 1] == CommandMsg(cmd, index)
  }

  lemma DrainedDelivers(ids: set<int>, s: State, s': State, c: int, log: seq<Entry>, group: set<int>, i: int)
    requires Reached(ids, s') && CommittedBy(s, c, log, group) && AllDrained(s, s', group + {c}) && i in group + {c} && log != []
    ensures i in s'.nodes && HasDelivered(s'.nodes[i], log[|log| - 1].command, |log|)
  {
    ReachedInv(ids, s');
    assert SameButLoop(s.nodes[i], s'.nodes[i]);
    assert s'.nodes[i].log[|log| - 1] == log[|log| - 1];
  }

  lemma WonBehind(ids: set<int>, s: State, s': State, c: int, t: int, group: set<int>)
    requires Reached(ids, s') && Won(s, s', ids, c, t, group) && c !in group
    ensures Behind(s', c, t, group)
  {
    ReachedLeader(ids, s', c, t);
    forall v | v in group
      ensures v in s'.nodes && v != c && s'.nodes[v].term <= t && v in s'.nodes[c].peers.Keys
    {
      assert VotedIn(s.nodes[v], s'.nodes[v], c, t);
    }
  }

  // A command is delivered by all of the group, and by c, right after c's log.
  ghost predicate Served(s: State, s': State, c: int, t: int, group: set<int>, cmd: Command) {
    && c in s.nodes && Leads(s', c, t)
    && var log := s.nodes[c].log + [Entry(|s.nodes[c].log| + 1, t, cmd)];
       && s'.nodes[c].log == log
       && forall i :: i in group + {c} ==> i in s'.nodes && log <= s'.nodes[i].log && HasDelivered(s'.nodes[i], cmd, |log|)
  }

  lemma Delivers(ids: set<int>, s: State, c: int, group: set<int>) returns (s': State)
    requires Reached(ids, s) && c in s.nodes && CommittedBy(s, c, s.nodes[c].log, group) && s.nodes[c].log != []
    ensures Leadsto(true, s, s') && c in s'.nodes && SameButLoop(s.nodes[c], s'.nodes[c])
    ensures var log := s.nodes[c].log;
            forall i :: i in group + {c} ==>
              i in s'.nodes && log <= s'.nodes[i].log && HasDelivered(s'.nodes[i], log[|log| - 1].command, |log|)
  {
    var log := s.nodes[c].log;
    forall i | i in group + {c}
      ensures i in s.nodes.Keys
    {
    }
    s' := DrainAll(ids, s, group + {c});
    Onward(ids, s, s');
    forall i | i in group + {c}
      ensures i in s'.nodes && log <= s'.nodes[i].log && HasDelivered(s'.nodes[i], log[|log| - 1].command, |log|)
    {
      DrainedDelivers(ids, s, s', c, log, group, i);
      assert SameButLoop(s.nodes[i], s'.nodes[i]);
    }
  }

  // A leader that, with a group of nodes not ahead of it, is a majority can have
  // any command committed and delivered by all of them.
  lemma LeaderServes(ids: set<int>, s: State, c: int, t: int, group: set<int>, cmd: Command) returns (s': State)
    requires Reached(ids, s) && Behind(s, c, t, group) && c in ids && 2 * (|group| + 1) > |ids|
    ensures Leadsto(true, s, s') && Served(s, s', c, t, group, cmd)
  {
    var m := CanCommit(ids, s, c, t, group, cmd);
    Onward(ids, s, m);
    s' := Delivers(ids, m, c, group);
    Joins(true, s, m, s');
  }

  // At every moment of every run: any node that does not lead and, with a group
  // of nodes whose logs are not newer, is a majority can be elected in any later
  // term that is later for the group too, and then have any command committed
  // and delivered by all of them.
  lemma CanServe(ids: set<int>, s: State, c: int, t: int, group: set<int>, cmd: Command) returns (s': State)
    requires Reached(ids, s) && c in ids && s.nodes.Keys == ids && s.nodes[c].role != Leader && t > s.nodes[c].term
    requires group <= ids - {c} && 2 * (|group| + 1) > |ids|
    requires forall v :: v in group ==> v in ids && s.nodes[v].term < t && NotOlder(s.nodes[c].log, s.nodes[v].log)
    ensures Leadsto(true, s, s') && Served(s, s', c, t, group, cmd)
  {
    ReachedKnown(ids, s);
    Alone(ids, c, group);
    var m := CanBeElected(ids, true, s, c, t, group);
    s' := ElectedServes(ids, s, m, c, t, group, cmd);
  }

  lemma ElectedServes(ids: set<int>, s: State, m: State, c: int, t: int, group: set<int>, cmd: Command) returns (s': State)
    requires Reached(ids, s) && Leadsto(true, s, m) && Won(s, m, ids, c, t, group) && c !in group && 2 * (|group| + 1) > |ids|
    ensures Leadsto(true, s, s') && Served(s, s', c, t, group, cmd)
  {
    Onward(ids, s, m);
    WonBehind(ids, s, m, c, t, group);
    s' := LeaderServes(ids, m, c, t, group, cmd);
    Joins(true, s, m, s');
  }

  lemma Alone(ids: set<int>, c: int, group: set<int>)
    requires c in ids && group <= ids - {c} && 2 * (|group| + 1) > |ids|
    ensures group == {} ==> ids == {c}
  {
    if group == {} {
      OnlyOne(ids, c);
    }
  }

  // ---- No run gets stuck ----

  // Some node has a log that is not older than any other,
  lemma {:induction false} BestLog(s: State, ids: set<int>) returns (c: int)
    requires ids <= s.nodes.Keys && |ids| > 0
    ensures c in ids && forall i :: i in ids ==> NotOlder(s.nodes[c].log, s.nodes[i].log)
    decreases |ids|
  {
    var x := Pick(ids);
    var rest := ids - {x};
    assert |rest| == |ids| - 1;
    c := x;
    NotOlderOrders(s.nodes[x].log, s.nodes[x].log, s.nodes[x].log);
    if |rest| > 0 {
      var b := BestLog(s, rest);
      NotOlderOrders(s.nodes[x].log, s.nodes[b].log, []);
      if !NotOlder(s.nodes[x].log, s.nodes[b].log) { c := b; }
      forall i | i in ids
        ensures NotOlder(s.nodes[c].log, s.nodes[i].log)
      {
        NotOlderOrders(s.nodes[x].log, s.nodes[b].log, s.nodes[i].log);
      }
    } else {
      assert ids == {x};
    }
  }

  // and some node a term that is not earlier.
  lemma {:induction false} LastTerm(s: State, ids: set<int>) returns (d: int)
    requires ids <= s.nodes.Keys && |ids| > 0
    ensures d in ids && forall i :: i in ids ==> s.nodes[i].term <= s.nodes[d].term
    decreases |ids|
  {
    var x := Pick(ids);
    var rest := ids - {x};
    assert |rest| == |ids| - 1;
    d := x;
    if |rest| > 0 {
      var b := LastTerm(s, rest);
      if s.nodes[b].term > s.nodes[x].term { d := b; }
    } else {
      assert ids == {x};
    }
  }

  // The logs are as they were, c does not lead, and nobody is past term t.
  ghost predicate Unseated(s: State, s': State, ids: set<int>, c: int, t: int) {
    && s.nodes.Keys == s'.nodes.Keys == ids && c in ids && s'.nodes[c].role != Leader
    && forall i :: i in ids ==> s'.nodes[i].log == s.nodes[i].log && s'.nodes[i].term <= t
  }

  // A leader is deposed by a candidate of a later term.
  lemma Depose(ids: set<int>, s: State, c: int, d: int) returns (s': State)
    requires Known(s, ids) && c in ids && d in ids && c != d && s.nodes[d].role != Leader
    requires forall i :: i in ids ==> s.nodes[i].term <= s.nodes[d].term
    ensures Leadsto(true, s, s') && Unseated(s, s', ids, c, s.nodes[d].term + 1)
  {
    var t := s.nodes[d].term + 1;
    var m := Begin(ids, true, s, d);
    BegunKnown(s, m, ids, d, t);
    var w, req := Ask(true, m, Call(d, t, c));
    s' := Reject(w, Call(d, t, c), req, m.nodes[d].log);
    Joins(true, s, m, w);
    Joins(true, s, w, s');
    assert KnownAt(m.nodes[d], ids, d) && KnownAt(m.nodes[c], ids, c);
  }

  // Whatever the answer.
  lemma Reject(s: State, call: Call, req: VoteRequest, log: seq<Entry>) returns (s': State)
    requires VoteMsg(call, req) in s.net.voteMsgs && call.peer in s.nodes && req.term > s.nodes[call.peer].term
    requires Describes(req, log) && Positive(log) && Positive(s.nodes[call.peer].log)
    ensures Leadsto(true, s, s') && call.peer in s'.nodes && s'.nodes == s.nodes[call.peer := s'.nodes[call.peer]]
    ensures s'.nodes[call.peer].role == Follower && s'.nodes[call.peer].term == req.term
    ensures s'.nodes[call.peer].log == s.nodes[call.peer].log
  {
    var msg := VoteMsg(call, req);
    GrantsExactly(s.nodes[call.peer], log, req, true);
    s' := Do(s, ReceiveVoteRequest(msg, true));
    OneStep(true, s, ReceiveVoteRequest(msg, true), s');
  }

  ghost predicate ServedByAll(s': State, ids: set<int>, c: int, t: int, cmd: Command, index: int) {
    Leads(s', c, t) && forall i :: i in ids ==> i in s'.nodes && HasDelivered(s'.nodes[i], cmd, index)
  }

  lemma AllServed(s: State, s': State, ids: set<int>, c: int, t: int, cmd: Command)
    requires c in ids && Served(s, s', c, t, ids - {c}, cmd)
    ensures ServedByAll(s', ids, c, t, cmd, |s.nodes[c].log| + 1)
  {
    assert (ids - {c}) + {c} == ids;
  }

  lemma NewLeaderServes(ids: set<int>, s: State, c: int, t: int, cmd: Command) returns (s': State)
    requires Reached(ids, s) && s.nodes.Keys == ids && c in ids && s.nodes[c].role != Leader
    requires forall i :: i in ids ==> s.nodes[i].term < t && NotOlder(s.nodes[c].log, s.nodes[i].log)
    ensures Leadsto(true, s, s') && ServedByAll(s', ids, c, t, cmd, |s.nodes[c].log| + 1)
  {
    assert |ids - {c}| == |ids| - 1;
    s' := CanServe(ids, s, c, t, ids - {c}, cmd);
    AllServed(s, s', ids, c, t, cmd);
  }

  lemma OldLeaderServes(ids: set<int>, s: State, c: int, cmd: Command) returns (s': State)
    requires Reached(ids, s) && s.nodes.Keys == ids && c in ids && s.nodes[c].role == Leader
    requires forall i :: i in ids ==> s.nodes[i].term <= s.nodes[c].term
    ensures Leadsto(true, s, s') && ServedByAll(s', ids, c, s.nodes[c].term, cmd, |s.nodes[c].log| + 1)
  {
    var t := s.nodes[c].term;
    assert |ids - {c}| == |ids| - 1;
    ReachedLeader(ids, s, c, t);
    assert Behind(s, c, t, ids - {c});
    s' := LeaderServes(ids, s, c, t, ids - {c}, cmd);
    AllServed(s, s', ids, c, t, cmd);
  }

  lemma DeposedServes(ids: set<int>, s: State, m: State, c: int, t: int, cmd: Command) returns (s': State)
    requires Reached(ids, s) && Leadsto(true, s, m) && Unseated(s, m, ids, c, t)
    requires forall i :: i in ids ==> NotOlder(s.nodes[c].log, s.nodes[i].log)
    ensures Leadsto(true, s, s') && ServedByAll(s', ids, c, t + 1, cmd, |s.nodes[c].log| + 1)
  {
    Onward(ids, s, m);
    forall i | i in ids
      ensures m.nodes[i].term < t + 1 && NotOlder(m.nodes[c].log, m.nodes[i].log)
    {
      assert m.nodes[i].log == s.nodes[i].log && m.nodes[c].log == s.nodes[c].log;
    }
    s' := NewLeaderServes(ids, m, c, t + 1, cmd);
    Joins(true, s, m, s');
  }

  // From any state of any run any command can still be committed and delivered
  // by every node, all at one index.
  lemma NeverStuck(ids: set<int>, s: State, cmd: Command) returns (s': State, c: int, t: int, index: int)
    requires Reached(ids, s)
    ensures Leadsto(true, s, s') && ServedByAll(s', ids, c, t, cmd, index)
  {
    ReachedIds(ids, s);
    ReachedKnown(ids, s);
    var d := LastTerm(s, ids);
    if s.nodes[d].role == Leader {
      s' := OldLeaderServes(ids, s, d, cmd);
      c, t, index := d, s.nodes[d].term, |s.nodes[d].log| + 1;
    } else {
      c := BestLog(s, ids);
      index := |s.nodes[c].log| + 1;
      if s.nodes[c].role == Leader {
        t := s.nodes[d].term + 2;
        var m := Depose(ids, s, c, d);
        s' := DeposedServes(ids, s, m, c, t - 1, cmd);
      } else {
        t := s.nodes[d].term + 1;
        s' := NewLeaderServes(ids, s, c, t, cmd);
      }
    }
  }

  // Every moment of a run is such a state.
  lemma RunReached(ids: set<int>, run: seq<State>, acts: seq<Action>, k: nat)
    requires ValidIds(ids) && SafeSize(|ids|) && IsRun(ids, true, run, acts) && k < |run|
    ensures Reached(ids, run[k])
  {
    RunLeads(ids, true, run, acts, k);
  }
}
