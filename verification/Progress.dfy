// The leader's view of its peers over whole runs, and so that the catch-up
// loop applies to every leader and follower of a cluster (raft/replication.go,
// raft/election.go).
module Progress {
  import opened KvTypes
  import opened RaftTypes
  import opened NodeSpec
  import opened Cluster
  import opened ClusterInvariant
  import opened Quorums
  import opened LeaderSteps
  import opened ReplicationSpec
  import opened ClusterSteps
  import B = Backtracking
  import Safety = ClusterSafety

  // A leader's nextIndex for every peer lies between 1 and one past its log.
  ghost predicate NextOk(n: Node) {
    n.role == Leader ==> forall p :: p in n.peers ==> 1 <= n.peers[p].nextIndex <= |n.log| + 1
  }

  ghost predicate AllNextOk(nodes: map<int, Node>) {
    forall i :: i in nodes ==> NextOk(nodes[i])
  }

  // ---- Each critical section ----

  lemma VoteNext(n: Node, req: VoteRequest, ok: bool)
    requires NextOk(n)
    ensures NextOk(HandleRequestVote(n, req, ok).0)
  {
  }

  lemma CandidateNext(n: Node, ok: bool)
    requires NextOk(n)
    ensures NextOk(BecomeCandidate(n, ok).0)
  {
  }

  lemma CountNext(n: Node, term: int, reply: VoteReply)
    requires NextOk(n)
    ensures NextOk(CountVote(n, term, reply).0)
  {
  }

  lemma LeaderNext(n: Node)
    requires NextOk(n) && LogShape(n.log, n.term)
    ensures NextOk(BecomeLeader(n))
  {
  }

  lemma UpdateNext(n: Node)
    requires NextOk(n)
    ensures NextOk(UpdateCommit(n))
  {
  }

  lemma SubmitNext(n: Node, cmd: Command, ok: bool)
    requires NextOk(n)
    ensures NextOk(ReplicateCommand(n, cmd, ok).0)
  {
    var m := Persist(n.(log := n.log + [Entry(LastIndex(n) + 1, n.term, cmd)]));
    UpdateNext(m);
  }

  // Not the leader of the request's term.
  lemma AppendNext(n: Node, req: AppendRequest, ok: bool)
    requires NextOk(n) && InContract(n, req) && (n.role == Leader ==> req.term != n.term)
    ensures NextOk(HandleAppendEntries(n, req, ok).0)
  {
    if req.term >= n.term {
      var m := HearLeader(n, req);
      assert m.role != Leader;
      if PrevMatches(m, req) { AcceptRole(m, req, ok); }
    }
  }

  lemma AcceptRole(n: Node, req: AppendRequest, ok: bool)
    requires PrevMatches(n, req) && (req.prevLogIndex > 0 || req.entries == [] || req.prevLogIndex >= n.logBase)
    ensures AcceptEntries(n, req, ok).0.role == n.role
  {
  }

  lemma ReplyNext(n: Node, peer: int, req: AppendRequest, reply: AppendReply)
    requires NextOk(n) && peer in n.peers
    requires n.role == Leader && n.term == req.term && reply.success ==>
               0 <= req.prevLogIndex + |req.entries| <= |n.log| && n.peers[peer].matchIndex <= |n.log|
    ensures NextOk(HandleAppendReply(n, peer, req, reply))
  {
    if n.role == Leader && n.term == req.term && reply.term <= n.term && reply.success {
      UpdateNext(RecordMatch(n, peer, req.prevLogIndex + |req.entries|));
    }
  }

  // ---- Each action ----

  // What an answer confirmed, and what a leader recorded, is within its log.
  lemma WithinLog(s: State, c: int, p: int, n: int)
    requires LeadersOk(s.nodes, s.hist) && AcksShape(s.nodes, s.hist)
    requires c in s.nodes && s.nodes[c].role == Leader && (n <= 0 || Acked(s.hist.acks, p, s.nodes[c].term, n))
    ensures n <= |s.nodes[c].log|
  {
    assert (c, s.nodes[c].term) in s.hist.leaders;
  }

  lemma MatchWithin(s: State, c: int, p: int)
    requires LeadersOk(s.nodes, s.hist) && AcksShape(s.nodes, s.hist) && MatchOk(s.nodes, s.hist)
    requires c in s.nodes && s.nodes[c].role == Leader && p in s.nodes[c].peers
    ensures s.nodes[c].peers[p].matchIndex <= |s.nodes[c].log|
  {
    WithinLog(s, c, p, s.nodes[c].peers[p].matchIndex);
  }

  lemma ReplyStep(s: State, v: AppendAnswer)
    requires RequestsOk(s.nodes, s.net, s.hist) && AnswersOk(s.net, s.hist)
    requires LeadersOk(s.nodes, s.hist) && AcksShape(s.nodes, s.hist) && MatchOk(s.nodes, s.hist)
    requires AllNextOk(s.nodes) && Enabled(s, ReceiveAppendReply(v), true)
    ensures AllNextOk(DoReceiveAppendReply(s, v).nodes)
  {
    var c, req := v.msg.req.leader, v.msg.req;
    assert RequestOk(s.nodes, s.hist, v.msg.to, req);
    if s.nodes[c].role == Leader && s.nodes[c].term == req.term && v.reply.success {
      WithinLog(s, c, v.msg.to, req.prevLogIndex + |req.entries|);
      MatchWithin(s, c, v.msg.to);
    }
    ReplyNext(s.nodes[c], v.msg.to, req, v.reply);
  }

  // A leader is never sent a request of its own term.
  lemma AppendStep(s: State, m: AppendMsg, ok: bool)
    requires RequestsOk(s.nodes, s.net, s.hist) && LeadersOk(s.nodes, s.hist) && OneLeaderPerTerm(s.hist.leaders)
    requires AllNextOk(s.nodes) && Enabled(s, ReceiveAppend(m, ok), true)
    ensures AllNextOk(DoReceiveAppend(s, m, ok).nodes)
  {
    assert RequestOk(s.nodes, s.hist, m.to, m.req);
    if InContract(s.nodes[m.to], m.req) { AppendNext(s.nodes[m.to], m.req, ok); }
  }

  lemma SmallSteps(s: State, a: Action)
    requires LogsOk(s.nodes, s.hist.leaderLog) && AllNextOk(s.nodes) && Enabled(s, a, true)
    requires !a.ReceiveAppend? && !a.ReceiveAppendReply?
    ensures AllNextOk(Do(s, a).nodes)
  {
    match a
    case Timeout(i, ok) => CandidateNext(s.nodes[i], ok);
    case AskVote(_) =>
    case ReceiveVoteRequest(m, ok) => VoteNext(s.nodes[m.call.peer], m.req, ok);
    case ReceiveVoteReply(v) => CountNext(s.nodes[v.call.candidate], v.call.term, v.reply);
    case Promote(i, _) => LeaderNext(s.nodes[i]);
    case ClientCommand(i, cmd, ok) => SubmitNext(s.nodes[i], cmd, ok);
    case SendAppend(_, _, _) =>
    case Wake(_) =>
    case Apply(_) =>
  }

  lemma ActionNext(s: State, a: Action)
    requires Inv(s) && AllNextOk(s.nodes) && Enabled(s, a, true)
    ensures AllNextOk(Do(s, a).nodes)
  {
    match a
    case ReceiveAppend(m, ok) =>
      OneLeader(s.nodes, s.net, s.hist);
      AppendStep(s, m, ok);
    case ReceiveAppendReply(v) => ReplyStep(s, v);
    case _ => SmallSteps(s, a);
  }

  // ---- Every run ----

  lemma RunStepNext(ids: set<int>, run: seq<State>, acts: seq<Action>, j: nat, k: nat)
    requires ValidIds(ids) && SafeSize(|ids|) && IsRun(ids, true, run, acts) && j < |acts| && k == j + 1
    requires AllNextOk(run[j].nodes)
    ensures AllNextOk(run[k].nodes)
  {
    Safety.RunInv(ids, run, acts, j);
    assert StepAt(true, run, acts, j);
    ActionNext(run[j], acts[j]);
  }

  lemma {:induction false} RunNext(ids: set<int>, run: seq<State>, acts: seq<Action>, k: nat)
    requires ValidIds(ids) && SafeSize(|ids|) && IsRun(ids, true, run, acts) && k < |run|
    ensures AllNextOk(run[k].nodes)
  {
    if k > 0 {
      RunNext(ids, run, acts, k - 1);
      RunStepNext(ids, run, acts, k - 1, k);
    }
  }

  lemma RunProgress(ids: set<int>, run: seq<State>, acts: seq<Action>, k: nat, c: int, p: int)
    requires ValidIds(ids) && SafeSize(|ids|) && IsRun(ids, true, run, acts) && k < |run|
    requires c in run[k].nodes && run[k].nodes[c].role == Leader && p in run[k].nodes[c].peers
    ensures p in run[k].nodes && run[k].nodes[c].logBase == 0 && run[k].nodes[p].logBase == 0
    ensures run[k].nodes[c].peers[p].matchIndex <= |run[k].nodes[c].log|
    ensures 1 <= run[k].nodes[c].peers[p].nextIndex <= |run[k].nodes[c].log| + 1
  {
    Safety.RunInv(ids, run, acts, k);
    RunNext(ids, run, acts, k);
    MatchWithin(run[k], c, p);
    assert NextOk(run[k].nodes[c]);
  }

  // Every leader and every peer not ahead of it in term, at every moment of a
  // run, are as the catch-up loop needs them.
  lemma RunStable(ids: set<int>, run: seq<State>, acts: seq<Action>, k: nat, c: int, p: int)
    requires ValidIds(ids) && SafeSize(|ids|) && IsRun(ids, true, run, acts) && k < |run|
    requires c in run[k].nodes && run[k].nodes[c].role == Leader && p in run[k].nodes[c].peers && p in run[k].nodes
    requires run[k].nodes[p].term <= run[k].nodes[c].term
    ensures B.Stable(run[k].nodes[c], run[k].nodes[p], p)
  {
    RunProgress(ids, run, acts, k, c, p);
    var a, b := run[k].nodes[c].log, run[k].nodes[p].log;
    forall x
      ensures B.MatchingAt(a, b, x)
    {
      if 0 <= x < |a| && x < |b| && a[x].term == b[x].term { Safety.LogMatching(ids, run, acts, k, k, c, p, x); }
    }
  }

  // ---- The apply loop is never left asleep ----

  ghost predicate Awake(n: Node) {
    n.lastApplied < n.commitIndex ==> n.wake || n.applying
  }

  ghost predicate AllAwake(nodes: map<int, Node>) {
    forall i :: i in nodes ==> Awake(nodes[i])
  }

  // Nothing happened to the loop, or the commit index rose with a signal.
  ghost predicate SignalsOrSame(n: Node, n': Node) {
    && n'.lastApplied == n.lastApplied && n'.applying == n.applying
    && (n'.wake || (n'.commitIndex == n.commitIndex && !n.wake))
  }

  lemma ReplySignals(n: Node, peer: int, req: AppendRequest, reply: AppendReply)
    requires peer in n.peers
    ensures SignalsOrSame(n, HandleAppendReply(n, peer, req, reply))
  {
  }

  lemma SubmitSignals(n: Node, cmd: Command, ok: bool)
    ensures SignalsOrSame(n, ReplicateCommand(n, cmd, ok).0)
  {
  }

  lemma AppendSignals(n: Node, req: AppendRequest, ok: bool)
    requires InContract(n, req)
    ensures SignalsOrSame(n, HandleAppendEntries(n, req, ok).0)
  {
    AppendTakes(n, req, ok);
  }

  lemma SmallAwake(s: State, a: Action)
    requires WellFormed(s.nodes) && DeliveredOk(s.nodes) && AllAwake(s.nodes) && Enabled(s, a, true)
    requires !a.ClientCommand? && !a.ReceiveAppend? && !a.ReceiveAppendReply?
    ensures AllAwake(Do(s, a).nodes)
  {
  }

  lemma OneAwake(nodes: map<int, Node>, i: int, n': Node)
    requires AllAwake(nodes) && i in nodes && SignalsOrSame(nodes[i], n')
    ensures AllAwake(nodes[i := n'])
  {
    assert Awake(nodes[i]);
  }

  lemma ReceiveAwake(s: State, m: AppendMsg, ok: bool)
    requires AllAwake(s.nodes) && Enabled(s, ReceiveAppend(m, ok), true)
    ensures AllAwake(DoReceiveAppend(s, m, ok).nodes)
  {
    if InContract(s.nodes[m.to], m.req) {
      AppendSignals(s.nodes[m.to], m.req, ok);
      OneAwake(s.nodes, m.to, HandleAppendEntries(s.nodes[m.to], m.req, ok).0);
    }
  }

  lemma ReplyAwake(s: State, v: AppendAnswer)
    requires AllAwake(s.nodes) && Enabled(s, ReceiveAppendReply(v), true)
    ensures AllAwake(DoReceiveAppendReply(s, v).nodes)
  {
    var c := v.msg.req.leader;
    ReplySignals(s.nodes[c], v.msg.to, v.msg.req, v.reply);
    OneAwake(s.nodes, c, HandleAppendReply(s.nodes[c], v.msg.to, v.msg.req, v.reply));
  }

  lemma ActionAwake(s: State, a: Action)
    requires WellFormed(s.nodes) && DeliveredOk(s.nodes) && AllAwake(s.nodes) && Enabled(s, a, true)
    ensures AllAwake(Do(s, a).nodes)
  {
    match a
    case ClientCommand(i, cmd, ok) =>
      SubmitSignals(s.nodes[i], cmd, ok);
      OneAwake(s.nodes, i, ReplicateCommand(s.nodes[i], cmd, ok).0);
    case ReceiveAppend(m, ok) => ReceiveAwake(s, m, ok);
    case ReceiveAppendReply(v) => ReplyAwake(s, v);
    case _ => SmallAwake(s, a);
  }

  // In every run: a node with committed entries to deliver has its loop running
  // or about to run.
  lemma {:induction false} RunAwake(ids: set<int>, run: seq<State>, acts: seq<Action>, k: nat)
    requires ValidIds(ids) && SafeSize(|ids|) && IsRun(ids, true, run, acts) && k < |run|
    ensures AllAwake(run[k].nodes)
  {
    if k > 0 {
      RunAwake(ids, run, acts, k - 1);
      RunStepAwake(ids, run, acts, k - 1, k);
    }
  }

  lemma RunStepAwake(ids: set<int>, run: seq<State>, acts: seq<Action>, j: nat, k: nat)
    requires ValidIds(ids) && SafeSize(|ids|) && IsRun(ids, true, run, acts) && j < |acts| && k == j + 1
    requires AllAwake(run[j].nodes)
    ensures AllAwake(run[k].nodes)
  {
    Safety.RunInv(ids, run, acts, j);
    assert StepAt(true, run, acts, j);
    ActionAwake(run[j], acts[j]);
  }
}
