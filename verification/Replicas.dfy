// What the cluster's safety means for a follower that hears old requests, for
// a follower that compacts, and for the state machines (raft/replication.go,
// raft/raft.go, kv/apply.go).
module Replicas {
  import opened KvTypes
  import opened KvSpec
  import opened KvRuns
  import opened StoreSpec
  import opened DedupSpec
  import opened Dedup
  import opened RaftTypes
  import opened NodeSpec
  import opened Cluster
  import opened ClusterInvariant
  import opened Quorums
  import opened CommitSteps
  import C = Compaction
  import E = KvExamples
  import Safety = ClusterSafety
  import S = CompactionSafety

  // What a node confirmed to its current leader, it holds.
  lemma ConfirmedHeld(s: State, v: int, t: int, n: nat)
    requires AcksOk(s.nodes, s.hist) && Acked(s.hist.acks, v, t, n) && v in s.nodes && s.nodes[v].term == t
    ensures t in s.hist.leaderLog && n <= |s.hist.leaderLog[t]| && s.hist.leaderLog[t][..n] <= s.nodes[v].log
  {
    assert Retains(s.nodes[v], s.hist.leaderLog, t, n);
  }

  lemma HeldMerge(log: seq<Entry>, w: seq<Entry>, at: nat, len: nat)
    requires at + len <= |w| && w[..at + len] <= log
    ensures at <= |log| && FirstNew(log, at, w[at..at + len]) == len
  {
    var i := FirstNew(log, at, w[at..at + len]);
    assert forall k :: 0 <= k < at + len ==> log[k] == w[..at + len][k];
  }

  // A request in flight is a stretch of its leader's log; the receiver is not compacted.
  lemma RunRequest(ids: set<int>, run: seq<State>, acts: seq<Action>, k: nat, m: AppendMsg)
    requires ValidIds(ids) && SafeSize(|ids|) && IsRun(ids, true, run, acts) && k < |run|
    requires m in run[k].net.appendMsgs
    ensures RequestOk(run[k].nodes, run[k].hist, m.to, m.req) && run[k].nodes[m.to].logBase == 0
  {
    Safety.RunInv(ids, run, acts, k);
  }

  // What a successful answer confirmed, its sender holds or has left the term.
  lemma RunConfirmed(ids: set<int>, run: seq<State>, acts: seq<Action>, k: nat, v: AppendAnswer, n: nat)
    requires ValidIds(ids) && SafeSize(|ids|) && IsRun(ids, true, run, acts) && k < |run|
    requires v in run[k].net.appendAnswers && v.reply.success && n <= v.msg.req.prevLogIndex + |v.msg.req.entries|
    ensures var s, t := run[k], v.msg.req.term;
            && v.msg.to in s.nodes && t in s.hist.leaderLog && n <= |s.hist.leaderLog[t]| && t <= s.nodes[v.msg.to].term
            && (t == s.nodes[v.msg.to].term ==> s.hist.leaderLog[t][..n] <= s.nodes[v.msg.to].log)
  {
    Safety.RunInv(ids, run, acts, k);
    var s, i, t := run[k], v.msg.to, v.msg.req.term;
    assert Acked(s.hist.acks, i, t, n);
    if t == s.nodes[i].term { ConfirmedHeld(s, i, t, n); }
  }

  // A request at or below what this node already confirmed in the same term,
  // repeated or overtaken on the way, leaves log and file as they are.
  lemma OldRequestChangesNothing(
    ids: set<int>, run: seq<State>, acts: seq<Action>, k: nat, m: AppendMsg, v: AppendAnswer, ok: bool)
    requires ValidIds(ids) && SafeSize(|ids|) && IsRun(ids, true, run, acts) && k < |run|
    requires m in run[k].net.appendMsgs && v in run[k].net.appendAnswers && v.reply.success
    requires v.msg.to == m.to && v.msg.req.term == m.req.term
    requires m.req.prevLogIndex + |m.req.entries| <= v.msg.req.prevLogIndex + |v.msg.req.entries|
    ensures m.to in run[k].nodes && InContract(run[k].nodes[m.to], m.req)
    ensures var n := run[k].nodes[m.to];
            var (n', r) := HandleAppendEntries(n, m.req, ok);
            && n'.log == n.log && n'.disk == n.disk
            && (m.req.term == n.term ==> r == Some(AppendReply(n.term, true)))
  {
    RunRequest(ids, run, acts, k, m);
    RunConfirmed(ids, run, acts, k, v, m.req.prevLogIndex + |m.req.entries|);
    var n := run[k].nodes[m.to];
    if m.req.term == n.term {
      AcceptsHeld(n, m.req, run[k].hist.leaderLog[m.req.term], ok);
    }
  }

  lemma AcceptsKnown(n: Node, req: AppendRequest, ok: bool)
    requires n.logBase == 0 && 0 <= req.prevLogIndex <= |n.log| && PrevMatches(n, req)
    requires FirstNew(n.log, req.prevLogIndex, req.entries) == |req.entries|
    ensures var (n', r) := AcceptEntries(n, req, ok);
            n'.log == n.log && n'.disk == n.disk && r == Some(AppendReply(n.term, true))
  {
  }

  lemma AcceptsHeld(n: Node, req: AppendRequest, w: seq<Entry>, ok: bool)
    requires n.logBase == 0 && req.term == n.term && 0 <= req.prevLogIndex && req.prevLogIndex + |req.entries| <= |w|
    requires req.entries == w[req.prevLogIndex..req.prevLogIndex + |req.entries|]
    requires req.prevLogIndex > 0 ==> req.prevLogTerm == w[req.prevLogIndex - 1].term
    requires w[..req.prevLogIndex + |req.entries|] <= n.log
    ensures InContract(n, req)
    ensures var (n', r) := HandleAppendEntries(n, req, ok);
            n'.log == n.log && n'.disk == n.disk && r == Some(AppendReply(n.term, true))
  {
    HeldMerge(n.log, w, req.prevLogIndex, |req.entries|);
    var p, m := req.prevLogIndex, HearLeader(n, req);
    assert p > 0 ==> n.log[p - 1] == w[..p + |req.entries|][p - 1];
    assert m.log == n.log && m.disk == n.disk && m.logBase == 0 && m.term == n.term;
    AcceptsKnown(m, req, ok);
  }

  lemma RunSenderHolds(ids: set<int>, run: seq<State>, acts: seq<Action>, k: nat, m: AppendMsg)
    requires ValidIds(ids) && SafeSize(|ids|) && IsRun(ids, true, run, acts) && k < |run|
    requires m in run[k].net.appendMsgs && m.to in run[k].nodes && run[k].nodes[m.to].term <= m.req.term
    ensures m.req.term in run[k].hist.leaderLog
    ensures var n, w := run[k].nodes[m.to], run[k].hist.leaderLog[m.req.term];
            && LogShape(w, m.req.term) && n.commitIndex <= |n.log| && n.commitIndex <= |w|
            && n.log[..n.commitIndex] == w[..n.commitIndex]
  {
    Safety.RunInv(ids, run, acts, k);
    assert RequestOk(run[k].nodes, run[k].hist, m.to, m.req);
    FollowerBacked(run[k], m);
  }

  // Every request in flight that its receiver would not refuse as stale
  // repeats what that receiver has committed: what a compacting node relies on.
  lemma RequestsRepeatCommitted(ids: set<int>, run: seq<State>, acts: seq<Action>, k: nat, m: AppendMsg, ok: bool)
    requires ValidIds(ids) && SafeSize(|ids|) && IsRun(ids, true, run, acts) && k < |run|
    requires m in run[k].net.appendMsgs
    ensures m.to in run[k].nodes
    ensures C.Legal(C.Track(run[k].nodes[m.to], run[k].nodes[m.to].log), C.Append(m.req, ok))
  {
    RunRequest(ids, run, acts, k, m);
    var n := run[k].nodes[m.to];
    if m.req.term >= n.term {
      RunSenderHolds(ids, run, acts, k, m);
      StretchAgrees(n, m.req, run[k].hist.leaderLog[m.req.term], m.req.term);
    }
  }

  lemma StretchAgrees(n: Node, req: AppendRequest, w: seq<Entry>, top: int)
    requires LogShape(w, top) && 0 <= req.prevLogIndex && req.prevLogIndex + |req.entries| <= |w|
    requires req.entries == w[req.prevLogIndex..req.prevLogIndex + |req.entries|]
    requires n.commitIndex <= |n.log| && n.commitIndex <= |w| && n.log[..n.commitIndex] == w[..n.commitIndex]
    ensures C.Agrees(C.Track(n, n.log), req)
  {
    var p := req.prevLogIndex;
    assert forall j :: 0 <= j < |req.entries| ==> req.entries[j] == w[p + j];
    assert forall x :: 0 <= x < n.commitIndex ==> n.log[x] == n.log[..n.commitIndex][x] == w[x];
  }

  // ---- The state machines ----

  ghost predicate Plain(sent: seq<ApplyMsg>) {
    forall k :: 0 <= k < |sent| ==> sent[k].CommandMsg?
  }

  function CommandsOf(sent: seq<ApplyMsg>): (cmds: seq<Command>)
    requires forall k :: 0 <= k < |sent| ==> sent[k].CommandMsg?
    ensures |cmds| == |sent| && forall k :: 0 <= k < |sent| ==> cmds[k] == sent[k].command
  {
    seq(|sent|, k requires 0 <= k < |sent| && sent[k].CommandMsg? => sent[k].command)
  }

  lemma {:induction false} ConsumesReached(kvs: seq<Kv>, sent: seq<ApplyMsg>, clks: seq<Clock>, x: nat)
    requires S.Consumes(kvs, sent, clks) && Plain(sent) && x <= |sent|
    ensures ReachedAt(CommandsOf(sent), clks, NoCuts(|sent| + 1), x, kvs[x])
  {
    if x > 0 {
      ConsumesReached(kvs, sent, clks, x - 1);
      assert S.Handles(kvs[x - 1], sent[x - 1], clks[x - 1], kvs[x]);
      var r :| Handled(kvs[x - 1], sent[x - 1].command, clks[x - 1], kvs[x], r);
      assert Continues(CommandsOf(sent), clks, NoCuts(|sent| + 1), x, kvs[x - 1], kvs[x], r, kvs[x]);
    }
  }

  // The server after x messages, from the first x alone.
  lemma ReplicaReached(kvs: seq<Kv>, sent: seq<ApplyMsg>, clks: seq<Clock>, x: nat)
    requires S.Consumes(kvs, sent, clks) && Plain(sent) && x <= |sent|
    ensures ReachedAt(CommandsOf(sent[..x]), clks[..x], NoCuts(x + 1), x, kvs[x])
  {
    ConsumesReached(kvs, sent, clks, x);
    var all, cmds := CommandsOf(sent), CommandsOf(sent[..x]);
    assert cmds[..x] == all[..x] && clks[..x][..x] == clks[..x];
    assert NoCuts(x + 1)[..x + 1] == NoCuts(|sent| + 1)[..x + 1];
    ReachedPrefix(all, clks, NoCuts(|sent| + 1), cmds, clks[..x], NoCuts(x + 1), x, kvs[x]);
  }

  lemma RunPlain(ids: set<int>, run: seq<State>, acts: seq<Action>, k: nat, i: int)
    requires ValidIds(ids) && SafeSize(|ids|) && IsRun(ids, true, run, acts) && k < |run| && i in run[k].nodes
    ensures Plain(run[k].nodes[i].sent)
  {
    Safety.DeliveredStream(ids, run, acts, k, i);
  }

  // Without client ids two state machines, looked at after the same number of
  // messages, hold the same map: the fold of the commands. Whatever nodes,
  // whatever moments, whatever clock readings.
  lemma ReplicasAgree(
    ids: set<int>, run: seq<State>, acts: seq<Action>, j: nat, k: nat, a: int, b: int,
    kvsA: seq<Kv>, clksA: seq<Clock>, kvsB: seq<Kv>, clksB: seq<Clock>, x: nat)
    requires ValidIds(ids) && SafeSize(|ids|) && IsRun(ids, true, run, acts) && j < |run| && k < |run|
    requires a in run[j].nodes && b in run[k].nodes
    requires x <= |run[j].nodes[a].sent| && x <= |run[k].nodes[b].sent|
    requires S.Consumes(kvsA, run[j].nodes[a].sent, clksA) && S.Consumes(kvsB, run[k].nodes[b].sent, clksB)
    ensures Plain(run[j].nodes[a].sent)
    ensures NoIds(CommandsOf(run[j].nodes[a].sent[..x])) ==>
              && kvsA[x].store == kvsB[x].store == FoldCommands(map[], CommandsOf(run[j].nodes[a].sent[..x]))
              && Written(map[], CommandsOf(run[j].nodes[a].sent[..x]), kvsA[x].store)
  {
    var sa, sb := run[j].nodes[a].sent, run[k].nodes[b].sent;
    RunPlain(ids, run, acts, j, a);
    RunPlain(ids, run, acts, k, b);
    Safety.DeliveriesAgree(ids, run, acts, j, k, a, b);
    assert sa[..x] == sb[..x];
    if NoIds(CommandsOf(sa[..x])) {
      ReplicaFold(kvsA, sa, clksA, x);
      ReplicaFold(kvsB, sb, clksB, x);
    }
  }

  lemma ReplicaFold(kvs: seq<Kv>, sent: seq<ApplyMsg>, clks: seq<Clock>, x: nat)
    requires S.Consumes(kvs, sent, clks) && Plain(sent) && x <= |sent| && NoIds(CommandsOf(sent[..x]))
    ensures kvs[x].store == FoldCommands(map[], CommandsOf(sent[..x])) && Written(map[], CommandsOf(sent[..x]), kvs[x].store)
  {
    ReplicaReached(kvs, sent, clks, x);
    var cmds := CommandsOf(sent[..x]);
    assert cmds[..x] == cmds;
    ReachedFold(cmds, clks[..x], NoCuts(x + 1), x, kvs[x]);
  }

  // With client ids each server executes what its own clock says;
  lemma ReplicaExact(kvs: seq<Kv>, sent: seq<ApplyMsg>, clks: seq<Clock>, x: nat)
    requires S.Consumes(kvs, sent, clks) && Plain(sent) && x <= |sent| && Ticks(CommandsOf(sent[..x]), clks[..x])
    ensures kvs[x].store == StoreBy(CommandsOf(sent[..x]), clks[..x], x)
  {
    ReplicaReached(kvs, sent, clks, x);
    ServerExact(CommandsOf(sent[..x]), clks[..x], NoCuts(x + 1), x, kvs[x], EMPTY, Result("", NoErr));
  }

  lemma ReplicaChooses(kvs: seq<Kv>, sent: seq<ApplyMsg>, clks: seq<Clock>, x: nat, x': nat)
    requires S.Consumes(kvs, sent, clks) && Plain(sent) && x < |sent| && x' == x + 1
    requires Ticks(CommandsOf(sent[..x']), clks[..x']) && sent[x].command.Encoded?
    ensures Executes(kvs[x], sent[x].command.op, clks[x]) <==> Runs(CommandsOf(sent[..x']), clks[..x'], x)
  {
    ReplicaReached(kvs, sent, clks, x);
    var cmds, few := CommandsOf(sent[..x']), CommandsOf(sent[..x]);
    assert cmds[..x] == few[..x] && clks[..x'][..x] == clks[..x][..x] && NoCuts(x' + 1)[..x + 1] == NoCuts(x + 1)[..x + 1];
    ReachedPrefix(few, clks[..x], NoCuts(x + 1), cmds, clks[..x'], NoCuts(x' + 1), x, kvs[x]);
    assert S.Handles(kvs[x], sent[x], clks[x], kvs[x']);
    var r :| Handled(kvs[x], sent[x].command, clks[x], kvs[x'], r);
    ServerExact(cmds, clks[..x'], NoCuts(x' + 1), x, kvs[x], kvs[x'], r);
  }

  // so two servers agree when their clocks move forward and by both readings
  // the same commands are executed, in particular when repeats are timely by both.
  lemma ReplicasAgreeWithIds(
    ids: set<int>, run: seq<State>, acts: seq<Action>, j: nat, k: nat, a: int, b: int,
    kvsA: seq<Kv>, clksA: seq<Clock>, kvsB: seq<Kv>, clksB: seq<Clock>, x: nat)
    requires ValidIds(ids) && SafeSize(|ids|) && IsRun(ids, true, run, acts) && j < |run| && k < |run|
    requires a in run[j].nodes && b in run[k].nodes
    requires x <= |run[j].nodes[a].sent| && x <= |run[k].nodes[b].sent|
    requires S.Consumes(kvsA, run[j].nodes[a].sent, clksA) && S.Consumes(kvsB, run[k].nodes[b].sent, clksB)
    ensures Plain(run[j].nodes[a].sent)
    ensures var cmds, ca, cb := CommandsOf(run[j].nodes[a].sent[..x]), clksA[..x], clksB[..x];
            Ticks(cmds, ca) && Ticks(cmds, cb) ==>
              && (SamePattern(cmds, ca, cb, x) ==> kvsA[x].store == kvsB[x].store)
              && (Timely(cmds, ca) && Timely(cmds, cb) ==> kvsA[x].store == kvsB[x].store == StoreAfter(cmds, x))
  {
    var sa, sb := run[j].nodes[a].sent, run[k].nodes[b].sent;
    RunPlain(ids, run, acts, j, a);
    RunPlain(ids, run, acts, k, b);
    Safety.DeliveriesAgree(ids, run, acts, j, k, a, b);
    assert sa[..x] == sb[..x];
    var cmds := CommandsOf(sa[..x]);
    if Ticks(cmds, clksA[..x]) && Ticks(cmds, clksB[..x]) {
      ReplicaExact(kvsA, sa, clksA, x);
      ReplicaExact(kvsB, sb, clksB, x);
      PatternAgrees(cmds, clksA[..x], clksB[..x]);
    }
  }

  lemma PatternAgrees(cmds: seq<Command>, ca: seq<Clock>, cb: seq<Clock>)
    requires |cmds| == |ca| == |cb|
    ensures SamePattern(cmds, ca, cb, |cmds|) ==> StoreBy(cmds, ca, |cmds|) == StoreBy(cmds, cb, |cmds|)
    ensures Timely(cmds, ca) ==> StoreBy(cmds, ca, |cmds|) == StoreAfter(cmds, |cmds|)
    ensures Timely(cmds, cb) ==> StoreBy(cmds, cb, |cmds|) == StoreAfter(cmds, |cmds|)
  {
    if SamePattern(cmds, ca, cb, |cmds|) { PatternStore(cmds, ca, cb, |cmds|); }
    if Timely(cmds, ca) { TimelyStore(cmds, ca, |cmds|); }
    if Timely(cmds, cb) { TimelyStore(cmds, cb, |cmds|); }
  }

  // Two clocks on which they part: one server handles a repeat within the
  // expiry, the other after it.
  lemma ReplicasPart()
    ensures var sent := [CommandMsg(E.TWICE[0], 1), CommandMsg(E.TWICE[1], 2)];
            var near, far := [EMPTY, E.Holding("a", 0), E.Holding("a", 0)], [EMPTY, E.Holding("a", 0), E.Holding("aa", EXPIRY + 1)];
            && S.Consumes(near, sent, [E.FIRST, E.SOON]) && S.Consumes(far, sent, [E.FIRST, E.LATE])
            && near[2].store != far[2].store
  {
    E.FirstExecutes();
    E.SoonAnswered();
    E.LateExecutes();
    assert S.Handles(EMPTY, CommandMsg(E.TWICE[0], 1), E.FIRST, E.Holding("a", 0));
    assert S.Handles(E.Holding("a", 0), CommandMsg(E.TWICE[1], 2), E.SOON, E.Holding("a", 0));
    assert S.Handles(E.Holding("a", 0), CommandMsg(E.TWICE[1], 2), E.LATE, E.Holding("aa", EXPIRY + 1));
    assert map["k" := "a"]["k"] != map["k" := "aa"]["k"];
  }
}
