// What compaction keeps over every run of a node, and what the state machine
// above it sees (raft/raft.go, raft/replication.go, raft/snapshot.go,
// kv/snapshot.go).
module CompactionSafety {
  import opened KvTypes
  import opened KvSpec
  import opened KvRuns
  import opened StoreSpec
  import opened RaftTypes
  import opened NodeSpec
  import opened Compaction
  import B = Backtracking

  // ---- Every run ----

  lemma {:induction false} RunInv(run: seq<Track>, acts: seq<Action>, k: nat)
    requires IsRun(run, acts) && k <= |acts|
    ensures Inv(run[k])
  {
    if k > 0 {
      RunInv(run, acts, k - 1);
      RunStep(run, acts, k - 1, k);
    }
  }

  lemma RunStep(run: seq<Track>, acts: seq<Action>, j: nat, k: nat)
    requires IsRun(run, acts) && j < |acts| && k == j + 1 && Inv(run[j])
    ensures Inv(run[k]) && Keeps(run[j], run[k])
  {
    assert StepAt(run, acts, j);
    StepKeeps(run[j], acts[j]);
  }

  // Committed entries, delivered messages and both indexes only ever grow.
  lemma {:induction false} RunKeeps(run: seq<Track>, acts: seq<Action>, j: nat, k: nat)
    requires IsRun(run, acts) && j <= k <= |acts|
    ensures Keeps(run[j], run[k])
    decreases k
  {
    if j == k {
      RunInv(run, acts, k);
    } else {
      RunKeeps(run, acts, j, k - 1);
      RunInv(run, acts, k - 1);
      RunStep(run, acts, k - 1, k);
      KeepsTransitive(run[j], run[k - 1], run[k]);
    }
  }

  // The compacted log is the tail of the whole log and numbers itself so.
  lemma LogStaysAligned(run: seq<Track>, acts: seq<Action>, k: nat)
    requires IsRun(run, acts) && k <= |acts|
    ensures var n := run[k].node;
            && n.logBase <= n.lastApplied <= n.commitIndex <= n.logBase + |n.log|
            && (forall i :: 0 <= i < |n.log| ==> n.log[i].index == n.logBase + i + 1)
            && |run[k].full| == n.logBase + |n.log| && run[k].full[n.logBase..] == n.log
  {
    RunInv(run, acts, k);
    var n := run[k].node;
    assert forall i :: 0 <= i < |n.log| ==> n.log[i] == run[k].full[n.logBase + i];
  }

  // ---- The apply stream ----

  // Index x was delivered, with the whole log's command.
  ghost predicate Delivered(sent: seq<ApplyMsg>, full: seq<Entry>, x: int) {
    0 < x <= |full| && CommandMsg(full[x - 1].command, x) in sent
  }

  // The index of the last snapshot installed, written or not; 0 if there is none.
  ghost function ResumedAt(run: seq<Track>, acts: seq<Action>, k: nat): int
    requires |run| == |acts| + 1 && k <= |acts|
  {
    if k == 0 then 0
    else if acts[k - 1].Install? && Installs(run[k - 1].node, acts[k - 1].snapReq) then acts[k - 1].snapReq.lastIndex
    else ResumedAt(run, acts, k - 1)
  }

  ghost predicate NoGap(t: Track, base: int) {
    forall x :: base < x <= t.node.lastApplied ==> Delivered(t.node.sent, t.full, x)
  }

  lemma DeliveredKept(t: Track, t': Track, x: int)
    requires Inv(t) && Keeps(t, t') && Delivered(t.node.sent, t.full, x) && x <= t.node.commitIndex
    ensures Delivered(t'.node.sent, t'.full, x)
  {
    var c := t.node.commitIndex;
    assert t'.full[x - 1] == t'.full[..c][x - 1] == t.full[..c][x - 1] == t.full[x - 1];
  }

  lemma AppendSendsNothing(n: Node, req: AppendRequest, ok: bool)
    requires InContract(n, req)
    ensures var m := HandleAppendEntries(n, req, ok).0; m.sent == n.sent && m.lastApplied == n.lastApplied
  {
    var m := HearLeader(n, req);
    if req.term >= n.term && PrevMatches(m, req) && req.entries != [] {
      var saved := AcceptShape(m, req, ok);
    }
  }

  lemma LeaderSendsNothing(n: Node, cmd: Command, ok: bool)
    ensures var m := ReplicateCommand(n, cmd, ok).0; m.sent == n.sent && m.lastApplied == n.lastApplied
  {
  }

  lemma OthersSendNothing(t: Track, a: Action)
    requires Legal(t, a) && !a.Install? && !a.Apply?
    ensures Node'(t, a).sent == t.node.sent && Node'(t, a).lastApplied == t.node.lastApplied
  {
    match a
    case Append(req, ok) => AppendSendsNothing(t.node, req, ok);
    case Replicate(cmd, ok) => LeaderSendsNothing(t.node, cmd, ok);
    case Reply(peer, req, reply) => ReplyCommits(t.node, peer, req, reply);
    case Compact(index, data, okState, okSnap) =>
    case _ =>
  }

  // What a step delivers, if anything: the next index, or a snapshot.
  lemma StepSends(t: Track, a: Action)
    requires Inv(t) && Legal(t, a)
    ensures var n, m := t.node, Node'(t, a);
            || (m.sent == n.sent && m.lastApplied == n.lastApplied)
            || (&& a.Apply? && n.lastApplied < |t.full| && Full'(t, a) == t.full && m.lastApplied == n.lastApplied + 1
                && m.sent == n.sent + [CommandMsg(t.full[n.lastApplied].command, m.lastApplied)])
            || (&& a.Install? && Installs(n, a.snapReq) && m.lastApplied == a.snapReq.lastIndex
                && m.sent == n.sent + if a.okState && a.okSnap
                                      then [SnapshotMsg(a.snapReq.data, a.snapReq.lastIndex, a.snapReq.lastTerm)] else [])
  {
    if a.Install? {
      InstallShape(t.node, a.snapReq, a.okState, a.okSnap);
    } else if a.Apply? {
      ApplyShape(t.node, t.full);
      Rejoined(t.node, t.full);
    } else {
      OthersSendNothing(t, a);
    }
  }

  lemma NoGapStep(t: Track, a: Action, base: int)
    requires Inv(t) && Legal(t, a) && NoGap(t, base)
    ensures NoGap(Next(t, a), if a.Install? && Installs(t.node, a.snapReq) then a.snapReq.lastIndex else base)
  {
    var t' := Next(t, a);
    StepKeeps(t, a);
    StepSends(t, a);
    forall x | base < x <= t'.node.lastApplied && !(a.Install? && Installs(t.node, a.snapReq))
      ensures Delivered(t'.node.sent, t'.full, x)
    {
      if x <= t.node.lastApplied { DeliveredKept(t, t', x); }
    }
  }

  lemma {:induction false} RunNoGap(run: seq<Track>, acts: seq<Action>, k: nat)
    requires IsRun(run, acts) && k <= |acts|
    ensures NoGap(run[k], ResumedAt(run, acts, k))
  {
    if k > 0 {
      RunNoGap(run, acts, k - 1);
      RunInv(run, acts, k - 1);
      assert StepAt(run, acts, k - 1);
      NoGapStep(run[k - 1], acts[k - 1], ResumedAt(run, acts, k - 1));
    }
  }

  // Indexes strictly increase, so nothing comes twice; every command is the
  // whole log's; and since the last install every applied index came.
  lemma ApplyStream(run: seq<Track>, acts: seq<Action>, k: nat)
    requires IsRun(run, acts) && k <= |acts|
    ensures var n, full := run[k].node, run[k].full;
            && (forall i, j :: 0 <= i < j < |n.sent| ==> IndexOf(n.sent[i]) < IndexOf(n.sent[j]))
            && (forall i :: 0 <= i < |n.sent| && n.sent[i].CommandMsg? ==>
                  Delivered(n.sent, full, n.sent[i].index) && n.sent[i].command == full[n.sent[i].index - 1].command)
            && (forall x :: ResumedAt(run, acts, k) < x <= n.lastApplied ==> Delivered(n.sent, full, x))
            && Covered(n.sent) <= n.lastApplied
  {
    RunInv(run, acts, k);
    RunNoGap(run, acts, k);
    StreamMeans(run[k].node.sent, run[k].full);
  }

  lemma StreamMeans(sent: seq<ApplyMsg>, full: seq<Entry>)
    requires forall i :: 0 <= i < |sent| ==> StreamAt(sent, full, i)
    ensures forall i, j :: 0 <= i < j < |sent| ==> IndexOf(sent[i]) < IndexOf(sent[j])
    ensures forall i :: 0 <= i < |sent| && sent[i].CommandMsg? ==>
              Delivered(sent, full, sent[i].index) && sent[i].command == full[sent[i].index - 1].command
  {
    forall i | 0 <= i < |sent| && sent[i].CommandMsg?
      ensures Delivered(sent, full, sent[i].index) && sent[i].command == full[sent[i].index - 1].command
    {
      assert StreamAt(sent, full, i);
    }
    forall i, j | 0 <= i < j < |sent|
      ensures IndexOf(sent[i]) < IndexOf(sent[j])
    {
      CoveredBelow(sent, full, i, j);
    }
  }

  // The apply loop's out-of-range branch is dead, so each turn either delivers
  // the next index or finds nothing left.
  lemma NeverOutOfRange(run: seq<Track>, acts: seq<Action>, k: nat)
    requires IsRun(run, acts) && k <= |acts|
    ensures var n := run[k].node;
            && (n.lastApplied < n.commitIndex ==> 0 <= n.lastApplied - n.logBase < |n.log|)
            && (ApplyOne(n).lastApplied == n.lastApplied <==> n.lastApplied == n.commitIndex)
  {
    RunInv(run, acts, k);
  }

  // ---- Wake-ups ----

  // An idle loop with work to do has its token, whatever signals were dropped.
  lemma NoLostWakeUp(run: seq<Track>, acts: seq<Action>, k: nat)
    requires IsRun(run, acts) && k <= |acts|
    ensures var n := run[k].node; !n.applying && n.lastApplied < n.commitIndex ==> n.wake
  {
    RunInv(run, acts, k);
  }

  // From any moment of a run the loop, left alone, delivers everything committed.
  lemma {:induction false} DrainsAll(run: seq<Track>, acts: seq<Action>, k: nat)
    requires IsRun(run, acts) && k <= |acts|
    ensures var n := WakeUp(run[k].node);
            n.applying || n.lastApplied == n.commitIndex
    ensures var n := WakeUp(run[k].node);
            n.applying ==> ApplyPending(n).lastApplied == n.commitIndex && !ApplyPending(n).applying
  {
    RunInv(run, acts, k);
    var n := WakeUp(run[k].node);
    if n.applying { DrainsFrom(n); }
  }

  lemma {:induction false} DrainsFrom(n: Node)
    requires n.logBase <= n.lastApplied <= n.commitIndex <= LastIndex(n)
    ensures ApplyPending(n).lastApplied == n.commitIndex && !ApplyPending(n).applying
    decreases n.commitIndex - n.lastApplied
  {
    if n.lastApplied < n.commitIndex { DrainsFrom(ApplyOne(n)); }
  }

  // After recovery this is false exactly when a snapshot was found and the
  // saved log reaches past it: the tail is committed and no token is set.
  lemma RecoveryMaySleep(id: int, peerIds: set<int>, disk: Disk)
    ensures var n := LoadPersisted(id, peerIds, disk);
            && !n.applying && !n.wake
            && (n.lastApplied < n.commitIndex <==>
                  && disk.saved != None && disk.snapshot != None && disk.saved.value.log != []
                  && disk.saved.value.log[|disk.saved.value.log| - 1].index > disk.snapshot.value.index)
  {
  }

  // ---- Compaction against no compaction ----

  // The same node without compaction; its files are not compared.
  function Whole(n: Node, full: seq<Entry>): Node {
    n.(log := full, logBase := 0, snap := NO_SNAPSHOT, disk := Disk(None, None))
  }

  function Bare(n: Node): Node {
    n.(snap := NO_SNAPSHOT, disk := Disk(None, None))
  }

  lemma {:induction false} ScanWhole(n: Node, full: seq<Entry>, k: int)
    requires Compacted(n, full) && k <= LastIndex(n)
    ensures ScanCommit(n, k) == ScanCommit(Whole(n, full), k)
    decreases k - n.commitIndex
  {
    if k > n.commitIndex {
      ScanWhole(n, full, k - 1);
      assert n.log[k - n.logBase - 1] == full[k - 1];
    }
  }

  lemma UpdateCommitWhole(n: Node, full: seq<Entry>)
    requires Compacted(n, full)
    ensures Whole(UpdateCommit(n), full) == UpdateCommit(Whole(n, full))
  {
    ScanWhole(n, full, LastIndex(n));
  }

  lemma LeaderAppends(n: Node, full: seq<Entry>, e: Entry)
    requires Inv(Track(n, full)) && e.index == LastIndex(n) + 1
    ensures var m := UpdateCommit(Persist(n.(log := n.log + [e])));
            && full[..n.logBase] + m.log == full + [e]
            && Whole(m, full + [e]) == Bare(UpdateCommit(Persist(Whole(n, full).(log := full + [e]))))
  {
    var m := Persist(n.(log := n.log + [e]));
    AppendedKeeps(n, full, e, m);
    UpdateCommitCommits(m);
    UpdateCommitWhole(m, full + [e]);
    BareUpdate(Persist(Whole(n, full).(log := full + [e])));
  }

  lemma ReplicateCommutes(t: Track, cmd: Command, ok: bool)
    requires Inv(t)
    ensures var (m, idx) := ReplicateCommand(t.node, cmd, ok);
            var (w, whole) := ReplicateCommand(Whole(t.node, t.full), cmd, ok);
            idx == whole && Whole(m, t.full[..t.node.logBase] + m.log) == Bare(w)
  {
    var n, full := t.node, t.full;
    if n.role == Leader && ok {
      LeaderAppends(n, full, Entry(LastIndex(n) + 1, n.term, cmd));
    } else {
      Rejoined(n, full);
    }
  }

  lemma {:induction false} ScanBare(n: Node, k: int)
    ensures ScanCommit(n, k) == ScanCommit(Bare(n), k)
    decreases k - n.commitIndex
  {
    if k > n.commitIndex { ScanBare(n, k - 1); }
  }

  lemma BareUpdate(n: Node)
    ensures Bare(UpdateCommit(n)) == UpdateCommit(Bare(n))
  {
    ScanBare(n, LastIndex(n));
  }

  lemma RecordWhole(n: Node, full: seq<Entry>, peer: int, newMatch: int)
    requires Compacted(n, full) && peer in n.peers
    ensures Whole(UpdateCommit(RecordMatch(n, peer, newMatch)), full)
         == UpdateCommit(RecordMatch(Whole(n, full), peer, newMatch))
  {
    UpdateCommitWhole(RecordMatch(n, peer, newMatch), full);
  }

  lemma ReplyWhole(n: Node, full: seq<Entry>, peer: int, req: AppendRequest, reply: AppendReply)
    requires Compacted(n, full) && peer in n.peers
    ensures Whole(HandleAppendReply(n, peer, req, reply), full) == HandleAppendReply(Whole(n, full), peer, req, reply)
  {
    if n.role == Leader && n.term == req.term && reply.term <= n.term && reply.success {
      RecordWhole(n, full, peer, req.prevLogIndex + |req.entries|);
    }
  }

  lemma ReplyCommutes(t: Track, peer: int, req: AppendRequest, reply: AppendReply)
    requires Inv(t) && peer in t.node.peers
    ensures Whole(HandleAppendReply(t.node, peer, req, reply), t.full)
         == HandleAppendReply(Whole(t.node, t.full), peer, req, reply)
  {
    ReplyWhole(t.node, t.full, peer, req, reply);
  }

  lemma ApplyCommutes(t: Track)
    requires Inv(t)
    ensures Whole(ApplyOne(t.node), t.full) == ApplyOne(Whole(t.node, t.full))
  {
    var n := t.node;
    if n.lastApplied < n.commitIndex {
      assert n.log[n.lastApplied - n.logBase] == t.full[n.lastApplied];
    }
  }

  lemma FollowerCommitWhole(n: Node, full: seq<Entry>, w: Node, req: AppendRequest)
    requires Whole(n, full) == Bare(w)
    ensures Whole(FollowerCommit(n, req), full) == Bare(FollowerCommit(w, req))
  {
  }

  lemma SavedWhole(n: Node, full: seq<Entry>, w: Node)
    requires Whole(n, full) == Bare(w)
    ensures Whole(Persist(n), full) == Bare(Persist(w))
  {
  }

  // AcceptEntries once the log is merged.
  function Settle(merged: Node, modified: bool, req: AppendRequest, ok: bool): (Node, Option<AppendReply>) {
    if modified && !ok then (merged, None)
    else
      var m := FollowerCommit(if modified then Persist(merged) else merged, req);
      (m, Some(AppendReply(m.term, true)))
  }

  lemma AcceptSettles(n: Node, req: AppendRequest, ok: bool)
    requires req.entries != [] && PrevMatches(n, req) && (req.prevLogIndex > 0 || req.prevLogIndex >= n.logBase)
    ensures var at := req.prevLogIndex - n.logBase;
            AcceptEntries(n, req, ok)
            == Settle(n.(log := Merge(n.log, at, req.entries)), FirstNew(n.log, at, req.entries) < |req.entries|, req, ok)
  {
  }

  // The same answer, and the same state but for what was compacted away before.
  ghost predicate Matches(n: Node, full: seq<Entry>, m: (Node, Option<AppendReply>), w: (Node, Option<AppendReply>)) {
    n.logBase <= |full| && m.1 == w.1 && Whole(m.0, full[..n.logBase] + m.0.log) == Bare(w.0)
  }

  lemma SettleCommutes(n: Node, full: seq<Entry>, merged: Node, full': seq<Entry>, w: Node, modified: bool, req: AppendRequest, ok: bool)
    requires n.logBase <= |full| && Whole(merged, full') == Bare(w) && full[..n.logBase] + merged.log == full'
    ensures Matches(n, full, Settle(merged, modified, req, ok), Settle(w, modified, req, ok))
  {
    SavedWhole(merged, full', w);
    FollowerCommitWhole(merged, full', w, req);
    FollowerCommitWhole(Persist(merged), full', Persist(w), req);
  }

  lemma MergedWhole(n: Node, full: seq<Entry>, prev: nat, entries: seq<Entry>)
    requires |full| == LastIndex(n) && full[n.logBase..] == n.log && n.logBase <= prev <= |full|
    ensures var merged := n.(log := Merge(n.log, prev - n.logBase, entries));
            && full[..n.logBase] + merged.log == Merge(full, prev, entries)
            && Whole(merged, Merge(full, prev, entries)) == Bare(Whole(n, full).(log := Merge(full, prev, entries)))
  {
    MergeWhole(n, full, prev, entries);
  }

  lemma AcceptSomeCommutes(n: Node, full: seq<Entry>, req: AppendRequest, ok: bool)
    requires |full| == LastIndex(n) && full[n.logBase..] == n.log && n.logBase <= req.prevLogIndex <= |full|
    requires req.entries != [] && PrevMatches(n, req) && PrevMatches(Whole(n, full), req)
    ensures Matches(n, full, AcceptEntries(n, req, ok), AcceptEntries(Whole(n, full), req, ok))
  {
    var prev, entries := req.prevLogIndex, req.entries;
    AcceptSettles(n, req, ok);
    AcceptSettles(Whole(n, full), req, ok);
    FirstNewWhole(n, full, prev, entries);
    MergedWhole(n, full, prev, entries);
    SettleCommutes(n, full, n.(log := Merge(n.log, prev - n.logBase, entries)), Merge(full, prev, entries),
                   Whole(n, full).(log := Merge(full, prev, entries)), FirstNew(full, prev, entries) < |entries|, req, ok);
  }

  lemma AcceptNoneCommutes(n: Node, full: seq<Entry>, req: AppendRequest, ok: bool)
    requires Compacted(n, full) && PrevMatches(n, req) && PrevMatches(Whole(n, full), req) && req.entries == []
    ensures Matches(n, full, AcceptEntries(n, req, ok), AcceptEntries(Whole(n, full), req, ok))
  {
    Rejoined(n, full);
    FollowerCommitWhole(n, full, Whole(n, full), req);
  }

  lemma AcceptCommutes(n: Node, full: seq<Entry>, req: AppendRequest, ok: bool)
    requires Compacted(n, full) && PrevMatches(n, req) && PrevMatches(Whole(n, full), req)
    requires req.prevLogIndex > 0 || req.entries == [] || req.prevLogIndex >= n.logBase
    ensures Matches(n, full, AcceptEntries(n, req, ok), AcceptEntries(Whole(n, full), req, ok))
  {
    if req.entries == [] {
      AcceptNoneCommutes(n, full, req, ok);
    } else {
      AcceptSomeCommutes(n, full, req, ok);
    }
  }

  // The previous entry has been compacted away, but was the right one.
  ghost predicate Compares(t: Track, req: AppendRequest) {
    && req.term >= t.node.term && 0 < req.prevLogIndex <= t.node.logBase <= |t.full|
    && t.full[req.prevLogIndex - 1].term == req.prevLogTerm
  }

  // AppendEntries gives the same answer and the same log as without
  // compaction, except that a request anchored at or below the snapshot is
  // refused where the whole log would accept it.
  lemma AppendCommutes(t: Track, req: AppendRequest, ok: bool)
    requires Inv(t) && InContract(t.node, req)
    ensures InContract(Whole(t.node, t.full), req)
    ensures Matches(t.node, t.full, HandleAppendEntries(t.node, req, ok), HandleAppendEntries(Whole(t.node, t.full), req, ok))
            <==> !Compares(t, req)
  {
    if req.term < t.node.term {
      Rejoined(t.node, t.full);
    } else {
      HeardCommutes(t.node, HearLeader(t.node, req), t.full, req, ok);
    }
  }

  // Once the term is settled.
  lemma HeardCommutes(n: Node, m: Node, full: seq<Entry>, req: AppendRequest, ok: bool)
    requires Compacted(n, full) && req.term >= n.term && m == HearLeader(n, req) && InContract(n, req)
    ensures InContract(Whole(n, full), req)
    ensures Matches(n, full, HandleAppendEntries(n, req, ok), HandleAppendEntries(Whole(n, full), req, ok))
            <==> !(0 < req.prevLogIndex <= n.logBase && full[req.prevLogIndex - 1].term == req.prevLogTerm)
  {
    HearWhole(n, full, req);
    PrevWhole(m, full, req);
    if PrevMatches(m, req) {
      AcceptCommutes(m, full, req, ok);
    } else if PrevMatches(Whole(m, full), req) {
      AcceptAnswers(Whole(m, full), req, ok);
    } else {
      Rejoined(m, full);
    }
  }

  lemma HearWhole(n: Node, full: seq<Entry>, req: AppendRequest)
    requires Compacted(n, full)
    ensures HearLeader(Whole(n, full), req) == Whole(HearLeader(n, req), full)
    ensures Compacted(HearLeader(n, req), full) && HearLeader(n, req).logBase == n.logBase
  {
  }

  lemma AcceptAnswers(n: Node, req: AppendRequest, ok: bool)
    requires PrevMatches(n, req) && (req.prevLogIndex > 0 || req.entries == [] || req.prevLogIndex >= n.logBase)
    ensures AcceptEntries(n, req, ok).1 == None || AcceptEntries(n, req, ok).1.value.success
  {
  }

  lemma PrevWhole(n: Node, full: seq<Entry>, req: AppendRequest)
    requires Compacted(n, full)
    ensures PrevMatches(n, req) ==> PrevMatches(Whole(n, full), req)
    ensures PrevMatches(Whole(n, full), req) && !PrevMatches(n, req) <==>
            0 < req.prevLogIndex <= n.logBase && full[req.prevLogIndex - 1].term == req.prevLogTerm
  {
    var a := req.prevLogIndex - n.logBase - 1;
    if req.prevLogIndex > 0 && 0 <= a < |n.log| { assert n.log[a] == full[req.prevLogIndex - 1]; }
  }

  // A log that reaches the snapshot has its part already.
  lemma MergeCovered(full: seq<Entry>, past: seq<Entry>)
    requires B.Matching(full, past) && 0 < |past| <= |full| && full[|past| - 1].term == past[|past| - 1].term
    ensures Merge(full, 0, past) == full == past + full[|past|..]
  {
    var i := FirstNew(full, 0, past);
    assert B.MatchingAt(full, past, |past| - 1);
    assert full[..|past|] == past[..|past|] == past;
    assert forall k :: 0 <= k < |past| ==> full[k] == full[..|past|][k] == past[k];
  }

  // A shorter one becomes it.
  lemma MergeShorter(full: seq<Entry>, past: seq<Entry>)
    requires B.Matching(full, past) && |full| < |past|
    ensures Merge(full, 0, past) == past
  {
    var i := FirstNew(full, 0, past);
    assert full[..i] == past[..i] by {
      if i > 0 { assert full[0 + (i - 1)].term == past[i - 1].term && B.MatchingAt(full, past, i - 1); }
    }
    assert past[..i] + past[i..] == past;
  }

  // Installing a snapshot is merging the log it stands for.
  lemma InstallCommutes(t: Track, req: SnapshotRequest, past: seq<Entry>, okState: bool, okSnap: bool)
    requires Inv(t) && Legal(t, Install(req, past, okState, okSnap)) && Installs(t.node, req)
    requires B.Matching(t.full, past) && past[|past| - 1].term == req.lastTerm
    ensures Full'(t, Install(req, past, okState, okSnap)) == Merge(t.full, 0, past)
  {
    if req.lastIndex <= |t.full| {
      assert t.node.log[req.lastIndex - t.node.logBase - 1] == t.full[req.lastIndex - 1];
      MergeCovered(t.full, past);
    } else {
      MergeShorter(t.full, past);
    }
  }

  // An install whose files cannot be written still moves lastApplied, but the
  // state machine is told only when both writes succeed.
  lemma InstallTellsExactly(t: Track, req: SnapshotRequest, okState: bool, okSnap: bool)
    requires Inv(t) && Installs(t.node, req)
    ensures var m := HandleInstallSnapshot(t.node, req, okState, okSnap).0;
            && m.lastApplied == req.lastIndex > t.node.lastApplied
            && (Covered(m.sent) == m.lastApplied <==> okState && okSnap)
  {
    InstallShape(t.node, req, okState, okSnap);
  }

  // ---- The state machine above ----

  function Commands(log: seq<Entry>): (cmds: seq<Command>)
    ensures |cmds| == |log| && forall k :: 0 <= k < |log| ==> cmds[k] == log[k].command
  {
    seq(|log|, k requires 0 <= k < |log| => log[k].command)
  }

  // The payload is the state of a server that handled this log.
  ghost predicate Faithful(data: Payload, log: seq<Entry>) {
    exists kv, now :: Reachable(Commands(log), kv) && data.image == Some(Serialize(kv, now))
  }

  // Snapshots installed are written, and were taken by servers of this kind.
  ghost predicate GoodInstalls(acts: seq<Action>) {
    forall k :: 0 <= k < |acts| && acts[k].Install? ==>
      acts[k].okState && acts[k].okSnap && Faithful(acts[k].snapReq.data, acts[k].past)
  }

  // Each command is the one after what the messages before it cover.
  ghost predicate DirectAt(sent: seq<ApplyMsg>, k: nat)
    requires k < |sent|
  {
    sent[k].CommandMsg? ==> sent[k].index == Covered(sent[..k]) + 1
  }

  ghost predicate Gapless(sent: seq<ApplyMsg>, applied: nat) {
    Covered(sent) == applied && forall k :: 0 <= k < |sent| ==> DirectAt(sent, k)
  }

  lemma GaplessMore(sent: seq<ApplyMsg>, applied: nat, m: ApplyMsg)
    requires Gapless(sent, applied) && (m.CommandMsg? ==> m.index == applied + 1) && IndexOf(m) >= 0
    ensures Gapless(sent + [m], IndexOf(m))
  {
    var more := sent + [m];
    forall k | 0 <= k < |more|
      ensures DirectAt(more, k)
    {
      assert more[..k] == sent[..k];
      if k < |sent| { assert DirectAt(sent, k); } else { assert sent[..k] == sent; }
    }
  }

  // Every snapshot delivered stands for the log up to its index.
  ghost predicate PayloadsOk(sent: seq<ApplyMsg>, full: seq<Entry>) {
    forall k :: 0 <= k < |sent| && sent[k].SnapshotMsg? ==>
      0 <= sent[k].lastIndex <= |full| && Faithful(sent[k].data, full[..sent[k].lastIndex])
  }

  lemma PrefixKept(full: seq<Entry>, full': seq<Entry>, commit: nat, x: nat)
    requires x <= commit <= |full| && commit <= |full'| && full'[..commit] == full[..commit]
    ensures full'[..x] == full[..x]
  {
    assert full'[..x] == full'[..commit][..x] && full[..x] == full[..commit][..x];
  }

  lemma SentWithin(n: Node, full: seq<Entry>, k: nat)
    requires Stream(n, full) && k < |n.sent|
    ensures IndexOf(n.sent[k]) <= n.lastApplied
  {
    if k < |n.sent| - 1 { CoveredBelow(n.sent, full, k, |n.sent| - 1); }
  }

  lemma PayloadsKept(t: Track, t': Track, k: nat)
    requires Inv(t) && Keeps(t, t') && PayloadsOk(t.node.sent, t.full) && k < |t.node.sent| && t.node.sent[k].SnapshotMsg?
    ensures var m := t.node.sent[k];
            0 <= m.lastIndex <= |t'.full| && Faithful(m.data, t'.full[..m.lastIndex])
  {
    SentWithin(t.node, t.full, k);
    PrefixKept(t.full, t'.full, t.node.commitIndex, t.node.sent[k].lastIndex);
  }

  lemma NewPayload(t: Track, a: Action, k: nat)
    requires Inv(t) && Legal(t, a) && |t.node.sent| <= k < |Node'(t, a).sent| && Node'(t, a).sent[k].SnapshotMsg?
    requires a.Install? ==> Faithful(a.snapReq.data, a.past)
    ensures var m := Node'(t, a).sent[k];
            0 <= m.lastIndex <= |Full'(t, a)| && Faithful(m.data, Full'(t, a)[..m.lastIndex])
  {
    StepSends(t, a);
    assert a.Install? ==> Full'(t, a)[..|a.past|] == a.past;
  }

  lemma PayloadsStep(t: Track, a: Action)
    requires Inv(t) && Legal(t, a) && PayloadsOk(t.node.sent, t.full)
    requires a.Install? ==> Faithful(a.snapReq.data, a.past)
    ensures PayloadsOk(Node'(t, a).sent, Full'(t, a))
  {
    var t' := Next(t, a);
    StepKeeps(t, a);
    forall k | 0 <= k < |t'.node.sent| && t'.node.sent[k].SnapshotMsg?
      ensures 0 <= t'.node.sent[k].lastIndex <= |t'.full|
      ensures Faithful(t'.node.sent[k].data, t'.full[..t'.node.sent[k].lastIndex])
    {
      if k < |t.node.sent| { PayloadsKept(t, t', k); } else { NewPayload(t, a, k); }
    }
  }

  lemma GaplessStep(t: Track, a: Action)
    requires Inv(t) && Legal(t, a) && Gapless(t.node.sent, t.node.lastApplied)
    requires a.Install? ==> a.okState && a.okSnap
    ensures Gapless(Node'(t, a).sent, Node'(t, a).lastApplied)
  {
    StepSends(t, a);
    var n, m := t.node, Node'(t, a);
    if m.sent != n.sent { GaplessMore(n.sent, n.lastApplied, m.sent[|m.sent| - 1]); }
  }

  lemma {:induction false} RunPayloads(run: seq<Track>, acts: seq<Action>, k: nat)
    requires IsRun(run, acts) && k <= |acts| && GoodInstalls(acts)
    ensures PayloadsOk(run[k].node.sent, run[k].full) && Gapless(run[k].node.sent, run[k].node.lastApplied)
  {
    if k > 0 {
      RunPayloads(run, acts, k - 1);
      RunInv(run, acts, k - 1);
      assert StepAt(run, acts, k - 1);
      PayloadsStep(run[k - 1], acts[k - 1]);
      GaplessStep(run[k - 1], acts[k - 1]);
    }
  }

  // The server's apply loop on one message.
  ghost predicate Handles(kv: Kv, m: ApplyMsg, clk: Clock, kv': Kv) {
    match m
    case CommandMsg(command, _) => exists r :: Handled(kv, command, clk, kv', r)
    case SnapshotMsg(data, _, _) => kv' == if data.image == None then kv else Deserialize(data.image.value)
  }

  ghost predicate Consumes(kvs: seq<Kv>, sent: seq<ApplyMsg>, clks: seq<Clock>) {
    && |kvs| == |sent| + 1 == |clks| + 1 && kvs[0] == EMPTY
    && (forall k :: 0 <= k < |sent| ==> Handles(kvs[k], sent[k], clks[k], kvs[k + 1]))
  }

  // After m messages the server is where handling the log up to the index they
  // cover, in order, leads.
  lemma {:induction false} SeenFollows(sent: seq<ApplyMsg>, full: seq<Entry>, applied: nat, kvs: seq<Kv>, clks: seq<Clock>, m: nat)
    requires Gapless(sent, applied) && PayloadsOk(sent, full) && (forall k :: 0 <= k < |sent| ==> StreamAt(sent, full, k))
    requires Consumes(kvs, sent, clks) && m <= |sent|
    ensures 0 <= Covered(sent[..m]) <= |full| && Reachable(Commands(full[..Covered(sent[..m])]), kvs[m])
  {
    if m == 0 {
      ReachableEmpty();
      assert Commands(full[..0]) == [];
    } else {
      var k := m - 1;
      SeenFollows(sent, full, applied, kvs, clks, k);
      assert StreamAt(sent, full, k) && DirectAt(sent, k) && Handles(kvs[k], sent[k], clks[k], kvs[k + 1]);
      assert sent[..m][k] == sent[k];
      SeenStep(sent[k], full, Covered(sent[..k]), kvs[k], clks[k], kvs[m]);
    }
  }

  lemma SeenStep(m: ApplyMsg, full: seq<Entry>, covered: nat, kv: Kv, clk: Clock, kv': Kv)
    requires covered <= |full| && Reachable(Commands(full[..covered]), kv) && Handles(kv, m, clk, kv')
    requires m.CommandMsg? ==> m.index == covered + 1 <= |full| && m.command == full[covered].command
    requires m.SnapshotMsg? ==> 0 <= m.lastIndex <= |full| && Faithful(m.data, full[..m.lastIndex])
    ensures Reachable(Commands(full[..IndexOf(m)]), kv')
  {
    if m.CommandMsg? {
      var r :| Handled(kv, m.command, clk, kv', r);
      ReachableMore(Commands(full[..covered]), kv, m.command, clk, kv', r);
      assert Commands(full[..covered + 1]) == Commands(full[..covered]) + [m.command];
    } else {
      var past := Commands(full[..m.lastIndex]);
      var was, now :| Reachable(past, was) && m.data.image == Some(Serialize(was, now));
      ReachableRestored(past, was, now);
    }
  }

  // Whatever was compacted or installed on the way, and at whatever readings:
  // the server is where handling the whole log up to lastApplied leads.
  lemma ServerFollowsLog(run: seq<Track>, acts: seq<Action>, k: nat, kvs: seq<Kv>, clks: seq<Clock>)
    requires IsRun(run, acts) && k <= |acts| && GoodInstalls(acts) && Consumes(kvs, run[k].node.sent, clks)
    ensures run[k].node.lastApplied <= |run[k].full|
    ensures Reachable(Commands(run[k].full[..run[k].node.lastApplied]), kvs[|kvs| - 1])
  {
    RunInv(run, acts, k);
    RunPayloads(run, acts, k);
    var sent := run[k].node.sent;
    SeenFollows(sent, run[k].full, run[k].node.lastApplied, kvs, clks, |sent|);
    assert sent[..|sent|] == sent;
  }

  // Without client ids its map is the fold of that log, and so is a snapshot of it.
  lemma StoreFollowsLog(run: seq<Track>, acts: seq<Action>, k: nat, kvs: seq<Kv>, clks: seq<Clock>, now: int)
    requires IsRun(run, acts) && k <= |acts| && GoodInstalls(acts) && Consumes(kvs, run[k].node.sent, clks)
    requires NoIds(Commands(run[k].full))
    ensures run[k].node.lastApplied <= |run[k].full|
    ensures var cmds, store := Commands(run[k].full[..run[k].node.lastApplied]), kvs[|kvs| - 1].store;
            store == FoldCommands(map[], cmds) && Written(map[], cmds, store)
    ensures Serialize(kvs[|kvs| - 1], now).state == kvs[|kvs| - 1].store
  {
    ServerFollowsLog(run, acts, k, kvs, clks);
    var cmds := Commands(run[k].full[..run[k].node.lastApplied]);
    assert forall i :: 0 <= i < |cmds| ==> cmds[i] == Commands(run[k].full)[i];
    ReachableFold(cmds, kvs[|kvs| - 1]);
  }
}
