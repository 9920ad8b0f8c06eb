// A one-node cluster, node and server, that is stopped and started again
// between operations: what becomes of the commands it acknowledged
// (raft/raft.go, raft/replication.go, raft/snapshot.go, kv/apply.go,
// kv/snapshot.go).
module Durability {
  import opened KvTypes
  import opened KvSpec
  import opened KvRuns
  import opened StoreSpec
  import opened RaftTypes
  import opened NodeSpec
  import C = Compaction
  import S = CompactionSafety

  // The server has handled `seen` of the node's messages and holds `kv`. The
  // readings at which it, or the server whose snapshot it loaded, handled each
  // command are `clks`; `cuts` are those of the snapshots loaded on the way.
  datatype Server = Server(kv: Kv, seen: nat, clks: seq<Clock>, cuts: seq<seq<int>>)

  // The same for the snapshot on disk, which was saved at `now`.
  datatype Saved = Saved(clks: seq<Clock>, cuts: seq<seq<int>>, now: int)

  // `acked` is every command acknowledged since the beginning, in order;
  // `full` the log that would hold them all.
  datatype World = World(node: Node, full: seq<Entry>, acked: seq<Command>, server: Server, saved: Saved)

  const NEW_SERVER: Server := Server(EMPTY, 0, [], [[]])

  datatype Action =
    | Campaign(ok: bool)
    | Submit(cmd: Command, ok: bool)
    | Wake
    | Apply
    | Handle(clk: Clock, next: Kv, result: Result)
    | Snap(size: nat, now: int)
    | Restart

  predicate Legal(w: World, a: Action) {
    a.Handle? ==>
      && w.server.seen < |w.node.sent|
      && match w.node.sent[w.server.seen]
         case CommandMsg(cmd, _) => Handled(w.server.kv, cmd, a.clk, a.next, a.result)
         case SnapshotMsg(data, _, _) =>
           a.next == if data.image == None then w.server.kv else Deserialize(data.image.value)
  }

  // The index of the last command the server has handled or loaded.
  function Reached(w: World): int {
    if w.server.seen <= |w.node.sent| then C.Covered(w.node.sent[..w.server.seen]) else 0
  }

  // A node without peers elects itself.
  function SelfElect(n: Node, ok: bool): Node {
    var (c, go) := BecomeCandidate(n, ok);
    if go then BecomeLeader(c) else c
  }

  function Reload(n: Node): Node {
    LoadPersisted(n.id, {}, n.disk)
  }

  function HandleNext(w: World, clk: Clock, next: Kv): Server
    requires w.server.seen < |w.node.sent|
  {
    var s := w.server;
    if w.node.sent[s.seen].CommandMsg? || w.saved.cuts == [] then Server(next, s.seen + 1, s.clks + [clk], s.cuts + [[]])
    else Server(next, s.seen + 1, w.saved.clks, AddCut(w.saved.cuts, w.saved.now))
  }

  // The server may snapshot at any moment; the code does so only right after
  // executing a command, when its lastApplied is this index.
  function SnapAt(w: World, size: nat, now: int, okState: bool, okSnap: bool): Node {
    TakeSnapshot(w.node, Reached(w), Payload(size, Some(Serialize(w.server.kv, now))), okState, okSnap).0
  }

  function Next(w: World, a: Action): World
    requires Legal(w, a)
  {
    var n := w.node;
    match a
    case Campaign(ok) => w.(node := SelfElect(n, ok))
    case Submit(cmd, ok) =>
      var (m, idx) := ReplicateCommand(n, cmd, ok);
      if idx == None then w.(node := m)
      else w.(node := m, full := w.full + [Entry(idx.value, n.term, cmd)], acked := w.acked + [cmd])
    case Wake => w.(node := WakeUp(n))
    case Apply => if n.applying then w.(node := ApplyOne(n)) else w
    case Handle(clk, next, _) => w.(server := HandleNext(w, clk, next))
    case Snap(size, now) =>
      var m := SnapAt(w, size, now, true, true);
      w.(node := m, saved := if m.logBase > n.logBase then Saved(w.server.clks, w.server.cuts, now) else w.saved)
    case Restart => w.(node := Reload(n), server := NEW_SERVER)
  }

  ghost predicate StepAt(run: seq<World>, acts: seq<Action>, k: nat)
    requires |run| == |acts| + 1 && k < |acts|
  {
    Legal(run[k], acts[k]) && run[k + 1] == Next(run[k], acts[k])
  }

  ghost predicate IsRun(run: seq<World>, acts: seq<Action>) {
    && |run| == |acts| + 1
    && (exists id :: run[0] == World(FreshNode(id, {}, Disk(None, None)), [], [], NEW_SERVER, Saved([], [[]], 0)))
    && (forall k :: 0 <= k < |acts| ==> StepAt(run, acts, k))
  }

  // A restart here redelivers everything.
  predicate Covered(w: World) {
    w.node.disk.snapshot != None || w.acked == []
  }

  ghost predicate SafeRestarts(run: seq<World>, acts: seq<Action>) {
    |run| == |acts| + 1 && forall k :: 0 <= k < |acts| && acts[k].Restart? ==> Covered(run[k])
  }

  // ---- What the files hold ----

  ghost predicate FilesMatch(n: Node) {
    && (n.disk.saved == None ==> n.log == [] && n.disk.snapshot == None)
    && (n.disk.saved != None ==> n.disk.saved.value.log == n.log)
    && (n.disk.snapshot == None ==> n.logBase == 0)
    && (n.disk.snapshot != None ==> n.disk.snapshot.value.index == n.logBase > 0)
  }

  ghost predicate Held(full: seq<Entry>, acked: seq<Command>) {
    |full| == |acked| && forall k :: 0 <= k < |full| ==> full[k].command == acked[k]
  }

  ghost predicate SentBelow(n: Node) {
    forall k :: 0 <= k < |n.sent| ==> C.IndexOf(n.sent[k]) <= n.lastApplied
  }

  ghost predicate NodeDurable(n: Node, full: seq<Entry>) {
    && n.peers == map[] && n.commitIndex == LastIndex(n)
    && C.Compacted(n, full) && FilesMatch(n) && SnapNamed(n.disk.snapshot, full) && SentBelow(n)
  }

  // A snapshot is known by the index and the term of the last entry it covers.
  ghost predicate SnapNamed(snap: Option<Snapshot>, full: seq<Entry>) {
    snap != None ==> 0 < snap.value.index <= |full| && snap.value.term == full[snap.value.index - 1].term
  }

  ghost predicate Durable(w: World) {
    NodeDurable(w.node, w.full) && Held(w.full, w.acked)
  }

  // ---- What the server has been told ----

  // The messages are a gapless stream of the log.
  ghost predicate Streams(sent: seq<ApplyMsg>, applied: nat, full: seq<Entry>) {
    S.Gapless(sent, applied) && forall k :: 0 <= k < |sent| ==> C.StreamAt(sent, full, k)
  }

  // The server is where handling the commands up to `upTo` leads.
  ghost predicate ServerOk(acked: seq<Command>, server: Server, upTo: int) {
    && 0 <= upTo <= |acked| && |server.clks| == upTo && |server.cuts| == upTo + 1
    && ReachedAt(acked, server.clks, server.cuts, upTo, server.kv)
  }

  // So is the snapshot on disk.
  ghost predicate SavedOk(acked: seq<Command>, saved: Saved, snap: Option<Snapshot>) {
    snap != None ==>
      && snap.value.index <= |acked| && |saved.clks| == snap.value.index && |saved.cuts| == snap.value.index + 1
      && (exists kv :: SavedAs(acked, saved, snap.value, kv))
  }

  ghost predicate SavedAs(acked: seq<Command>, saved: Saved, snap: Snapshot, kv: Kv)
    requires snap.index <= |acked| && |saved.clks| == snap.index && |saved.cuts| == snap.index + 1
  {
    ReachedAt(acked, saved.clks, saved.cuts, snap.index, kv) && snap.data.image == Some(Serialize(kv, saved.now))
  }

  // A snapshot is delivered first or not at all, and until it is handled it is
  // the one on disk.
  ghost predicate SnapFirst(sent: seq<ApplyMsg>, seen: nat, snap: Option<Snapshot>) {
    && (forall k :: 0 < k < |sent| ==> sent[k].CommandMsg?)
    && (seen == 0 && sent != [] && sent[0].SnapshotMsg? ==>
          snap != None && sent[0] == SnapshotMsg(snap.value.data, snap.value.index, snap.value.term))
  }

  ghost predicate Told(w: World) {
    && Streams(w.node.sent, w.node.lastApplied, w.full) && w.server.seen <= |w.node.sent|
    && ServerOk(w.acked, w.server, Reached(w))
    && SavedOk(w.acked, w.saved, w.node.disk.snapshot)
    && SnapFirst(w.node.sent, w.server.seen, w.node.disk.snapshot)
  }

  // ---- Submitting ----

  // One node is its own majority, so what it appends it has committed.
  lemma CommitsItsOwn(n: Node, e: Entry)
    requires n.role == Leader && n.peers == map[] && e.term == n.term && n.commitIndex <= LastIndex(n)
    ensures var m := Persist(n.(log := n.log + [e]));
            UpdateCommit(m) == Signal(m.(commitIndex := LastIndex(n) + 1))
  {
    var m := Persist(n.(log := n.log + [e]));
    assert ScanCommit(m, LastIndex(m)) == LastIndex(m);
  }

  lemma SubmitShape(n: Node, cmd: Command, ok: bool)
    requires n.peers == map[] && n.commitIndex <= LastIndex(n)
    ensures var (m, idx) := ReplicateCommand(n, cmd, ok);
            if n.role == Leader && ok then
              && idx == Some(LastIndex(n) + 1)
              && m == Signal(Persist(n.(log := n.log + [Entry(LastIndex(n) + 1, n.term, cmd)]))
                             .(commitIndex := LastIndex(n) + 1))
            else idx == None && m == n
  {
    if n.role == Leader && ok { CommitsItsOwn(n, Entry(LastIndex(n) + 1, n.term, cmd)); }
  }

  lemma SubmitDurable(w: World, cmd: Command, ok: bool)
    requires Durable(w)
    ensures var (m, idx) := ReplicateCommand(w.node, cmd, ok);
            && (idx != None <==> w.node.role == Leader && ok)
            && (idx != None ==> idx.value == |w.acked| + 1 == m.commitIndex)
            && (idx == None ==> m == w.node)
    ensures Durable(Next(w, Submit(cmd, ok)))
  {
    var n := w.node;
    SubmitShape(n, cmd, ok);
    if n.role == Leader && ok {
      var e := Entry(LastIndex(n) + 1, n.term, cmd);
      assert (w.full + [e])[n.logBase..] == n.log + [e];
    }
  }

  lemma LongerStreams(sent: seq<ApplyMsg>, applied: nat, full: seq<Entry>, e: Entry)
    requires Streams(sent, applied, full)
    ensures Streams(sent, applied, full + [e])
  {
    forall k | 0 <= k < |sent|
      ensures C.StreamAt(sent, full + [e], k)
    {
      assert C.StreamAt(sent, full, k);
    }
  }

  lemma LongerServer(acked: seq<Command>, server: Server, upTo: int, cmd: Command)
    requires ServerOk(acked, server, upTo)
    ensures ServerOk(acked + [cmd], server, upTo)
  {
    assert (acked + [cmd])[..upTo] == acked[..upTo];
    ReachedPrefix(acked, server.clks, server.cuts, acked + [cmd], server.clks, server.cuts, upTo, server.kv);
  }

  lemma LongerSaved(acked: seq<Command>, saved: Saved, snap: Option<Snapshot>, cmd: Command)
    requires SavedOk(acked, saved, snap)
    ensures SavedOk(acked + [cmd], saved, snap)
  {
    if snap != None {
      var p := snap.value;
      var kv :| SavedAs(acked, saved, p, kv);
      assert (acked + [cmd])[..p.index] == acked[..p.index];
      ReachedPrefix(acked, saved.clks, saved.cuts, acked + [cmd], saved.clks, saved.cuts, p.index, kv);
      assert SavedAs(acked + [cmd], saved, p, kv);
    }
  }

  lemma SubmitTold(w: World, cmd: Command, ok: bool)
    requires Durable(w) && Told(w)
    ensures Told(Next(w, Submit(cmd, ok)))
  {
    var n := w.node;
    SubmitShape(n, cmd, ok);
    if n.role == Leader && ok {
      LongerStreams(n.sent, n.lastApplied, w.full, Entry(LastIndex(n) + 1, n.term, cmd));
      LongerServer(w.acked, w.server, Reached(w), cmd);
      LongerSaved(w.acked, w.saved, n.disk.snapshot, cmd);
    }
  }

  // ---- Delivering ----

  lemma ApplyDurable(w: World)
    requires Durable(w)
    ensures Durable(Next(w, Apply))
  {
    C.ApplyShape(w.node, w.full);
  }

  lemma MoreStreams(sent: seq<ApplyMsg>, applied: nat, full: seq<Entry>)
    requires Streams(sent, applied, full) && applied < |full|
    ensures Streams(sent + [CommandMsg(full[applied].command, applied + 1)], applied + 1, full)
  {
    var m := CommandMsg(full[applied].command, applied + 1);
    C.StreamMore(sent, full, m);
    S.GaplessMore(sent, applied, m);
  }

  lemma ApplyTold(w: World)
    requires Durable(w) && Told(w)
    ensures Told(Next(w, Apply))
  {
    var n, full := w.node, w.full;
    C.ApplyShape(n, full);
    if n.applying && n.lastApplied < n.commitIndex {
      MoreStreams(n.sent, n.lastApplied, full);
      assert ApplyOne(n).sent[..w.server.seen] == n.sent[..w.server.seen];
    }
  }

  // ---- The server ----

  lemma HandleCommand(w: World, clk: Clock, next: Kv, r: Result)
    requires Durable(w) && Told(w) && Legal(w, Handle(clk, next, r)) && w.node.sent[w.server.seen].CommandMsg?
    ensures Told(Next(w, Handle(clk, next, r)))
  {
    var sent, k, c := w.node.sent, w.server.seen, Reached(w);
    assert C.StreamAt(sent, w.full, k) && S.DirectAt(sent, k);
    assert sent[k].command == w.full[c].command == w.acked[c];
    ReachedMore(w.acked, w.server.clks, w.server.cuts, c, w.server.kv, clk, next, r);
    assert sent[..k + 1][k] == sent[k];
  }

  lemma HandleSnapshot(w: World, clk: Clock, next: Kv, r: Result)
    requires Durable(w) && Told(w) && Legal(w, Handle(clk, next, r)) && w.node.sent[w.server.seen].SnapshotMsg?
    ensures Told(Next(w, Handle(clk, next, r)))
  {
    var sent, p := w.node.sent, w.node.disk.snapshot.value;
    assert w.server.seen == 0;
    var kv :| SavedAs(w.acked, w.saved, p, kv);
    ReachedRestored(w.acked, w.saved.clks, w.saved.cuts, p.index, kv, w.saved.now);
    assert sent[..1][0] == sent[0];
  }

  lemma HandleTold(w: World, clk: Clock, next: Kv, r: Result)
    requires Durable(w) && Told(w) && Legal(w, Handle(clk, next, r))
    ensures Told(Next(w, Handle(clk, next, r)))
  {
    if w.node.sent[w.server.seen].CommandMsg? {
      HandleCommand(w, clk, next, r);
    } else {
      HandleSnapshot(w, clk, next, r);
    }
  }

  // ---- Snapshots ----

  lemma ReachedBelow(w: World)
    requires SentBelow(w.node)
    ensures Reached(w) <= w.node.lastApplied
  {
    var sent, k := w.node.sent, w.server.seen;
    assert 0 < k <= |sent| ==> sent[..k][k - 1] == sent[k - 1];
  }

  lemma SnapShape(n: Node, full: seq<Entry>, index: int, data: Payload)
    requires C.Compacted(n, full) && index <= n.lastApplied
    ensures var m := TakeSnapshot(n, index, data, true, true).0;
            || m == n
            || (&& n.logBase < index == m.logBase && m.log == full[index..] && C.SameWork(n, m.(log := n.log, logBase := n.logBase))
                && m.peers == n.peers
                && m.disk.saved == Some(SavedState(n.term, n.votedFor, m.log))
                && m.disk.snapshot == Some(Snapshot(data, index, full[index - 1].term)))
  {
    if n.logBase < index <= LastIndex(n) {
      assert n.log[index - n.logBase - 1] == full[index - 1] && n.log[index - n.logBase..] == full[index..];
    }
  }

  lemma SnapDurable(w: World, size: nat, now: int)
    requires Durable(w)
    ensures Durable(Next(w, Snap(size, now)))
  {
    ReachedBelow(w);
    SnapShape(w.node, w.full, Reached(w), Payload(size, Some(Serialize(w.server.kv, now))));
  }

  lemma SnapTold(w: World, size: nat, now: int)
    requires Durable(w) && Told(w)
    ensures Told(Next(w, Snap(size, now)))
  {
    ReachedBelow(w);
    SnapShape(w.node, w.full, Reached(w), Payload(size, Some(Serialize(w.server.kv, now))));
    var w' := Next(w, Snap(size, now));
    if w'.node != w.node {
      assert w.server.seen > 0;
      assert SavedAs(w.acked, w'.saved, w'.node.disk.snapshot.value, w.server.kv);
    }
  }

  // ---- Starting again ----

  // What a restart recovers, from the files alone.
  lemma ReloadShape(n: Node)
    requires FilesMatch(n) && C.Numbered(n.log, n.logBase)
    ensures var m := Reload(n);
            && m.log == n.log && m.logBase == n.logBase && m.disk == n.disk && m.peers == map[]
            && m.commitIndex == LastIndex(n)
            && m.lastApplied == (if n.disk.snapshot == None then LastIndex(n) else n.logBase)
            && m.sent == if n.disk.snapshot == None then []
                         else var p := n.disk.snapshot.value; [SnapshotMsg(p.data, p.index, p.term)]
  {
    assert Reload(n).peers == map[];
    assert n.log != [] ==> n.log[|n.log| - 1].index == LastIndex(n);
  }

  lemma TailHeld(n: Node, full: seq<Entry>, acked: seq<Command>)
    requires C.Compacted(n, full) && Held(full, acked)
    ensures forall i :: 0 <= i < |n.log| ==> n.log[i].command == acked[n.logBase + i] && n.log[i].index == n.logBase + i + 1
  {
    assert forall i :: 0 <= i < |n.log| ==> n.log[i] == full[n.logBase + i];
  }

  lemma ReloadDurable(w: World)
    requires Durable(w)
    ensures Durable(Next(w, Restart))
    ensures C.Numbered(w.node.log, w.node.logBase)
  {
    TailHeld(w.node, w.full, w.acked);
    ReloadShape(w.node);
  }

  // The first message of a restarted node.
  lemma FirstStreams(snap: Option<Snapshot>, full: seq<Entry>)
    requires snap != None ==> 0 < snap.value.index <= |full|
    ensures snap == None ==> Streams([], 0, full)
    ensures snap != None ==>
              Streams([SnapshotMsg(snap.value.data, snap.value.index, snap.value.term)], snap.value.index, full)
  {
    if snap != None {
      var sent := [SnapshotMsg(snap.value.data, snap.value.index, snap.value.term)];
      assert sent[..0] == [];
      assert C.StreamAt(sent, full, 0) && S.DirectAt(sent, 0);
    }
  }

  lemma NewServerOk(acked: seq<Command>)
    ensures ServerOk(acked, NEW_SERVER, 0)
  {
  }

  lemma ReloadTold(w: World)
    requires Durable(w) && Told(w) && Covered(w)
    ensures Told(Next(w, Restart))
  {
    ReloadDurable(w);
    ReloadShape(w.node);
    FirstStreams(w.node.disk.snapshot, w.full);
    NewServerOk(w.acked);
    assert Reload(w.node).sent[..0] == [];
  }

  lemma CampaignQuiet(n: Node, ok: bool)
    requires n.peers == map[]
    ensures var m := SelfElect(n, ok);
            && C.SameWork(n, m) && m.peers == map[] && m.disk.snapshot == n.disk.snapshot
            && (m.disk == n.disk || m.disk.saved == Some(SavedState(m.term, m.votedFor, n.log)))
  {
  }

  // What Durable and Told speak of is as it was.
  lemma SameWorkKeeps(w: World, m: Node)
    requires Durable(w) && C.SameWork(w.node, m) && m.peers == map[] && m.disk.snapshot == w.node.disk.snapshot
    requires m.disk == w.node.disk || m.disk.saved == Some(SavedState(m.term, m.votedFor, w.node.log))
    ensures Durable(w.(node := m)) && (Told(w) ==> Told(w.(node := m)))
  {
  }

  lemma WakeKeeps(w: World)
    requires Durable(w)
    ensures Durable(Next(w, Wake)) && (Told(w) ==> Told(Next(w, Wake)))
  {
  }

  lemma QuietSteps(w: World, a: Action)
    requires Durable(w) && (a.Campaign? || a.Wake?)
    ensures Durable(Next(w, a))
    ensures Told(w) ==> Told(Next(w, a))
  {
    if a.Campaign? {
      CampaignQuiet(w.node, a.ok);
      SameWorkKeeps(w, SelfElect(w.node, a.ok));
    } else {
      WakeKeeps(w);
    }
  }

  // ---- Every run ----

  lemma StepDurable(w: World, a: Action)
    requires Durable(w) && Legal(w, a)
    ensures Durable(Next(w, a))
  {
    match a
    case Submit(cmd, ok) => SubmitDurable(w, cmd, ok);
    case Apply => ApplyDurable(w);
    case Handle(_, _, _) =>
    case Snap(size, now) => SnapDurable(w, size, now);
    case Restart => ReloadDurable(w);
    case _ => QuietSteps(w, a);
  }

  lemma StepTold(w: World, a: Action)
    requires Durable(w) && Told(w) && Legal(w, a) && (a.Restart? ==> Covered(w))
    ensures Told(Next(w, a))
  {
    match a
    case Submit(cmd, ok) => SubmitTold(w, cmd, ok);
    case Apply => ApplyTold(w);
    case Handle(clk, next, r) => HandleTold(w, clk, next, r);
    case Snap(size, now) => SnapTold(w, size, now);
    case Restart => ReloadTold(w);
    case _ => QuietSteps(w, a);
  }

  lemma {:induction false} RunDurable(run: seq<World>, acts: seq<Action>, k: nat)
    requires IsRun(run, acts) && k <= |acts|
    ensures Durable(run[k])
  {
    if k > 0 {
      RunDurable(run, acts, k - 1);
      RunStepDurable(run, acts, k - 1, k);
    }
  }

  lemma RunStepDurable(run: seq<World>, acts: seq<Action>, j: nat, k: nat)
    requires IsRun(run, acts) && j < |acts| && k == j + 1 && Durable(run[j])
    ensures Durable(run[k])
  {
    assert StepAt(run, acts, j);
    StepDurable(run[j], acts[j]);
  }

  lemma RunStepTold(run: seq<World>, acts: seq<Action>, j: nat, k: nat)
    requires IsRun(run, acts) && SafeRestarts(run, acts) && j < |acts| && k == j + 1 && Durable(run[j]) && Told(run[j])
    ensures Durable(run[k]) && Told(run[k])
  {
    assert StepAt(run, acts, j);
    StepDurable(run[j], acts[j]);
    StepTold(run[j], acts[j]);
  }

  lemma {:induction false} RunTold(run: seq<World>, acts: seq<Action>, k: nat)
    requires IsRun(run, acts) && SafeRestarts(run, acts) && k <= |acts|
    ensures Durable(run[k]) && Told(run[k])
  {
    if k > 0 {
      RunTold(run, acts, k - 1);
      RunStepTold(run, acts, k - 1, k);
    } else {
      assert run[0].node.sent == [];
    }
  }

  // Through any restarts every acknowledged command is in the log, in order
  // and committed, with its position as its index; the file and the snapshot
  // together hold the same.
  lemma AckedIsLogged(run: seq<World>, acts: seq<Action>, k: nat)
    requires IsRun(run, acts) && k <= |acts|
    ensures var n, acked := run[k].node, run[k].acked;
            && n.commitIndex == LastIndex(n) == |acked|
            && (forall i :: 0 <= i < |n.log| ==> n.log[i].command == acked[n.logBase + i])
            && (forall i :: 0 <= i < |n.log| ==> n.log[i].index == n.logBase + i + 1)
            && (n.disk.saved != None ==> n.disk.saved.value.log == n.log)
            && n.logBase == if n.disk.snapshot == None then 0 else n.disk.snapshot.value.index
  {
    RunDurable(run, acts, k);
    TailHeld(run[k].node, run[k].full, run[k].acked);
  }

  // The snapshot on disk is known by the last entry it covers, through any
  // restarts, and a restart begins with it.
  lemma SnapshotNamesEntry(run: seq<World>, acts: seq<Action>, k: nat)
    requires IsRun(run, acts) && k <= |acts| && run[k].node.disk.snapshot != None
    ensures var p, full := run[k].node.disk.snapshot.value, run[k].full;
            && 0 < p.index <= |full| && p.term == full[p.index - 1].term && full[p.index - 1].index == p.index
            && Reload(run[k].node).snap == p && Reload(run[k].node).sent == [SnapshotMsg(p.data, p.index, p.term)]
  {
    RunDurable(run, acts, k);
    ReloadDurable(run[k]);
    ReloadShape(run[k].node);
  }

  // ---- Redelivery ----

  // The apply loop run to its end.
  function Drained(n: Node): Node {
    ApplyPending(n.(applying := true))
  }

  lemma {:induction false} DrainTold(w: World)
    requires Durable(w) && Told(w) && w.node.applying
    ensures var w' := w.(node := ApplyPending(w.node)); Durable(w') && Told(w') && w'.node.lastApplied == |w.acked|
    decreases w.node.commitIndex - w.node.lastApplied
  {
    ApplyDurable(w);
    ApplyTold(w);
    if w.node.lastApplied < w.node.commitIndex {
      DrainTold(Next(w, Apply));
    }
  }

  lemma StartsLoop(w: World)
    requires Durable(w) && Told(w)
    ensures var v := w.(node := w.node.(applying := true)); Durable(v) && Told(v)
  {
  }

  // The node started again, its loop run to the end, and a server yet to begin.
  function Restarted(w: World): World {
    w.(node := Drained(Reload(w.node)), server := NEW_SERVER)
  }

  lemma Redelivered(w: World)
    requires Durable(w) && Told(w) && Covered(w)
    ensures Durable(Restarted(w)) && Told(Restarted(w)) && Restarted(w).node.lastApplied == |w.acked|
  {
    ReloadDurable(w);
    ReloadTold(w);
    DrainedTold(Next(w, Restart));
  }

  lemma DrainedTold(v: World)
    requires Durable(v) && Told(v)
    ensures var w' := v.(node := Drained(v.node)); Durable(w') && Told(w') && w'.node.lastApplied == |v.acked|
  {
    StartsLoop(v);
    DrainTold(v.(node := v.node.(applying := true)));
  }

  // Acknowledged command number x reaches the state machine: itself, or inside a snapshot.
  ghost predicate Reaches(sent: seq<ApplyMsg>, full: seq<Entry>, x: int) {
    S.Delivered(sent, full, x) || exists k :: 0 <= k < |sent| && sent[k].SnapshotMsg? && x <= sent[k].lastIndex
  }

  lemma {:induction false} GaplessReaches(sent: seq<ApplyMsg>, applied: nat, full: seq<Entry>, x: int)
    requires Streams(sent, applied, full) && 0 < x <= applied
    ensures Reaches(sent, full, x)
    decreases |sent|
  {
    var k := |sent| - 1;
    assert C.StreamAt(sent, full, k) && S.DirectAt(sent, k);
    if sent[k].CommandMsg? && x < applied {
      var front := sent[..k];
      forall i | 0 <= i < k
        ensures C.StreamAt(front, full, i) && S.DirectAt(front, i)
      {
        assert C.StreamAt(sent, full, i) && S.DirectAt(sent, i) && front[..i] == sent[..i];
      }
      GaplessReaches(front, applied - 1, full, x);
      assert forall m :: m in front ==> m in sent;
      assert forall i :: 0 <= i < k ==> sent[i] == front[i];
    }
  }

  // A restart brings back every acknowledged command exactly when a snapshot
  // exists (or nothing was acknowledged): without one a restarted node counts
  // its whole log as applied and tells the state machine nothing.
  lemma RestartRedeliversExactly(run: seq<World>, acts: seq<Action>, k: nat)
    requires IsRun(run, acts) && SafeRestarts(run, acts) && k <= |acts|
    ensures (forall x :: 0 < x <= |run[k].acked| ==> Reaches(Restarted(run[k]).node.sent, run[k].full, x))
            <==> Covered(run[k])
  {
    RunTold(run, acts, k);
    var w := run[k];
    var after := Restarted(w).node;
    if Covered(w) {
      Redelivered(w);
      forall x | 0 < x <= |w.acked|
        ensures Reaches(after.sent, w.full, x)
      {
        GaplessReaches(after.sent, after.lastApplied, w.full, x);
      }
    } else {
      ReloadDurable(w);
      ReloadShape(w.node);
      assert after.sent == [];
      assert !Reaches(after.sent, w.full, 1);
    }
  }

  // ---- The server after any restarts ----

  // At every moment, through restarts at which a snapshot existed: the server
  // is where handling the acknowledged commands in order leads.
  lemma ServerFollowsAcked(run: seq<World>, acts: seq<Action>, k: nat)
    requires IsRun(run, acts) && SafeRestarts(run, acts) && k <= |acts|
    ensures 0 <= Reached(run[k]) <= run[k].node.lastApplied <= |run[k].acked|
    ensures ServerOk(run[k].acked, run[k].server, Reached(run[k]))
  {
    RunTold(run, acts, k);
    ReachedBelow(run[k]);
  }

  // Without client ids its map is the fold of those commands.
  lemma StoreIsAcked(run: seq<World>, acts: seq<Action>, k: nat)
    requires IsRun(run, acts) && SafeRestarts(run, acts) && k <= |acts| && NoIds(run[k].acked)
    ensures 0 <= Reached(run[k]) <= |run[k].acked|
    ensures var cmds, store := run[k].acked[..Reached(run[k])], run[k].server.kv.store;
            store == FoldCommands(map[], cmds) && Written(map[], cmds, store)
  {
    ServerFollowsAcked(run, acts, k);
    var w := run[k];
    ReachedFold(w.acked, w.server.clks, w.server.cuts, Reached(w), w.server.kv);
  }

  // A new server that has handled the first m messages.
  ghost function Served(w: World, kvs: seq<Kv>, clks: seq<Clock>, m: nat): Server
    requires m <= |clks| == |w.node.sent| && |kvs| == |clks| + 1
    ensures Served(w, kvs, clks, m).seen == m
  {
    if m == 0 then NEW_SERVER
    else HandleNext(w.(server := Served(w, kvs, clks, m - 1)), clks[m - 1], kvs[m])
  }

  lemma {:induction false} ServedTold(w: World, kvs: seq<Kv>, clks: seq<Clock>, m: nat)
    requires Durable(w) && Told(w) && w.server == NEW_SERVER && S.Consumes(kvs, w.node.sent, clks) && m <= |w.node.sent|
    ensures Durable(w.(server := Served(w, kvs, clks, m))) && Told(w.(server := Served(w, kvs, clks, m)))
    ensures Served(w, kvs, clks, m).kv == kvs[m]
  {
    if m > 0 {
      ServedTold(w, kvs, clks, m - 1);
      var v := w.(server := Served(w, kvs, clks, m - 1));
      var r := HandledResult(kvs[m - 1], w.node.sent[m - 1], clks[m - 1], kvs[m]);
      assert S.Handles(kvs[m - 1], w.node.sent[m - 1], clks[m - 1], kvs[m]);
      HandleTold(v, clks[m - 1], kvs[m], r);
    }
  }

  lemma HandledResult(kv: Kv, m: ApplyMsg, clk: Clock, kv': Kv) returns (r: Result)
    requires S.Handles(kv, m, clk, kv')
    ensures m.CommandMsg? ==> Handled(kv, m.command, clk, kv', r)
  {
    if m.CommandMsg? {
      r :| Handled(kv, m.command, clk, kv', r);
    } else {
      r := Result("", NoErr);
    }
  }

  // Stop at any moment at which a snapshot exists (or nothing was ever
  // acknowledged), start again, let the loop run and a new server handle what
  // it is told: it is where handling every acknowledged command leads, the
  // compacted ones at the readings behind the snapshot, the others at its own.
  lemma RestartedServer(run: seq<World>, acts: seq<Action>, k: nat, kvs: seq<Kv>, clks: seq<Clock>)
    requires IsRun(run, acts) && SafeRestarts(run, acts) && k <= |acts| && Covered(run[k])
    requires S.Consumes(kvs, Restarted(run[k]).node.sent, clks)
    ensures var w := Restarted(run[k]);
            var s := Served(w, kvs, clks, |clks|);
            && s.kv == kvs[|clks|] && ServerOk(run[k].acked, s, |run[k].acked|)
            && (w.node.sent != [] && w.node.sent[0].SnapshotMsg? ==>
                  s.clks == w.saved.clks + clks[1..] && w.saved.cuts != [] && AddCut(w.saved.cuts, w.saved.now) <= s.cuts)
  {
    RunTold(run, acts, k);
    Redelivered(run[k]);
    ServedAll(Restarted(run[k]), kvs, clks);
  }

  lemma ServedAll(w: World, kvs: seq<Kv>, clks: seq<Clock>)
    requires Durable(w) && Told(w) && w.server == NEW_SERVER && w.node.lastApplied == |w.acked|
    requires S.Consumes(kvs, w.node.sent, clks)
    ensures var s := Served(w, kvs, clks, |clks|);
            && s.kv == kvs[|clks|] && ServerOk(w.acked, s, |w.acked|)
            && (w.node.sent != [] && w.node.sent[0].SnapshotMsg? ==>
                  s.clks == w.saved.clks + clks[1..] && w.saved.cuts != [] && AddCut(w.saved.cuts, w.saved.now) <= s.cuts)
  {
    ServedTold(w, kvs, clks, |clks|);
    assert w.node.sent[..|clks|] == w.node.sent;
    if w.node.sent != [] && w.node.sent[0].SnapshotMsg? {
      ServedReadings(w, kvs, clks, |clks|);
      assert clks[1..|clks|] == clks[1..];
    }
  }

  lemma {:induction false} ServedReadings(w: World, kvs: seq<Kv>, clks: seq<Clock>, m: nat)
    requires SnapFirst(w.node.sent, 0, w.node.disk.snapshot) && SavedOk(w.acked, w.saved, w.node.disk.snapshot)
    requires 0 < m <= |clks| == |w.node.sent| && |kvs| == |clks| + 1 && w.node.sent[0].SnapshotMsg?
    ensures w.saved.cuts != [] && Served(w, kvs, clks, m).clks == w.saved.clks + clks[1..m]
    ensures AddCut(w.saved.cuts, w.saved.now) <= Served(w, kvs, clks, m).cuts
  {
    assert w.saved.cuts != [];
    if m == 1 {
      assert clks[1..1] == [];
    } else {
      ServedReadings(w, kvs, clks, m - 1);
      assert clks[1..m] == clks[1..m - 1] + [clks[m - 1]];
    }
  }

  // Without client ids: the fold of every command ever acknowledged.
  lemma OneNodeDurability(run: seq<World>, acts: seq<Action>, k: nat, kvs: seq<Kv>, clks: seq<Clock>)
    requires IsRun(run, acts) && SafeRestarts(run, acts) && k <= |acts| && Covered(run[k]) && NoIds(run[k].acked)
    requires S.Consumes(kvs, Restarted(run[k]).node.sent, clks)
    ensures var store := kvs[|kvs| - 1].store;
            store == FoldCommands(map[], run[k].acked) && Written(map[], run[k].acked, store)
  {
    RestartedServer(run, acts, k, kvs, clks);
    var w := run[k];
    var s := Served(Restarted(w), kvs, clks, |clks|);
    assert w.acked[..|w.acked|] == w.acked;
    ReachedFold(w.acked, s.clks, s.cuts, |w.acked|, s.kv);
  }

  // ---- Where the two files part ----

  // The raft-state file is written first. A restart after that write still
  // has every acknowledged command if and only if the snapshot file was
  // written too.
  lemma TwoFileGap(w: World, size: nat, now: int, okSnap: bool)
    requires Durable(w) && SnapAt(w, size, now, true, okSnap).logBase > w.node.logBase
    ensures LastIndex(Reload(SnapAt(w, size, now, true, okSnap))) == |w.acked| <==> okSnap
  {
    var m := SnapAt(w, size, now, true, okSnap);
    assert m.disk.saved.value.log == m.log;
  }

  lemma ReloadLength(n: Node)
    requires n.disk.saved != None
    ensures LastIndex(Reload(n)) == (if n.disk.snapshot == None then 0 else n.disk.snapshot.value.index) + |n.disk.saved.value.log|
  {
  }

  // A failed raft-state write loses nothing by itself, but the next command
  // writes the shortened log without the snapshot.
  lemma FailedSnapshotLosesLater(w: World, size: nat, now: int, okSnap: bool, cmd: Command)
    requires Durable(w) && w.node.role == Leader && SnapAt(w, size, now, false, okSnap).logBase > w.node.logBase
    ensures var m := SnapAt(w, size, now, false, okSnap);
            && LastIndex(Reload(m)) == |w.acked|
            && LastIndex(Reload(ReplicateCommand(m, cmd, true).0)) < |w.acked| + 1
  {
    var n, m := w.node, SnapAt(w, size, now, false, okSnap);
    assert m.disk == n.disk && m.id == n.id && LastIndex(m) == LastIndex(n) && m.role == Leader && m.peers == n.peers;
    ReloadDurable(w);
    ReloadShape(n);
    var c := ReplicateCommand(m, cmd, true).0;
    SubmitShape(m, cmd, true);
    assert c.disk.snapshot == n.disk.snapshot && |c.disk.saved.value.log| == |m.log| + 1;
    ReloadLength(c);
  }
}
