// The key-value server as the source writes it: maps changed in place under one
// lock, with the loops that clean, evict and copy them (kv/apply.go,
// kv/snapshot.go, kv/server.go). The methods are proved against KvSpec and
// Waiters.
module KvServer {
  import opened KvTypes
  import opened KvSpec
  import W = Waiters

  class Server {
    var state: Store
    var duplicates: Cache
    var pendingOps: map<nat, nat>
    var recent: map<nat, Result>
    var channels: map<nat, seq<Result>>
    var maxPending: nat
    var dead: bool
    var lastApplied: int
    var lastSnapshotIndex: int
    ghost var answers: map<nat, Result>

    ghost function View(): Kv
      reads this
    {
      Kv(state, duplicates)
    }

    ghost function Waits(): W.Table
      reads this
    {
      W.Table(pendingOps, recent, channels, answers, maxPending, dead)
    }

    constructor (maxPending: int)
      ensures View() == EMPTY && lastApplied == lastSnapshotIndex == 0
      ensures Waits() == W.Table(map[], map[], map[], map[], if maxPending <= 0 then 1000 else maxPending, false)
    {
      state, duplicates := map[], map[];
      pendingOps, recent, channels, answers := map[], map[], map[], map[];
      this.maxPending := if maxPending <= 0 then 1000 else maxPending;
      dead, lastApplied, lastSnapshotIndex := false, 0, 0;
    }

    // ---- kv/apply.go ----

    method ApplyCommand(op: Op) returns (r: Result)
      modifies this`state
      ensures (state, r) == Execute(old(state), op)
    {
      match op.kind
      case OpPut =>
        state := state[op.key := op.value];
        return Result("", NoErr);
      case OpAppend =>
        var cur := if op.key in state then state[op.key] else "";
        state := state[op.key := cur + op.value];
        return Result("", NoErr);
      case OpGet =>
        if op.key !in state { return Result("", KeyNotFound); }
        return Result(state[op.key], NoErr);
      case OpOther(code) =>
        return Result("", UnknownOp(code));
    }

    // An expired entry is deleted on the way.
    method GetDuplicate(op: Op, now: int) returns (r: Option<Result>)
      modifies this`duplicates
      ensures r == Lookup(old(duplicates), op, now)
      ensures duplicates == AfterLookup(old(duplicates), op, now)
    {
      if op.clientId !in duplicates { return None; }
      var clientMap := duplicates[op.clientId];
      if op.seqId !in clientMap { return None; }
      var entry := clientMap[op.seqId];
      if now - entry.stamp > EXPIRY {
        duplicates := duplicates[op.clientId := Without(clientMap, op.seqId)];
        return None;
      }
      return Some(entry.result);
    }

    method SaveDuplicate(client: nat, seqNum: nat, result: Result, now: int)
      modifies this`duplicates
      ensures duplicates == old(duplicates)[client := Of(old(duplicates), client)[seqNum := DuplicateEntry(result, now)]]
    {
      if client !in duplicates { duplicates := duplicates[client := map[]]; }
      var clientMap: ClientCache := duplicates[client][seqNum := DuplicateEntry(result, now)];
      duplicates := duplicates[client := clientMap];
    }

    method CleanupDuplicateCache(client: nat, now: int)
      modifies this`duplicates
      ensures client !in old(duplicates) ==> duplicates == old(duplicates)
      ensures client in old(duplicates) ==>
                && client in duplicates && duplicates == old(duplicates)[client := duplicates[client]]
                && Cleaned(old(duplicates)[client], duplicates[client], now)
    {
      if client !in duplicates { return; }
      var live := RemoveExpired(duplicates[client], now);
      var kept := EvictOldest(live);
      duplicates := duplicates[client := kept];
    }

    static method RemoveExpired(m: ClientCache, now: int) returns (live: ClientCache)
      ensures live == Live(m, now)
    {
      live := m;
      var todo := m.Keys;
      while todo != {}
        invariant todo <= m.Keys
        invariant forall s :: s in live <==> s in m && (s in todo || Fresh(m[s], now))
        invariant forall s :: s in live ==> live[s] == m[s]
        decreases |todo|
      {
        var s :| s in todo;
        if now - m[s].stamp > EXPIRY { live := live - {s}; }
        todo := todo - {s};
      }
    }

    static method EvictOldest(live: ClientCache) returns (kept: ClientCache)
      ensures KeepsNewest(live, kept)
      ensures |kept| == if |live| <= CAP then |live| else CAP
    {
      kept := live;
      while |kept| > CAP
        invariant KeepsNewest(live, kept)
        invariant |kept| == |live| || CAP <= |kept| < |live|
        decreases |kept|
      {
        var oldest := FindOldest(kept);
        assert (kept - {oldest}).Keys == kept.Keys - {oldest};
        kept := kept - {oldest};
      }
    }

    // The inner scan: any entry no other is strictly older than.
    static method FindOldest(m: ClientCache) returns (oldest: nat)
      requires |m| > 0
      ensures oldest in m && forall s :: s in m ==> m[oldest].stamp <= m[s].stamp
    {
      var todo := m.Keys;
      assert todo != {};
      oldest :| oldest in todo;
      while todo != {}
        invariant todo <= m.Keys && oldest in m
        invariant forall s :: s in m && s !in todo ==> m[oldest].stamp <= m[s].stamp
        decreases |todo|
      {
        var s :| s in todo;
        if m[s].stamp < m[oldest].stamp { oldest := s; }
        todo := todo - {s};
      }
    }

    // processApplyMsg for a command, up to the snapshot trigger. A repeat
    // leaves lastApplied where it was.
    method ProcessCommand(index: nat, cmd: Command, clk: Clock) returns (result: Result)
      modifies this
      ensures Handled(old(View()), cmd, clk, View(), result)
      ensures lastApplied == if cmd.Encoded? && Executes(old(View()), cmd.op, clk) then index else old(lastApplied)
      ensures W.Notified(old(Waits()), index, result, Waits())
      ensures lastSnapshotIndex == old(lastSnapshotIndex)
    {
      if cmd.Malformed? {
        result := Result("", Undecodable);
      } else {
        result := Apply(index, cmd.op, clk);
      }
      assert Handled(old(View()), cmd, clk, View(), result);
      NotifyWaiter(index, result);
    }

    // The critical section of processApplyMsg.
    method Apply(index: nat, op: Op, clk: Clock) returns (result: Result)
      modifies this`state, this`duplicates, this`lastApplied
      ensures Applied(old(View()), op, clk, View(), result)
      ensures lastApplied == if Executes(old(View()), op, clk) then index else old(lastApplied)
    {
      if op.clientId != 0 && op.seqId != 0 {
        var dup := GetDuplicate(op, clk.lookup);
        if dup != None { return dup.value; }
      }
      ghost var e := DuplicateEntry(Execute(state, op).1, clk.save);
      assert Of(duplicates, op.clientId)[op.seqId := e] == Of(old(duplicates), op.clientId)[op.seqId := e];
      result := ApplyCommand(op);
      lastApplied := index;
      SaveDuplicate(op.clientId, op.seqId, result, clk.save);
      CleanupDuplicateCache(op.clientId, clk.clean);
    }

    method NotifyWaiter(index: nat, result: Result)
      modifies this`pendingOps, this`recent, this`channels
      ensures W.Notified(old(Waits()), index, result, Waits())
    {
      if index in pendingOps {
        var ch := pendingOps[index];
        pendingOps := pendingOps - {index};
        if ch in channels && |channels[ch]| == 0 { channels := channels[ch := [result]]; }
        return;
      }
      recent := recent[index := result];
      ghost var all := recent;
      while |recent| > maxPending
        invariant recent.Keys <= all.Keys && forall x :: x in recent ==> recent[x] == all[x]
        invariant |recent| == |all| || maxPending <= |recent| < |all|
        invariant pendingOps == old(pendingOps) && channels == old(channels)
        decreases |recent|
      {
        var keys := recent.Keys;
        assert keys != {};
        var idx :| idx in keys;
        assert (recent - {idx}).Keys == recent.Keys - {idx};
        recent := recent - {idx};
      }
    }

    // ---- kv/server.go ----

    // The registration section of submitOperation; ch is the channel just made.
    method RegisterWaiter(index: nat, ch: nat) returns (r: W.Registration)
      requires ch !in channels
      modifies this`pendingOps, this`recent, this`channels, this`answers
      ensures (Waits(), r) == W.Register(old(Waits()), index, ch)
    {
      if dead { return W.ShuttingDown; }
      if |pendingOps| >= maxPending { return W.TooMany; }
      channels := channels[ch := []];
      pendingOps := pendingOps[index := ch];
      if index in recent {
        var res := recent[index];
        recent := recent - {index};
        answers := answers[ch := res];
        return W.Answered(res);
      }
      return W.Waiting;
    }

    // The timeout branch of submitOperation.
    method CancelWaiter(index: nat)
      modifies this`pendingOps
      ensures Waits() == W.TimeOut(old(Waits()), index)
    {
      pendingOps := pendingOps - {index};
    }

    method KillServer()
      modifies this`dead, this`pendingOps, this`channels
      ensures Waits() == W.Kill(old(Waits()))
    {
      if dead { return; }
      dead := true;
      var todo := pendingOps.Keys;
      ghost var chans := channels;
      while todo != {}
        invariant dead && todo <= pendingOps.Keys && pendingOps == old(pendingOps)
        invariant channels.Keys == chans.Keys
        invariant forall ch :: ch in channels ==>
          channels[ch] == if |chans[ch]| == 0 && (exists x :: x in pendingOps && x !in todo && pendingOps[x] == ch)
                          then [Result("", ShuttingDownErr)] else chans[ch]
        decreases |todo|
      {
        var x :| x in todo;
        var ch := pendingOps[x];
        if ch in channels && |channels[ch]| == 0 { channels := channels[ch := [Result("", ShuttingDownErr)]]; }
        todo := todo - {x};
      }
      assert forall ch :: ch in pendingOps.Values <==> exists x :: x in pendingOps && pendingOps[x] == ch;
      assert channels == W.Kill(old(Waits())).chans;
      pendingOps := map[];
    }

    // ---- kv/snapshot.go ----

    method SerializeSnapshot(now: int) returns (image: Image)
      ensures image == Serialize(View(), now)
    {
      var dedup: map<nat, map<nat, SnapshotEntry>> := map[];
      var todo := duplicates.Keys;
      while todo != {}
        invariant todo <= duplicates.Keys
        invariant forall c :: c in dedup <==> c in duplicates && c !in todo && SaveClient(c, duplicates[c], now) != map[]
        invariant forall c :: c in dedup ==> dedup[c] == SaveClient(c, duplicates[c], now)
        decreases |todo|
      {
        var c :| c in todo;
        var saved := SerializeClient(c, duplicates[c], now);
        if saved != map[] { dedup := dedup[c := saved]; }
        todo := todo - {c};
      }
      image := Image(state, dedup);
      assert dedup == Serialize(View(), now).dedup;
    }

    static method SerializeClient(c: nat, m: ClientCache, now: int) returns (saved: map<nat, SnapshotEntry>)
      ensures saved == SaveClient(c, m, now)
    {
      saved := map[];
      var todo := m.Keys;
      while todo != {}
        invariant todo <= m.Keys
        invariant forall s :: s in saved <==> s in m && s !in todo && Worth(c, s, m[s], now)
        invariant forall s :: s in saved ==> saved[s] == ToSnapshotEntry(m[s])
        decreases |todo|
      {
        var s :| s in todo;
        todo := todo - {s};
        if c == 0 && s == 0 { continue; }
        if now - m[s].stamp > EXPIRY { continue; }
        saved := saved[s := SnapshotEntry(m[s].result.value, ErrString(m[s].result.err), m[s].stamp)];
      }
    }

    static method DeserializeSnapshot(image: Image) returns (state: Store, dedup: Cache)
      ensures Kv(state, dedup) == Deserialize(image)
    {
      state := image.state;
      dedup := map[];
      var todo := image.dedup.Keys;
      while todo != {}
        invariant todo <= image.dedup.Keys
        invariant forall c :: c in dedup <==> c in image.dedup && c !in todo
        invariant forall c :: c in dedup ==> dedup[c] == LoadClient(image.dedup[c])
        decreases |todo|
      {
        var c :| c in todo;
        var clientMap := DeserializeClient(image.dedup[c]);
        dedup := dedup[c := clientMap];
        todo := todo - {c};
      }
      assert dedup == Deserialize(image).cache;
    }

    static method DeserializeClient(m: map<nat, SnapshotEntry>) returns (loaded: ClientCache)
      ensures loaded == LoadClient(m)
    {
      loaded := map[];
      var todo := m.Keys;
      while todo != {}
        invariant todo <= m.Keys
        invariant forall s :: s in loaded <==> s in m && s !in todo
        invariant forall s :: s in loaded ==> loaded[s] == FromSnapshotEntry(m[s])
        decreases |todo|
      {
        var s :| s in todo;
        loaded := loaded[s := DuplicateEntry(Result(m[s].value, SentinelErr(m[s].err)), m[s].stamp)];
        todo := todo - {s};
      }
    }

    // An unreadable snapshot leaves everything as it was.
    method HandleSnapshotMsg(data: Payload, index: int)
      modifies this
      ensures data.image == None ==>
                View() == old(View()) && Waits() == old(Waits()) && lastApplied == old(lastApplied)
      ensures data.image != None ==>
                && View() == Deserialize(data.image.value) && Waits() == W.ForgetRecent(old(Waits()))
                && lastApplied == lastSnapshotIndex == index
    {
      if data.image == None { return; }
      var st, dups := DeserializeSnapshot(data.image.value);
      state, duplicates := st, dups;
      lastApplied, lastSnapshotIndex := index, index;
      recent := map[];
    }

    // takeSnapshot up to the call into raft.
    method SnapshotDue(threshold: int, now: int) returns (due: Option<(int, Image)>)
      ensures due == if threshold > 0 && lastApplied - lastSnapshotIndex >= threshold
                     then Some((lastApplied, Serialize(View(), now))) else None
    {
      if threshold <= 0 || lastApplied - lastSnapshotIndex < threshold { return None; }
      var image := SerializeSnapshot(now);
      return Some((lastApplied, image));
    }

    // And after it: only an accepted snapshot counts.
    method SnapshotAnswered(index: int, accepted: bool)
      modifies this`lastSnapshotIndex
      ensures lastSnapshotIndex == if accepted then index else old(lastSnapshotIndex)
    {
      if accepted { lastSnapshotIndex := index; }
    }
  }
}
