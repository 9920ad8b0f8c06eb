// The one-node cluster when commands carry client ids (kv/apply.go,
// kv/snapshot.go, raft/raft.go).
module DurabilityIds {
  import opened KvTypes
  import opened KvSpec
  import opened KvRuns
  import opened StoreSpec
  import opened DedupSpec
  import opened Dedup
  import opened Durability
  import opened RaftTypes
  import E = KvExamples
  import S = CompactionSafety

  // At every moment, through restarts at which a snapshot existed: the map is
  // what executing the commands DedupSpec says, at the readings each was last
  // handled at, makes; with timely repeats, each command once.
  lemma StoreIsAckedWithIds(run: seq<World>, acts: seq<Action>, k: nat)
    requires IsRun(run, acts) && SafeRestarts(run, acts) && k <= |acts|
    ensures 0 <= Reached(run[k]) <= |run[k].acked|
    ensures var s, cmds := run[k].server, run[k].acked[..Reached(run[k])];
            && |s.clks| == |cmds| && |s.cuts| == |cmds| + 1
            && (KnownOps(cmds) && TicksThrough(cmds, s.clks, s.cuts) ==>
                  && s.kv.store == StoreBy(cmds, s.clks, |cmds|) && Written(map[], Executed(cmds, s.clks, |cmds|), s.kv.store)
                  && (Timely(cmds, s.clks) ==>
                        s.kv.store == StoreAfter(cmds, |cmds|) && Written(map[], FirstOnes(cmds, |cmds|), s.kv.store)))
  {
    ServerFollowsAcked(run, acts, k);
    var s, c := run[k].server, Reached(run[k]);
    if KnownOps(run[k].acked[..c]) && TicksThrough(run[k].acked[..c], s.clks, s.cuts) {
      ServerMeans(run[k].acked, s, c);
    }
  }

  lemma ServerMeans(acked: seq<Command>, s: Server, upTo: nat)
    requires ServerOk(acked, s, upTo) && KnownOps(acked[..upTo]) && TicksThrough(acked[..upTo], s.clks, s.cuts)
    ensures s.kv.store == StoreBy(acked[..upTo], s.clks, upTo) && Written(map[], Executed(acked[..upTo], s.clks, upTo), s.kv.store)
    ensures Timely(acked[..upTo], s.clks) ==>
              s.kv.store == StoreAfter(acked[..upTo], upTo) && Written(map[], FirstOnes(acked[..upTo], upTo), s.kv.store)
  {
    var cmds := acked[..upTo];
    assert cmds[..upTo] == acked[..upTo];
    ReachedPrefix(acked, s.clks, s.cuts, cmds, s.clks, s.cuts, upTo, s.kv);
    ServerExact(cmds, s.clks, s.cuts, upTo, s.kv, EMPTY, Result("", NoErr));
    if Timely(cmds, s.clks) {
      TimelyStore(cmds, s.clks, upTo);
      StoreAfterWritten(cmds, upTo);
    }
  }

  // Stop while a snapshot exists, start again, let the loop run and a new
  // server handle what it is told: with timely repeats, counting the readings
  // behind the snapshot and its own, every command ever acknowledged has been
  // executed once.
  lemma OneNodeDurabilityWithIds(run: seq<World>, acts: seq<Action>, k: nat, kvs: seq<Kv>, clks: seq<Clock>)
    requires IsRun(run, acts) && SafeRestarts(run, acts) && k <= |acts| && Covered(run[k])
    requires S.Consumes(kvs, Restarted(run[k]).node.sent, clks)
    ensures var s, cmds := Served(Restarted(run[k]), kvs, clks, |clks|), run[k].acked;
            && |s.clks| == |cmds| && |s.cuts| == |cmds| + 1
            && (KnownOps(cmds) && TicksThrough(cmds, s.clks, s.cuts) ==>
                  && kvs[|kvs| - 1].store == StoreBy(cmds, s.clks, |cmds|)
                  && Written(map[], Executed(cmds, s.clks, |cmds|), kvs[|kvs| - 1].store)
                  && (Timely(cmds, s.clks) ==>
                        && kvs[|kvs| - 1].store == StoreAfter(cmds, |cmds|)
                        && Written(map[], FirstOnes(cmds, |cmds|), kvs[|kvs| - 1].store)))
  {
    RestartedServer(run, acts, k, kvs, clks);
    var s, cmds := Served(Restarted(run[k]), kvs, clks, |clks|), run[k].acked;
    assert cmds[..|cmds|] == cmds;
    if KnownOps(cmds) && TicksThrough(cmds, s.clks, s.cuts) {
      ServerMeans(cmds, s, |cmds|);
    }
  }

  // ---- The two inputs that need the conditions ----

  lemma TwoMessages(a: ApplyMsg, b: ApplyMsg, c: Clock, d: Clock, mid: Kv, end: Kv)
    requires S.Handles(EMPTY, a, c, mid) && S.Handles(mid, b, d, end)
    ensures S.Consumes([EMPTY, mid, end], [a, b], [c, d])
  {
  }

  // With client ids the map need not be the fold of the commands: a repeat in
  // time is answered, not executed.
  lemma IdsBreakTheFold()
    ensures var sent := [CommandMsg(E.TWICE[0], 1), CommandMsg(E.TWICE[1], 2)];
            var kvs := [EMPTY, E.Holding("a", 0), E.Holding("a", 0)];
            S.Consumes(kvs, sent, [E.FIRST, E.SOON]) && kvs[2].store != FoldCommands(map[], E.TWICE)
  {
    E.FirstExecutes();
    E.SoonAnswered();
    E.FoldExecutesBoth();
    TwoMessages(CommandMsg(E.TWICE[0], 1), CommandMsg(E.TWICE[1], 2), E.FIRST, E.SOON, E.Holding("a", 0), E.Holding("a", 0));
    assert map["k" := "a"]["k"] != map["k" := "aa"]["k"];
  }

  lemma IdealExecutesOnce()
    ensures StoreAfter(E.TWICE, 2) == map["k" := "a"]
  {
    assert SameIds(E.TWICE[0], E.TWICE[1]) && Repeat(E.TWICE, 1);
    assert "" + "a" == "a" && StoreAfter(E.TWICE, 1) == map["k" := "a"];
  }

  // The snapshot of a server that has handled the first of the two.
  function Taken(): ApplyMsg {
    SnapshotMsg(Payload(0, Some(Serialize(E.Holding("a", 0), 0))), 1, 1)
  }

  lemma TakenRestores()
    ensures S.Handles(EMPTY, Taken(), E.FIRST, E.Holding("a", 0))
  {
    E.RestoredHolding();
  }

  // And a restart that takes longer than the expiry executes again a repeat
  // whose first execution is inside the snapshot.
  lemma LateRestartExecutesTwice()
    ensures var kvs := [EMPTY, E.Holding("a", 0), E.Holding("aa", EXPIRY + 1)];
            S.Consumes(kvs, [Taken(), CommandMsg(E.TWICE[1], 2)], [E.FIRST, E.LATE]) && kvs[2].store != StoreAfter(E.TWICE, 2)
  {
    TakenRestores();
    E.LateExecutes();
    TwoMessages(Taken(), CommandMsg(E.TWICE[1], 2), E.FIRST, E.LATE, E.Holding("a", 0), E.Holding("aa", EXPIRY + 1));
    IdealExecutesOnce();
    assert map["k" := "a"]["k"] != map["k" := "aa"]["k"];
  }
}
