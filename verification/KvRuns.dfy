// Runs of the state machine over the commands of a log, with snapshots taken
// and loaded again on the way, and what they are when no command carries
// client ids (kv/apply.go, kv/snapshot.go).
module KvRuns {
  import opened KvTypes
  import opened KvSpec
  import opened StoreSpec

  // ---- Without interruption ----

  ghost predicate KvStep(states: seq<Kv>, cmds: seq<Command>, clks: seq<Clock>, results: seq<Result>, k: nat)
    requires k < |clks| == |results| == |cmds| && |states| == |cmds| + 1
  {
    Handled(states[k], cmds[k], clks[k], states[k + 1], results[k])
  }

  ghost predicate KvRun(states: seq<Kv>, cmds: seq<Command>, clks: seq<Clock>, results: seq<Result>) {
    && |clks| == |results| == |cmds| && |states| == |cmds| + 1
    && (forall k :: 0 <= k < |cmds| ==> KvStep(states, cmds, clks, results, k))
  }

  // ---- With snapshots and restarts ----

  // Saved and loaded at each of these readings in turn.
  function Kept(kv: Kv, nows: seq<int>): Kv
    decreases |nows|
  {
    if nows == [] then kv else Restored(Kept(kv, nows[..|nows| - 1]), nows[|nows| - 1])
  }

  // The state machine, empty at first, has handled the first k commands and is
  // now kv; after i commands it was saved and loaded at the readings cuts[i].
  ghost predicate ReachedAt(cmds: seq<Command>, clks: seq<Clock>, cuts: seq<seq<int>>, k: nat, kv: Kv)
    requires k <= |cmds| && k <= |clks| && k < |cuts|
    decreases k
  {
    if k == 0 then kv == Kept(EMPTY, cuts[0])
    else exists prev, mid, r :: Continues(cmds, clks, cuts, k, prev, mid, r, kv)
  }

  ghost predicate Continues(cmds: seq<Command>, clks: seq<Clock>, cuts: seq<seq<int>>, k: nat, prev: Kv, mid: Kv, r: Result, kv: Kv)
    requires 0 < k <= |cmds| && k <= |clks| && k < |cuts|
    decreases k, 0
  {
    && ReachedAt(cmds, clks, cuts, k - 1, prev)
    && Handled(prev, cmds[k - 1], clks[k - 1], mid, r) && kv == Kept(mid, cuts[k])
  }

  // Some clock readings and some snapshots lead through all the commands to kv.
  ghost predicate Reachable(cmds: seq<Command>, kv: Kv) {
    exists clks, cuts :: |clks| == |cmds| && |cuts| == |cmds| + 1 && ReachedAt(cmds, clks, cuts, |cmds|, kv)
  }

  function NoCuts(n: nat): (cuts: seq<seq<int>>)
    ensures |cuts| == n && forall k :: 0 <= k < n ==> cuts[k] == []
  {
    seq(n, i => [])
  }

  lemma {:induction false} RunReached(states: seq<Kv>, cmds: seq<Command>, clks: seq<Clock>, results: seq<Result>, k: nat)
    requires KvRun(states, cmds, clks, results) && states[0] == EMPTY && k <= |cmds|
    ensures ReachedAt(cmds, clks, NoCuts(|cmds| + 1), k, states[k])
  {
    if k > 0 {
      RunReached(states, cmds, clks, results, k - 1);
      assert KvStep(states, cmds, clks, results, k - 1);
      assert Continues(cmds, clks, NoCuts(|cmds| + 1), k, states[k - 1], states[k], results[k - 1], states[k]);
    }
  }

  // What happened after k does not matter to k.
  lemma {:induction false} ReachedPrefix(
    cmds: seq<Command>, clks: seq<Clock>, cuts: seq<seq<int>>,
    cmds': seq<Command>, clks': seq<Clock>, cuts': seq<seq<int>>, k: nat, kv: Kv)
    requires k <= |cmds| && k <= |clks| && k < |cuts| && ReachedAt(cmds, clks, cuts, k, kv)
    requires k <= |cmds'| && k <= |clks'| && k < |cuts'|
    requires cmds'[..k] == cmds[..k] && clks'[..k] == clks[..k] && cuts'[..k + 1] == cuts[..k + 1]
    ensures ReachedAt(cmds', clks', cuts', k, kv)
    decreases k
  {
    assert cuts'[k] == cuts'[..k + 1][k] == cuts[..k + 1][k] == cuts[k];
    if k > 0 {
      var prev, mid, r :| Continues(cmds, clks, cuts, k, prev, mid, r, kv);
      assert cmds'[..k - 1] == cmds'[..k][..k - 1] == cmds[..k - 1];
      assert clks'[..k - 1] == clks'[..k][..k - 1] == clks[..k - 1];
      assert cuts'[..k] == cuts'[..k + 1][..k] == cuts[..k];
      ReachedPrefix(cmds, clks, cuts, cmds', clks', cuts', k - 1, prev);
      assert cmds'[k - 1] == cmds'[..k][k - 1] == cmds[k - 1] && clks'[k - 1] == clks'[..k][k - 1] == clks[k - 1];
      assert Continues(cmds', clks', cuts', k, prev, mid, r, kv);
    }
  }

  // One more command.
  lemma ReachedMore(cmds: seq<Command>, clks: seq<Clock>, cuts: seq<seq<int>>, k: nat, kv: Kv, clk: Clock, kv': Kv, r: Result)
    requires k < |cmds| && |clks| == k && |cuts| == k + 1 && ReachedAt(cmds, clks, cuts, k, kv)
    requires Handled(kv, cmds[k], clk, kv', r)
    ensures ReachedAt(cmds, clks + [clk], cuts + [[]], k + 1, kv')
  {
    assert (clks + [clk])[..k] == clks[..k] && (cuts + [[]])[..k + 1] == cuts[..k + 1];
    ReachedPrefix(cmds, clks, cuts, cmds, clks + [clk], cuts + [[]], k, kv);
    assert Continues(cmds, clks + [clk], cuts + [[]], k + 1, kv, kv', r, kv');
  }

  // One more snapshot.
  function AddCut(cuts: seq<seq<int>>, now: int): (r: seq<seq<int>>)
    requires cuts != []
    ensures |r| == |cuts|
  {
    cuts[|cuts| - 1 := cuts[|cuts| - 1] + [now]]
  }

  lemma ReachedRestored(cmds: seq<Command>, clks: seq<Clock>, cuts: seq<seq<int>>, k: nat, kv: Kv, now: int)
    requires k <= |cmds| && |clks| == k && |cuts| == k + 1 && ReachedAt(cmds, clks, cuts, k, kv)
    ensures ReachedAt(cmds, clks, AddCut(cuts, now), k, Restored(kv, now))
  {
    var cuts' := AddCut(cuts, now);
    assert cuts'[k][..|cuts'[k]| - 1] == cuts[k];
    if k > 0 {
      var prev, mid, r :| Continues(cmds, clks, cuts, k, prev, mid, r, kv);
      assert cuts'[..k] == cuts[..k];
      ReachedPrefix(cmds, clks, cuts, cmds, clks, cuts', k - 1, prev);
      assert Continues(cmds, clks, cuts', k, prev, mid, r, Restored(kv, now));
    }
  }

  // ---- Without client ids ----

  // Both ids are set: the command takes part in duplicate detection.
  predicate Looked(cmd: Command) {
    cmd.Encoded? && cmd.op.clientId != 0 && cmd.op.seqId != 0
  }

  ghost predicate NoIds(cmds: seq<Command>) {
    forall k :: 0 <= k < |cmds| ==> !Looked(cmds[k])
  }

  lemma NoIdsStep(kv: Kv, cmd: Command, clk: Clock, kv': Kv, r: Result)
    requires !Looked(cmd) && Handled(kv, cmd, clk, kv', r)
    ensures kv'.store == if cmd.Encoded? then Execute(kv.store, cmd.op).0 else kv.store
    ensures r == ResultOf(kv.store, cmd)
  {
  }

  lemma {:induction false} KeptStore(kv: Kv, nows: seq<int>)
    ensures Kept(kv, nows).store == kv.store
    decreases |nows|
  {
    if nows != [] { KeptStore(kv, nows[..|nows| - 1]); }
  }

  lemma {:induction false} ReachedStore(cmds: seq<Command>, clks: seq<Clock>, cuts: seq<seq<int>>, k: nat, kv: Kv)
    requires k <= |cmds| && k <= |clks| && k < |cuts| && ReachedAt(cmds, clks, cuts, k, kv) && NoIds(cmds[..k])
    ensures kv.store == FoldCommands(map[], cmds[..k])
    decreases k
  {
    if k == 0 {
      KeptStore(EMPTY, cuts[0]);
    } else {
      var prev, mid, r :| Continues(cmds, clks, cuts, k, prev, mid, r, kv);
      assert forall i :: 0 <= i < k - 1 ==> cmds[..k - 1][i] == cmds[..k][i];
      ReachedStore(cmds, clks, cuts, k - 1, prev);
      assert cmds[..k][k - 1] == cmds[k - 1];
      NoIdsStep(prev, cmds[k - 1], clks[k - 1], mid, r);
      KeptStore(mid, cuts[k]);
      FoldMore(map[], cmds, k - 1);
    }
  }

  // The cache, the clocks and the snapshots then play no part at all: the map
  // is what the commands wrote.
  lemma ReachedFold(cmds: seq<Command>, clks: seq<Clock>, cuts: seq<seq<int>>, k: nat, kv: Kv)
    requires k <= |cmds| && k <= |clks| && k < |cuts| && ReachedAt(cmds, clks, cuts, k, kv) && NoIds(cmds[..k])
    ensures kv.store == FoldCommands(map[], cmds[..k]) && Written(map[], cmds[..k], kv.store)
  {
    ReachedStore(cmds, clks, cuts, k, kv);
    FoldIsWritten(map[], cmds[..k]);
  }

  lemma ReachableFold(cmds: seq<Command>, kv: Kv)
    requires Reachable(cmds, kv) && NoIds(cmds)
    ensures kv.store == FoldCommands(map[], cmds) && Written(map[], cmds, kv.store)
  {
    var clks, cuts :| |clks| == |cmds| && |cuts| == |cmds| + 1 && ReachedAt(cmds, clks, cuts, |cmds|, kv);
    assert cmds[..|cmds|] == cmds;
    ReachedFold(cmds, clks, cuts, |cmds|, kv);
  }

  lemma ReachableMore(cmds: seq<Command>, kv: Kv, cmd: Command, clk: Clock, kv': Kv, r: Result)
    requires Reachable(cmds, kv) && Handled(kv, cmd, clk, kv', r)
    ensures Reachable(cmds + [cmd], kv')
  {
    var k, all := |cmds|, cmds + [cmd];
    var clks, cuts :| |clks| == k && |cuts| == k + 1 && ReachedAt(cmds, clks, cuts, k, kv);
    assert all[..k] == cmds[..k];
    ReachedPrefix(cmds, clks, cuts, all, clks, cuts, k, kv);
    ReachedMore(all, clks, cuts, k, kv, clk, kv', r);
  }

  lemma ReachableRestored(cmds: seq<Command>, kv: Kv, now: int)
    requires Reachable(cmds, kv)
    ensures Reachable(cmds, Restored(kv, now))
  {
    var clks, cuts :| |clks| == |cmds| && |cuts| == |cmds| + 1 && ReachedAt(cmds, clks, cuts, |cmds|, kv);
    ReachedRestored(cmds, clks, cuts, |cmds|, kv, now);
  }

  lemma ReachableEmpty()
    ensures Reachable([], EMPTY)
  {
    assert ReachedAt([], [], [[]], 0, EMPTY);
  }

  // Without client ids the map is what the commands wrote, from whatever map
  // the run began with, and each is answered from what those before it wrote.
  lemma NoIdsFold(states: seq<Kv>, cmds: seq<Command>, clks: seq<Clock>, results: seq<Result>, k: nat)
    requires KvRun(states, cmds, clks, results) && NoIds(cmds) && k <= |cmds|
    ensures states[k].store == FoldCommands(states[0].store, cmds[..k]) && Written(states[0].store, cmds[..k], states[k].store)
    ensures k < |cmds| ==> AnsweredFrom(states[k].store, cmds[k], results[k])
  {
    NoIdsRun(states, cmds, clks, results, k);
    FoldIsWritten(states[0].store, cmds[..k]);
    if k < |cmds| {
      assert KvStep(states, cmds, clks, results, k);
      NoIdsStep(states[k], cmds[k], clks[k], states[k + 1], results[k]);
      ResultAnswered(states[k].store, cmds[k]);
    }
  }

  lemma {:induction false} NoIdsRun(states: seq<Kv>, cmds: seq<Command>, clks: seq<Clock>, results: seq<Result>, k: nat)
    requires KvRun(states, cmds, clks, results) && NoIds(cmds) && k <= |cmds|
    ensures states[k].store == FoldCommands(states[0].store, cmds[..k])
  {
    if k > 0 {
      NoIdsRun(states, cmds, clks, results, k - 1);
      assert KvStep(states, cmds, clks, results, k - 1);
      NoIdsStep(states[k - 1], cmds[k - 1], clks[k - 1], states[k], results[k - 1]);
      FoldMore(states[0].store, cmds, k - 1);
    }
  }
}
