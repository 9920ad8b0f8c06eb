// Taking a snapshot of the state machine, restoring it and applying the rest
// of the log, against applying the whole log (kv/snapshot.go, kv/apply.go).
module KvCompaction {
  import opened KvTypes
  import opened KvSpec
  import opened KvRuns
  import opened StoreSpec
  import opened DedupSpec
  import opened Dedup

  // ---- Clean-up is a function when stamps differ ----

  ghost predicate Distinct(m: ClientCache) {
    forall s, t :: s in m && t in m && m[s].stamp == m[t].stamp ==> s == t
  }

  // Of two equally large sets neither has all of the other and more.
  lemma OutsideToo(a: set<nat>, b: set<nat>, s: nat) returns (t: nat)
    requires |a| == |b| && s in a && s !in b
    ensures t in b && t !in a
  {
    if forall x :: x in b ==> x in a {
      SubsetSmaller(b, a - {s});
      assert false;
    }
    t :| t in b && t !in a;
  }

  lemma KeptWithin(live: ClientCache, a: ClientCache, b: ClientCache, s: nat)
    requires KeepsNewest(live, a) && KeepsNewest(live, b) && |a.Keys| == |b.Keys| && Distinct(live) && s in a
    ensures s in b
  {
    if s !in b {
      var t := OutsideToo(a.Keys, b.Keys, s);
      assert false;
    }
  }

  lemma CleanedUnique(m: ClientCache, n: ClientCache, a: ClientCache, b: ClientCache, now: int)
    requires Live(m, now) == Live(n, now) && Distinct(m)
    requires Cleaned(m, a, now) && Cleaned(n, b, now)
    ensures a == b
  {
    var live := Live(m, now);
    assert |a.Keys| == |a| == |b| == |b.Keys|;
    forall s
      ensures s in a <==> s in b
    {
      if s in a { KeptWithin(live, a, b, s); }
      if s in b { KeptWithin(live, b, a, s); }
    }
  }

  // ---- Snapshot, restore, carry on ----

  // One snapshot, at reading `now`, after `cut` of n commands.
  function CutAt(n: nat, cut: nat, now: int): (cuts: seq<seq<int>>)
    requires cut <= n
    ensures |cuts| == n + 1 && forall i :: 0 <= i <= n ==> cuts[i] == if i == cut then [now] else []
  {
    seq(n + 1, i => if i == cut then [now] else [])
  }

  // The restored server has been through the first `cut` commands at the old
  // readings and through the rest at its own.
  ghost predicate Resumes(
    states: seq<Kv>, cmds: seq<Command>, clks: seq<Clock>, results: seq<Result>, cut: nat, now: int,
    states': seq<Kv>, clks': seq<Clock>, results': seq<Result>)
  {
    && KvRun(states, cmds, clks, results) && states[0] == EMPTY && cut <= |cmds|
    && KvRun(states', cmds[cut..], clks', results') && states'[0] == Restored(states[cut], now)
  }

  lemma {:induction false} ResumedReached(
    states: seq<Kv>, cmds: seq<Command>, clks: seq<Clock>, results: seq<Result>, cut: nat, now: int,
    states': seq<Kv>, clks': seq<Clock>, results': seq<Result>, k: nat)
    requires Resumes(states, cmds, clks, results, cut, now, states', clks', results') && cut <= k <= |cmds|
    ensures ReachedAt(cmds, clks[..cut] + clks', CutAt(|cmds|, cut, now), k, states'[k - cut])
    decreases k
  {
    var all, cuts := clks[..cut] + clks', CutAt(|cmds|, cut, now);
    if k == cut {
      RunReached(states, cmds, clks, results, cut);
      CutReached(cmds, clks, NoCuts(|cmds| + 1), all, cut, now, states[cut]);
    } else {
      ResumedReached(states, cmds, clks, results, cut, now, states', clks', results', k - 1);
      assert KvStep(states', cmds[cut..], clks', results', k - 1 - cut);
      assert all[k - 1] == clks'[k - 1 - cut];
      assert Continues(cmds, all, cuts, k, states'[k - 1 - cut], states'[k - cut], results'[k - 1 - cut], states'[k - cut]);
    }
  }

  lemma CutReached(cmds: seq<Command>, clks: seq<Clock>, none: seq<seq<int>>, all: seq<Clock>, cut: nat, now: int, kv: Kv)
    requires cut <= |cmds| == |clks| == |all| && all[..cut] == clks[..cut]
    requires |none| == |cmds| + 1 && Uncut(none) && ReachedAt(cmds, clks, none, cut, kv)
    ensures ReachedAt(cmds, all, CutAt(|cmds|, cut, now), cut, Restored(kv, now))
  {
    var cuts := CutAt(|cmds|, cut, now);
    assert [now][..0] == [];
    assert Kept(kv, [now]) == Restored(Kept(kv, []), now);
    if cut > 0 {
      var prev, mid, r :| Continues(cmds, clks, none, cut, prev, mid, r, kv);
      assert all[..cut - 1] == all[..cut][..cut - 1] == clks[..cut - 1] && cuts[..cut] == none[..cut];
      ReachedPrefix(cmds, clks, none, cmds, all, cuts, cut - 1, prev);
      assert all[cut - 1] == all[..cut][cut - 1] == clks[cut - 1];
      assert Continues(cmds, all, cuts, cut, prev, mid, r, Restored(kv, now));
    }
  }

  // The map, the results and the choice to execute are those of the commands
  // under the readings each was handled at.
  lemma RestoredExact(
    states: seq<Kv>, cmds: seq<Command>, clks: seq<Clock>, results: seq<Result>, cut: nat, now: int,
    states': seq<Kv>, clks': seq<Clock>, results': seq<Result>, k: nat)
    requires Resumes(states, cmds, clks, results, cut, now, states', clks', results') && cut <= k <= |cmds|
    requires KnownOps(cmds) && TicksThrough(cmds, clks[..cut] + clks', CutAt(|cmds|, cut, now))
    ensures states'[k - cut].store == StoreBy(cmds, clks[..cut] + clks', k)
    ensures k < |cmds| ==> results'[k - cut] == ResultBy(cmds, clks[..cut] + clks', k)
    ensures k < |cmds| && cmds[k].Encoded? ==>
              (Executes(states'[k - cut], cmds[k].op, clks'[k - cut]) <==> Runs(cmds, clks[..cut] + clks', k))
  {
    var all := clks[..cut] + clks';
    ResumedReached(states, cmds, clks, results, cut, now, states', clks', results', k);
    if k < |cmds| {
      assert KvStep(states', cmds[cut..], clks', results', k - cut);
      assert all[k] == clks'[k - cut];
    }
    ServerExact(cmds, all, CutAt(|cmds|, cut, now), k, states'[k - cut],
                if k < |cmds| then states'[k - cut + 1] else EMPTY,
                if k < |cmds| then results'[k - cut] else Result("", NoErr));
  }

  // Cut the log anywhere, snapshot there, restore and carry on at other
  // readings: same map and same results, if by those readings the same
  // commands are executed.
  lemma CompactionInvisible(
    states: seq<Kv>, cmds: seq<Command>, clks: seq<Clock>, results: seq<Result>, cut: nat, now: int,
    states': seq<Kv>, clks': seq<Clock>, results': seq<Result>, k: nat)
    requires Resumes(states, cmds, clks, results, cut, now, states', clks', results') && cut <= k <= |cmds|
    requires KnownOps(cmds) && Ticks(cmds, clks) && TicksThrough(cmds, clks[..cut] + clks', CutAt(|cmds|, cut, now))
    requires SamePattern(cmds, clks, clks[..cut] + clks', |cmds|)
    ensures states'[k - cut].store == states[k].store
    ensures k < |cmds| ==> results'[k - cut] == results[k]
  {
    var all := clks[..cut] + clks';
    RestoredExact(states, cmds, clks, results, cut, now, states', clks', results', k);
    RepeatAnsweredExactly(states, cmds, clks, results, k);
    PatternStore(cmds, clks, all, k);
    if k < |cmds| { PatternResult(cmds, clks, all, k); }
  }

  // The two servers choose alike on every command of the tail if and only if
  // the readings do.
  lemma RestoredAgreesExactly(
    states: seq<Kv>, cmds: seq<Command>, clks: seq<Clock>, results: seq<Result>, cut: nat, now: int,
    states': seq<Kv>, clks': seq<Clock>, results': seq<Result>)
    requires Resumes(states, cmds, clks, results, cut, now, states', clks', results')
    requires KnownOps(cmds) && Ticks(cmds, clks) && TicksThrough(cmds, clks[..cut] + clks', CutAt(|cmds|, cut, now))
    ensures (forall k :: cut <= k < |cmds| ==> Agree(states, cmds, clks, cut, states', clks', k))
            <==> (forall k :: cut <= k < |cmds| ==> AlikeAt(cmds, clks, clks[..cut] + clks', k))
  {
    var all := clks[..cut] + clks';
    forall k | cut <= k < |cmds|
      ensures Agree(states, cmds, clks, cut, states', clks', k) <==> AlikeAt(cmds, clks, all, k)
    {
      RestoredExact(states, cmds, clks, results, cut, now, states', clks', results', k);
      RepeatAnsweredExactly(states, cmds, clks, results, k);
    }
  }

  ghost predicate Agree(states: seq<Kv>, cmds: seq<Command>, clks: seq<Clock>, cut: nat, states': seq<Kv>, clks': seq<Clock>, k: nat)
    requires cut <= k < |cmds| == |clks| && |states| == |cmds| + 1 && |clks'| == |cmds| - cut && |states'| == |cmds| - cut + 1
  {
    cmds[k].Encoded? ==>
      (Executes(states[k], cmds[k].op, clks[k]) <==> Executes(states'[k - cut], cmds[k].op, clks'[k - cut]))
  }

  // In particular at the same readings.
  lemma CompactionInvisibleSameClock(
    states: seq<Kv>, cmds: seq<Command>, clks: seq<Clock>, results: seq<Result>, cut: nat, now: int,
    states': seq<Kv>, results': seq<Result>, k: nat)
    requires cut <= k <= |cmds| == |clks| && Resumes(states, cmds, clks, results, cut, now, states', clks[cut..], results')
    requires KnownOps(cmds) && Ticks(cmds, clks) && forall i :: cut <= i < |cmds| && cmds[i].Encoded? ==> now <= clks[i].lookup
    ensures states'[k - cut].store == states[k].store
    ensures k < |cmds| ==> results'[k - cut] == results[k]
  {
    assert clks[..cut] + clks[cut..] == clks;
    CompactionInvisible(states, cmds, clks, results, cut, now, states', clks[cut..], results', k);
  }

  // Without client ids a snapshot anywhere is invisible at any readings at all.
  lemma {:induction false} CompactionInvisibleWithoutIds(
    states: seq<Kv>, cmds: seq<Command>, clks: seq<Clock>, results: seq<Result>, cut: nat, now: int,
    states': seq<Kv>, clks': seq<Clock>, results': seq<Result>, k: nat)
    requires KvRun(states, cmds, clks, results) && NoIds(cmds) && cut <= k <= |cmds|
    requires KvRun(states', cmds[cut..], clks', results') && states'[0] == Restored(states[cut], now)
    ensures states'[k - cut].store == states[k].store
    ensures k < |cmds| ==> results'[k - cut] == results[k]
    decreases k
  {
    if k > cut {
      CompactionInvisibleWithoutIds(states, cmds, clks, results, cut, now, states', clks', results', k - 1);
      RunStepNoIds(states, cmds, clks, results, k - 1);
      RunStepNoIds(states', cmds[cut..], clks', results', k - 1 - cut);
    }
    if k < |cmds| {
      RunStepNoIds(states, cmds, clks, results, k);
      RunStepNoIds(states', cmds[cut..], clks', results', k - cut);
    }
  }

  lemma RunStepNoIds(states: seq<Kv>, cmds: seq<Command>, clks: seq<Clock>, results: seq<Result>, k: nat)
    requires KvRun(states, cmds, clks, results) && k < |cmds| && !Looked(cmds[k])
    ensures states[k + 1].store == if cmds[k].Encoded? then Execute(states[k].store, cmds[k].op).0 else states[k].store
    ensures results[k] == ResultOf(states[k].store, cmds[k])
  {
    assert KvStep(states, cmds, clks, results, k);
    NoIdsStep(states[k], cmds[k], clks[k], states[k + 1], results[k]);
  }
}
