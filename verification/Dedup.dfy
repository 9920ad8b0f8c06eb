// The server executes exactly the commands DedupSpec says, through any number
// of snapshots and restarts (kv/apply.go, kv/snapshot.go).
module Dedup {
  import opened KvTypes
  import opened KvSpec
  import opened KvRuns
  import opened StoreSpec
  import opened DedupSpec

  // The clock moves forward, strictly from save to save.
  ghost predicate Ticks(cmds: seq<Command>, clks: seq<Clock>)
    requires |cmds| == |clks|
  {
    && (forall k :: 0 <= k < |cmds| && cmds[k].Encoded? ==> clks[k].lookup <= clks[k].save <= clks[k].clean)
    && (forall j, k :: 0 <= j < k < |cmds| && cmds[j].Encoded? && cmds[k].Encoded? ==>
          clks[j].save < clks[k].save && clks[j].clean <= clks[k].lookup)
  }

  // Snapshots are saved no later than what is looked up after they are loaded.
  ghost predicate TicksThrough(cmds: seq<Command>, clks: seq<Clock>, cuts: seq<seq<int>>)
    requires |cmds| == |clks| && |cuts| == |cmds| + 1
  {
    && Ticks(cmds, clks)
    && (forall i, k, now :: 0 <= i <= k < |cmds| && cmds[k].Encoded? && now in cuts[i] ==> now <= clks[k].lookup)
  }

  // A reading no earlier than any so far.
  ghost predicate Late(cmds: seq<Command>, clks: seq<Clock>, cuts: seq<seq<int>>, k: nat, t: int)
    requires k <= |cmds| == |clks| && |cuts| == |cmds| + 1
  {
    && (forall i :: 0 <= i < k && cmds[i].Encoded? ==> clks[i].clean <= t)
    && (forall i, now :: 0 <= i <= k && now in cuts[i] ==> now <= t)
  }

  // ---- The simulation ----

  // Among the first k commands j is the last execution with its ids.
  ghost predicate Latest(cmds: seq<Command>, clks: seq<Clock>, j: nat, k: nat)
    requires k <= |cmds| == |clks|
  {
    j < k && Runs(cmds, clks, j) && forall x :: j < x < k && SameIds(cmds[x], cmds[j]) ==> !Runs(cmds, clks, x)
  }

  ghost function EntryOf(cmds: seq<Command>, clks: seq<Clock>, j: nat): DuplicateEntry
    requires j < |cmds| == |clks|
  {
    DuplicateEntry(ResultOf(StoreBy(cmds, clks, j), cmds[j]), clks[j].save)
  }

  // The cache of a client holds j's entry.
  ghost predicate Has(cmds: seq<Command>, clks: seq<Clock>, j: nat, m: ClientCache)
    requires j < |cmds| == |clks| && cmds[j].Encoded?
  {
    cmds[j].op.seqId in m && m[cmds[j].op.seqId] == EntryOf(cmds, clks, j)
  }

  // j has neither expired at reading t nor been pushed out.
  ghost predicate Recent(cmds: seq<Command>, clks: seq<Clock>, j: nat, k: nat, t: int)
    requires j < k <= |cmds| == |clks| && cmds[j].Encoded?
  {
    t - clks[j].save <= EXPIRY && |Newer(cmds, clks, j, k)| < CAP
  }

  // Command j explains the entry under number s of client c.
  ghost predicate Explains(cmds: seq<Command>, clks: seq<Clock>, k: nat, j: nat, c: nat, s: nat, e: DuplicateEntry)
    requires k <= |cmds| == |clks|
  {
    && Latest(cmds, clks, j, k) && cmds[j].op.clientId == c && cmds[j].op.seqId == s
    && e == EntryOf(cmds, clks, j) && |Newer(cmds, clks, j, k)| < CAP
  }

  ghost predicate Explained(cmds: seq<Command>, clks: seq<Clock>, k: nat, c: nat, s: nat, e: DuplicateEntry)
    requires k <= |cmds| == |clks|
  {
    exists j: nat :: Explains(cmds, clks, k, j, c, s, e)
  }

  // Every entry is explained,
  ghost predicate Sound(cmds: seq<Command>, clks: seq<Clock>, k: nat, c: nat, m: ClientCache)
    requires k <= |cmds| == |clks|
  {
    forall s :: s in m ==> Explained(cmds, clks, k, c, s, m[s])
  }

  // and every execution that is recent at reading t is there.
  ghost predicate Complete(cmds: seq<Command>, clks: seq<Clock>, k: nat, c: nat, m: ClientCache, t: int)
    requires k <= |cmds| == |clks|
  {
    forall j: nat :: CompleteAt(cmds, clks, k, c, m, t, j)
  }

  ghost predicate CompleteAt(cmds: seq<Command>, clks: seq<Clock>, k: nat, c: nat, m: ClientCache, t: int, j: nat)
    requires k <= |cmds| == |clks|
  {
    Latest(cmds, clks, j, k) && cmds[j].op.clientId == c && Recent(cmds, clks, j, k, t) ==> Has(cmds, clks, j, m)
  }

  // Client 0 is never looked up.
  ghost predicate ClientOk(cmds: seq<Command>, clks: seq<Clock>, cuts: seq<seq<int>>, k: nat, cache: Cache, c: nat)
    requires k <= |cmds| == |clks| && |cuts| == |cmds| + 1
  {
    && Sound(cmds, clks, k, c, Of(cache, c))
    && (forall t :: Late(cmds, clks, cuts, k, t) ==> Complete(cmds, clks, k, c, Of(cache, c), t))
  }

  ghost predicate Simulates(cmds: seq<Command>, clks: seq<Clock>, cuts: seq<seq<int>>, k: nat, kv: Kv)
    requires k <= |cmds| == |clks| && |cuts| == |cmds| + 1
  {
    && kv.store == StoreBy(cmds, clks, k)
    && (forall c :: c != 0 ==> ClientOk(cmds, clks, cuts, k, kv.cache, c))
  }

  // ---- Looking up ----

  lemma NewerShrinks(cmds: seq<Command>, clks: seq<Clock>, i: nat, j: nat, k: nat)
    requires i <= j < k <= |cmds| == |clks| && cmds[i].Encoded? && cmds[j].Encoded?
    requires cmds[i].op.clientId == cmds[j].op.clientId
    ensures |Newer(cmds, clks, j, k)| <= |Newer(cmds, clks, i, k)|
  {
    SubsetSmaller(Newer(cmds, clks, j, k), Newer(cmds, clks, i, k));
  }

  lemma LateNext(cmds: seq<Command>, clks: seq<Clock>, cuts: seq<seq<int>>, k: nat)
    requires k < |cmds| == |clks| && |cuts| == |cmds| + 1 && TicksThrough(cmds, clks, cuts) && cmds[k].Encoded?
    ensures Late(cmds, clks, cuts, k, clks[k].lookup)
  {
  }

  lemma LateBefore(cmds: seq<Command>, clks: seq<Clock>, cuts: seq<seq<int>>, k: nat, t: int)
    requires k < |cmds| == |clks| && |cuts| == |cmds| + 1 && Late(cmds, clks, cuts, k + 1, t)
    ensures Late(cmds, clks, cuts, k, t) && (cmds[k].Encoded? ==> clks[k].clean <= t)
  {
  }

  lemma CoversLater(cmds: seq<Command>, clks: seq<Clock>, i: nat, j: nat, k: nat)
    requires i <= j < k < |cmds| == |clks| && Ticks(cmds, clks) && SameIds(cmds[i], cmds[j])
    requires Covers(cmds, clks, i, k)
    ensures Covers(cmds, clks, j, k)
  {
    NewerShrinks(cmds, clks, i, j, k);
  }

  // If some execution answers k, the latest with its ids does.
  lemma LatestAnswers(cmds: seq<Command>, clks: seq<Clock>, k: nat) returns (j: nat)
    requires k < |cmds| == |clks| && Ticks(cmds, clks) && cmds[k].Encoded? && !Runs(cmds, clks, k)
    ensures j < k && Latest(cmds, clks, j, k) && Answers(cmds, clks, j, k) && j == SourceOf(cmds, clks, k)
  {
    var i: nat :| i < k && Answers(cmds, clks, i, k);
    j := LastRun(cmds, clks, k, k);
    CoversLater(cmds, clks, i, j, k);
  }

  // The cache answers exactly the commands that are not executed.
  lemma LookupExact(cmds: seq<Command>, clks: seq<Clock>, cuts: seq<seq<int>>, k: nat, kv: Kv)
    requires k < |cmds| == |clks| && |cuts| == |cmds| + 1 && TicksThrough(cmds, clks, cuts) && Looked(cmds[k])
    requires ClientOk(cmds, clks, cuts, k, kv.cache, cmds[k].op.clientId)
    ensures Lookup(kv.cache, cmds[k].op, clks[k].lookup) ==
            if Runs(cmds, clks, k) then None else Some(ResultBy(cmds, clks, k))
  {
    var op, m, t := cmds[k].op, Of(kv.cache, cmds[k].op.clientId), clks[k].lookup;
    if Runs(cmds, clks, k) {
      if op.seqId in m && Fresh(m[op.seqId], t) {
        assert Explained(cmds, clks, k, op.clientId, op.seqId, m[op.seqId]);
        var j: nat :| Explains(cmds, clks, k, j, op.clientId, op.seqId, m[op.seqId]);
        assert Answers(cmds, clks, j, k);
        assert false;
      }
    } else {
      var j := LatestAnswers(cmds, clks, k);
      LateNext(cmds, clks, cuts, k);
      assert CompleteAt(cmds, clks, k, op.clientId, m, t, j);
    }
  }

  // ---- A command that is not executed ----

  lemma SkipNewer(cmds: seq<Command>, clks: seq<Clock>, j: nat, k: nat)
    requires j < k < |cmds| == |clks| && cmds[j].Encoded? && !Runs(cmds, clks, k)
    ensures Newer(cmds, clks, j, k + 1) == Newer(cmds, clks, j, k)
  {
  }

  lemma SkipLatest(cmds: seq<Command>, clks: seq<Clock>, j: nat, k: nat)
    requires k < |cmds| == |clks| && !Runs(cmds, clks, k)
    ensures Latest(cmds, clks, j, k + 1) <==> Latest(cmds, clks, j, k)
  {
  }

  lemma SkipExplained(cmds: seq<Command>, clks: seq<Clock>, k: nat, c: nat, s: nat, e: DuplicateEntry)
    requires k < |cmds| == |clks| && !Runs(cmds, clks, k) && Explained(cmds, clks, k, c, s, e)
    ensures Explained(cmds, clks, k + 1, c, s, e)
  {
    var j: nat :| Explains(cmds, clks, k, j, c, s, e);
    SkipLatest(cmds, clks, j, k);
    SkipNewer(cmds, clks, j, k);
    assert Explains(cmds, clks, k + 1, j, c, s, e);
  }

  lemma SkipComplete(cmds: seq<Command>, clks: seq<Clock>, k: nat, c: nat, m: ClientCache, t: int, j: nat)
    requires k < |cmds| == |clks| && !Runs(cmds, clks, k) && CompleteAt(cmds, clks, k, c, m, t, j)
    ensures CompleteAt(cmds, clks, k + 1, c, m, t, j)
  {
    SkipLatest(cmds, clks, j, k);
    if Latest(cmds, clks, j, k) { SkipNewer(cmds, clks, j, k); }
  }

  lemma SkipClient(cmds: seq<Command>, clks: seq<Clock>, cuts: seq<seq<int>>, k: nat, k': nat, cache: Cache, c: nat)
    requires k < |cmds| == |clks| && k' == k + 1 && |cuts| == |cmds| + 1
    requires !Runs(cmds, clks, k) && ClientOk(cmds, clks, cuts, k, cache, c)
    ensures ClientOk(cmds, clks, cuts, k', cache, c)
  {
    var m := Of(cache, c);
    forall s | s in m
      ensures Explained(cmds, clks, k', c, s, m[s])
    {
      SkipExplained(cmds, clks, k, c, s, m[s]);
    }
    forall t, j: nat | Late(cmds, clks, cuts, k', t)
      ensures CompleteAt(cmds, clks, k', c, m, t, j)
    {
      LateBefore(cmds, clks, cuts, k, t);
      assert CompleteAt(cmds, clks, k, c, m, t, j);
      SkipComplete(cmds, clks, k, c, m, t, j);
    }
  }

  // ---- A command executed for another client ----

  lemma OtherNewer(cmds: seq<Command>, clks: seq<Clock>, j: nat, k: nat)
    requires j < k < |cmds| == |clks| && cmds[j].Encoded? && cmds[k].Encoded? && cmds[j].op.clientId != cmds[k].op.clientId
    ensures Newer(cmds, clks, j, k + 1) == Newer(cmds, clks, j, k)
    ensures Latest(cmds, clks, j, k + 1) <==> Latest(cmds, clks, j, k)
  {
  }

  lemma OtherExplained(cmds: seq<Command>, clks: seq<Clock>, k: nat, c: nat, s: nat, e: DuplicateEntry)
    requires k < |cmds| == |clks| && cmds[k].Encoded? && cmds[k].op.clientId != c && Explained(cmds, clks, k, c, s, e)
    ensures Explained(cmds, clks, k + 1, c, s, e)
  {
    var j: nat :| Explains(cmds, clks, k, j, c, s, e);
    OtherNewer(cmds, clks, j, k);
    assert Explains(cmds, clks, k + 1, j, c, s, e);
  }

  lemma OtherComplete(cmds: seq<Command>, clks: seq<Clock>, k: nat, c: nat, m: ClientCache, t: int, j: nat)
    requires k < |cmds| == |clks| && cmds[k].Encoded? && cmds[k].op.clientId != c && CompleteAt(cmds, clks, k, c, m, t, j)
    ensures CompleteAt(cmds, clks, k + 1, c, m, t, j)
  {
    if Latest(cmds, clks, j, k + 1) && cmds[j].op.clientId == c {
      OtherNewer(cmds, clks, j, k);
    }
  }

  lemma OtherClient(cmds: seq<Command>, clks: seq<Clock>, cuts: seq<seq<int>>, k: nat, k': nat, cache: Cache, c: nat)
    requires k < |cmds| == |clks| && k' == k + 1 && |cuts| == |cmds| + 1 && cmds[k].Encoded? && cmds[k].op.clientId != c
    requires ClientOk(cmds, clks, cuts, k, cache, c)
    ensures ClientOk(cmds, clks, cuts, k', cache, c)
  {
    var m := Of(cache, c);
    forall s | s in m
      ensures Explained(cmds, clks, k', c, s, m[s])
    {
      OtherExplained(cmds, clks, k, c, s, m[s]);
    }
    forall t, j: nat | Late(cmds, clks, cuts, k', t)
      ensures CompleteAt(cmds, clks, k', c, m, t, j)
    {
      LateBefore(cmds, clks, cuts, k, t);
      assert CompleteAt(cmds, clks, k, c, m, t, j);
      OtherComplete(cmds, clks, k, c, m, t, j);
    }
  }

  // ---- A command executed for this client ----

  lemma MineNewer(cmds: seq<Command>, clks: seq<Clock>, j: nat, k: nat)
    requires j < k < |cmds| == |clks| && cmds[j].Encoded? && Runs(cmds, clks, k) && cmds[j].op.clientId == cmds[k].op.clientId
    ensures Newer(cmds, clks, j, k + 1) == Newer(cmds, clks, j, k) + {cmds[k].op.seqId}
    ensures |Newer(cmds, clks, j, k)| <= |Newer(cmds, clks, j, k + 1)| <= |Newer(cmds, clks, j, k)| + 1
  {
    assert Newer(cmds, clks, j, k + 1) == Newer(cmds, clks, j, k) + {cmds[k].op.seqId};
    SubsetSmaller(Newer(cmds, clks, j, k), Newer(cmds, clks, j, k + 1));
  }

  lemma MineLatest(cmds: seq<Command>, clks: seq<Clock>, j: nat, k: nat)
    requires k < |cmds| == |clks| && Runs(cmds, clks, k) && j < k && cmds[j].Encoded?
    requires cmds[j].op.clientId == cmds[k].op.clientId
    ensures Latest(cmds, clks, j, k + 1) <==> Latest(cmds, clks, j, k) && cmds[j].op.seqId != cmds[k].op.seqId
  {
  }

  // With the new entry saved, every recent execution is still there.
  lemma MineSaved(cmds: seq<Command>, clks: seq<Clock>, k: nat, m: ClientCache, m': ClientCache, j: nat, t: int, t': int)
    requires k < |cmds| == |clks| && Runs(cmds, clks, k) && t <= t'
    requires Complete(cmds, clks, k, cmds[k].op.clientId, m, t)
    requires m' == m[cmds[k].op.seqId := EntryOf(cmds, clks, k)]
    requires Latest(cmds, clks, j, k + 1) && cmds[j].op.clientId == cmds[k].op.clientId && Recent(cmds, clks, j, k + 1, t')
    ensures Has(cmds, clks, j, m')
  {
    if j < k {
      MineNewer(cmds, clks, j, k);
      MineLatest(cmds, clks, j, k);
      assert CompleteAt(cmds, clks, k, cmds[k].op.clientId, m, t, j);
    }
  }

  // The entry under s of client c before the clean-up, without a bound on what is newer.
  ghost predicate Told(cmds: seq<Command>, clks: seq<Clock>, k: nat, j: nat, c: nat, s: nat, e: DuplicateEntry)
    requires k <= |cmds| == |clks|
  {
    Latest(cmds, clks, j, k) && cmds[j].op.clientId == c && cmds[j].op.seqId == s && e == EntryOf(cmds, clks, j)
  }

  ghost predicate AllTold(cmds: seq<Command>, clks: seq<Clock>, k: nat, c: nat, m: ClientCache)
    requires k <= |cmds| == |clks|
  {
    forall s :: s in m ==> exists j: nat :: Told(cmds, clks, k, j, c, s, m[s])
  }

  lemma MineTold(cmds: seq<Command>, clks: seq<Clock>, k: nat, m: ClientCache, m': ClientCache, s: nat) returns (j: nat)
    requires k < |cmds| == |clks| && Runs(cmds, clks, k) && Sound(cmds, clks, k, cmds[k].op.clientId, m)
    requires m' == m[cmds[k].op.seqId := EntryOf(cmds, clks, k)] && s in m'
    ensures Told(cmds, clks, k + 1, j, cmds[k].op.clientId, s, m'[s])
    ensures j < k ==> |Newer(cmds, clks, j, k + 1)| <= CAP
  {
    if s == cmds[k].op.seqId {
      j := k;
    } else {
      assert Explained(cmds, clks, k, cmds[k].op.clientId, s, m[s]);
      j :| Explains(cmds, clks, k, j, cmds[k].op.clientId, s, m[s]);
      MineLatest(cmds, clks, j, k);
      MineNewer(cmds, clks, j, k);
    }
  }

  lemma MineAllTold(cmds: seq<Command>, clks: seq<Clock>, k: nat, k': nat, m: ClientCache, m': ClientCache)
    requires k < |cmds| == |clks| && k' == k + 1 && Runs(cmds, clks, k) && Sound(cmds, clks, k, cmds[k].op.clientId, m)
    requires m' == m[cmds[k].op.seqId := EntryOf(cmds, clks, k)]
    ensures AllTold(cmds, clks, k', cmds[k].op.clientId, m')
  {
    var c := cmds[k].op.clientId;
    forall s | s in m'
      ensures exists j: nat :: Told(cmds, clks, k', j, c, s, m'[s])
    {
      var j := MineTold(cmds, clks, k, m, m', s);
      assert Told(cmds, clks, k', j, c, s, m'[s]);
    }
  }

  // An entry at least as new as j's, under another number, is newer.
  lemma LaterIsNewer(cmds: seq<Command>, clks: seq<Clock>, k: nat, c: nat, j: nat, y: nat, s: nat, e: DuplicateEntry)
    requires k <= |cmds| == |clks| && Ticks(cmds, clks) && Told(cmds, clks, k, y, c, s, e)
    requires Latest(cmds, clks, j, k) && cmds[j].op.clientId == c && s != cmds[j].op.seqId && clks[j].save <= e.stamp
    ensures s in Newer(cmds, clks, j, k)
  {
    assert !(y < j) && y != j;
  }

  // What the clean-up drops although it is fresh has CAP newer numbers.
  lemma EvictedByNewer(cmds: seq<Command>, clks: seq<Clock>, k: nat, c: nat, live: ClientCache, kept: ClientCache, j: nat)
    requires k <= |cmds| == |clks| && Ticks(cmds, clks) && AllTold(cmds, clks, k, c, live)
    requires KeepsNewest(live, kept) && Latest(cmds, clks, j, k) && cmds[j].op.clientId == c
    requires Has(cmds, clks, j, live) && cmds[j].op.seqId !in kept
    ensures |kept| <= |Newer(cmds, clks, j, k)|
  {
    forall s | s in kept.Keys
      ensures s in Newer(cmds, clks, j, k)
    {
      var y: nat :| Told(cmds, clks, k, y, c, s, live[s]);
      LaterIsNewer(cmds, clks, k, c, j, y, s, live[s]);
    }
    SubsetSmaller(kept.Keys, Newer(cmds, clks, j, k));
    assert |kept.Keys| == |kept|;
  }

  lemma SubmapSmaller(m: ClientCache, all: ClientCache)
    requires Submap(m, all) && |m| == |all|
    ensures m.Keys == all.Keys
  {
    var extra := all.Keys - m.Keys;
    assert all.Keys == m.Keys + extra && |all.Keys| == |m.Keys| + |extra|;
  }

  lemma NotEvicted(cmds: seq<Command>, clks: seq<Clock>, k: nat, c: nat, m: ClientCache, kept: ClientCache, now: int, j: nat)
    requires k <= |cmds| == |clks| && Ticks(cmds, clks) && AllTold(cmds, clks, k, c, m)
    requires Cleaned(m, kept, now) && Latest(cmds, clks, j, k) && cmds[j].op.clientId == c
    requires Has(cmds, clks, j, m) && Recent(cmds, clks, j, k, now)
    ensures Has(cmds, clks, j, kept)
  {
    var live := Live(m, now);
    assert AllTold(cmds, clks, k, c, live) by {
      assert forall s :: s in live ==> s in m && live[s] == m[s];
    }
    if cmds[j].op.seqId !in kept {
      EvictedByNewer(cmds, clks, k, c, live, kept, j);
      SubmapSmaller(kept, live);
      assert false;
    }
  }

  // So the cleaned cache has every recent execution,
  lemma MineComplete(cmds: seq<Command>, clks: seq<Clock>, k: nat, k': nat, m: ClientCache, m': ClientCache, kept: ClientCache, t: int)
    requires k < |cmds| == |clks| && k' == k + 1 && Ticks(cmds, clks) && Runs(cmds, clks, k)
    requires Sound(cmds, clks, k, cmds[k].op.clientId, m) && Complete(cmds, clks, k, cmds[k].op.clientId, m, clks[k].lookup)
    requires m' == m[cmds[k].op.seqId := EntryOf(cmds, clks, k)] && Cleaned(m', kept, clks[k].clean)
    requires clks[k].clean <= t
    ensures Complete(cmds, clks, k', cmds[k].op.clientId, kept, t)
  {
    var c := cmds[k].op.clientId;
    MineAllTold(cmds, clks, k, k', m, m');
    forall j: nat
      ensures CompleteAt(cmds, clks, k', c, kept, t, j)
    {
      if Latest(cmds, clks, j, k') && cmds[j].op.clientId == c && Recent(cmds, clks, j, k', t) {
        MineSaved(cmds, clks, k, m, m', j, clks[k].lookup, t);
        NotEvicted(cmds, clks, k', c, m', kept, clks[k].clean, j);
      }
    }
  }

  // and nothing with CAP newer numbers: those alone would fill it.
  lemma MineFew(cmds: seq<Command>, clks: seq<Clock>, k: nat, c: nat, kept: ClientCache, now: int, j: nat)
    requires k <= |cmds| == |clks| && Ticks(cmds, clks) && |kept| <= CAP && Complete(cmds, clks, k, c, kept, now)
    requires Latest(cmds, clks, j, k) && cmds[j].op.clientId == c && Has(cmds, clks, j, kept)
    requires now - clks[j].save <= EXPIRY && |Newer(cmds, clks, j, k)| <= CAP
    ensures |Newer(cmds, clks, j, k)| < CAP
  {
    var newer, s := Newer(cmds, clks, j, k), cmds[j].op.seqId;
    forall n | n in newer
      ensures n in kept.Keys && n != s
    {
      NewerKept(cmds, clks, k, c, kept, now, j, n);
    }
    SubsetSmaller(newer + {s}, kept.Keys);
    assert |newer + {s}| == |newer| + 1 && |kept.Keys| == |kept|;
  }

  lemma NewerKept(cmds: seq<Command>, clks: seq<Clock>, k: nat, c: nat, kept: ClientCache, now: int, j: nat, n: nat)
    requires k <= |cmds| == |clks| && Ticks(cmds, clks) && Complete(cmds, clks, k, c, kept, now)
    requires Latest(cmds, clks, j, k) && cmds[j].op.clientId == c
    requires now - clks[j].save <= EXPIRY && |Newer(cmds, clks, j, k)| <= CAP && n in Newer(cmds, clks, j, k)
    ensures n in kept && n != cmds[j].op.seqId
  {
    var x: nat :| j < x < k && Runs(cmds, clks, x) && cmds[x].op.clientId == c && cmds[x].op.seqId == n;
    assert n != cmds[j].op.seqId by {
      assert SameIds(cmds[x], cmds[j]) <==> n == cmds[j].op.seqId;
    }
    var y := LatestFrom(cmds, clks, x, k);
    var mine := Newer(cmds, clks, y, k);
    LatestNotNewer(cmds, clks, y, k);
    SubsetSmaller(mine, Newer(cmds, clks, j, k) - {n});
    assert |Newer(cmds, clks, j, k) - {n}| == |Newer(cmds, clks, j, k)| - 1;
    assert CompleteAt(cmds, clks, k, c, kept, now, y);
  }

  lemma LatestNotNewer(cmds: seq<Command>, clks: seq<Clock>, y: nat, k: nat)
    requires k <= |cmds| == |clks| && Latest(cmds, clks, y, k)
    ensures cmds[y].op.seqId !in Newer(cmds, clks, y, k)
  {
    if cmds[y].op.seqId in Newer(cmds, clks, y, k) {
      var z: nat :| y < z < k && Runs(cmds, clks, z) && cmds[z].op.clientId == cmds[y].op.clientId
                    && cmds[z].op.seqId == cmds[y].op.seqId;
      assert SameIds(cmds[z], cmds[y]);
      assert false;
    }
  }

  lemma {:induction false} LatestFrom(cmds: seq<Command>, clks: seq<Clock>, x: nat, k: nat) returns (y: nat)
    requires x < k <= |cmds| == |clks| && Runs(cmds, clks, x)
    ensures x <= y && Latest(cmds, clks, y, k) && SameIds(cmds[y], cmds[x])
    decreases k - x
  {
    if exists z: nat :: x < z < k && SameIds(cmds[z], cmds[x]) && Runs(cmds, clks, z) {
      var z: nat :| x < z < k && SameIds(cmds[z], cmds[x]) && Runs(cmds, clks, z);
      y := LatestFrom(cmds, clks, z, k);
    } else {
      y := x;
    }
  }

  lemma NothingNewer(cmds: seq<Command>, clks: seq<Clock>, k: nat)
    requires k < |cmds| == |clks| && cmds[k].Encoded?
    ensures |Newer(cmds, clks, k, k + 1)| == 0
  {
    assert Newer(cmds, clks, k, k + 1) == {};
  }

  lemma MineExplained(cmds: seq<Command>, clks: seq<Clock>, k: nat, c: nat, kept: ClientCache, now: int, s: nat, j: nat)
    requires k <= |cmds| == |clks| && Ticks(cmds, clks) && |kept| <= CAP && Complete(cmds, clks, k, c, kept, now)
    requires s in kept && Told(cmds, clks, k, j, c, s, kept[s]) && Fresh(kept[s], now)
    requires j == k - 1 || |Newer(cmds, clks, j, k)| <= CAP
    ensures Explained(cmds, clks, k, c, s, kept[s])
  {
    if j == k - 1 {
      NothingNewer(cmds, clks, j);
    } else {
      MineFew(cmds, clks, k, c, kept, now, j);
    }
    assert Explains(cmds, clks, k, j, c, s, kept[s]);
  }

  lemma CleanedShape(m: ClientCache, kept: ClientCache, now: int, s: nat)
    requires Cleaned(m, kept, now)
    ensures |kept| <= CAP && (s in kept ==> s in m && kept[s] == m[s] && Fresh(m[s], now))
  {
    assert s in kept ==> s in Live(m, now);
  }

  lemma MineSound(cmds: seq<Command>, clks: seq<Clock>, k: nat, k': nat, m: ClientCache, m': ClientCache, kept: ClientCache)
    requires k < |cmds| == |clks| && k' == k + 1 && Ticks(cmds, clks) && Runs(cmds, clks, k)
    requires Sound(cmds, clks, k, cmds[k].op.clientId, m)
    requires m' == m[cmds[k].op.seqId := EntryOf(cmds, clks, k)] && Cleaned(m', kept, clks[k].clean)
    requires Complete(cmds, clks, k', cmds[k].op.clientId, kept, clks[k].clean)
    ensures Sound(cmds, clks, k', cmds[k].op.clientId, kept)
  {
    forall s | s in kept
      ensures Explained(cmds, clks, k', cmds[k].op.clientId, s, kept[s])
    {
      CleanedShape(m', kept, clks[k].clean, s);
      var j := MineTold(cmds, clks, k, m, m', s);
      MineExplained(cmds, clks, k', cmds[k].op.clientId, kept, clks[k].clean, s, j);
    }
  }

  // ---- One command ----

  lemma MineClient(cmds: seq<Command>, clks: seq<Clock>, cuts: seq<seq<int>>, k: nat, k': nat, cache: Cache, cache': Cache)
    requires k < |cmds| == |clks| && k' == k + 1 && |cuts| == |cmds| + 1 && TicksThrough(cmds, clks, cuts) && Runs(cmds, clks, k)
    requires ClientOk(cmds, clks, cuts, k, cache, cmds[k].op.clientId)
    requires Cleaned(Of(cache, cmds[k].op.clientId)[cmds[k].op.seqId := EntryOf(cmds, clks, k)],
                     Of(cache', cmds[k].op.clientId), clks[k].clean)
    ensures ClientOk(cmds, clks, cuts, k', cache', cmds[k].op.clientId)
  {
    var c := cmds[k].op.clientId;
    var m, kept := Of(cache, c), Of(cache', c);
    var m' := m[cmds[k].op.seqId := EntryOf(cmds, clks, k)];
    LateNext(cmds, clks, cuts, k);
    MineComplete(cmds, clks, k, k', m, m', kept, clks[k].clean);
    MineSound(cmds, clks, k, k', m, m', kept);
    forall t | Late(cmds, clks, cuts, k', t)
      ensures Complete(cmds, clks, k', c, kept, t)
    {
      LateBefore(cmds, clks, cuts, k, t);
      MineComplete(cmds, clks, k, k', m, m', kept, t);
    }
  }

  // A cache left alone for client c.
  lemma AloneClient(cmds: seq<Command>, clks: seq<Clock>, cuts: seq<seq<int>>, k: nat, cache: Cache, cache': Cache, c: nat)
    requires k < |cmds| == |clks| && |cuts| == |cmds| + 1 && ClientOk(cmds, clks, cuts, k, cache, c)
    requires Of(cache', c) == Of(cache, c) && (!Runs(cmds, clks, k) || cmds[k].op.clientId != c)
    ensures ClientOk(cmds, clks, cuts, k + 1, cache', c)
  {
    if !Runs(cmds, clks, k) {
      SkipClient(cmds, clks, cuts, k, k + 1, cache, c);
    } else {
      OtherClient(cmds, clks, cuts, k, k + 1, cache, c);
    }
  }

  // Executed, or answered from the cache, as DedupSpec says.
  lemma DecidesExactly(cmds: seq<Command>, clks: seq<Clock>, cuts: seq<seq<int>>, k: nat, kv: Kv, kv': Kv, r: Result)
    requires k < |cmds| == |clks| && |cuts| == |cmds| + 1 && TicksThrough(cmds, clks, cuts)
    requires Simulates(cmds, clks, cuts, k, kv) && Handled(kv, cmds[k], clks[k], kv', r)
    ensures cmds[k].Encoded? ==> (Executes(kv, cmds[k].op, clks[k]) <==> Runs(cmds, clks, k))
    ensures r == ResultBy(cmds, clks, k)
  {
    if Looked(cmds[k]) {
      LookupExact(cmds, clks, cuts, k, kv);
    }
  }

  lemma StepClients(cmds: seq<Command>, clks: seq<Clock>, cuts: seq<seq<int>>, k: nat, kv: Kv, kv': Kv, r: Result, c: nat)
    requires k < |cmds| == |clks| && |cuts| == |cmds| + 1 && TicksThrough(cmds, clks, cuts)
    requires Simulates(cmds, clks, cuts, k, kv) && Handled(kv, cmds[k], clks[k], kv', r) && c != 0
    ensures ClientOk(cmds, clks, cuts, k + 1, kv'.cache, c)
  {
    DecidesExactly(cmds, clks, cuts, k, kv, kv', r);
    assert ClientOk(cmds, clks, cuts, k, kv.cache, c);
    if Runs(cmds, clks, k) && cmds[k].op.clientId == c {
      MineClient(cmds, clks, cuts, k, k + 1, kv.cache, kv'.cache);
    } else {
      AloneClient(cmds, clks, cuts, k, kv.cache, kv'.cache, c);
    }
  }

  // ---- Snapshots ----

  ghost predicate KnownErr(e: Err) {
    e == NoErr || e == KeyNotFound
  }

  // A cached result survives a snapshot exactly when its error is one of the
  // two the snapshot can name.
  lemma EntryRoundTrip(e: DuplicateEntry)
    ensures FromSnapshotEntry(ToSnapshotEntry(e)) == e <==> KnownErr(e.result.err)
  {
  }

  ghost predicate KnownErrs(m: ClientCache) {
    forall s :: s in m ==> KnownErr(m[s].result.err)
  }

  // What a snapshot keeps of a client: its unexpired entries, except (0, 0).
  lemma RestoredKeys(kv: Kv, now: int, c: nat)
    ensures var m, back := Live(Of(kv.cache, c), now), Of(Restored(kv, now).cache, c);
            && back.Keys == (if c == 0 then m.Keys - {0} else m.Keys)
            && (forall s :: s in back ==> s in m && back[s] == FromSnapshotEntry(ToSnapshotEntry(m[s])))
  {
    var all, m, image, back := Of(kv.cache, c), Live(Of(kv.cache, c), now), Serialize(kv, now), Restored(kv, now);
    if c in kv.cache {
      var saved := SaveClient(c, all, now);
      assert saved.Keys == if c == 0 then m.Keys - {0} else m.Keys;
      if saved == map[] {
        assert c !in back.cache;
        assert saved.Keys == {};
      } else {
        assert c in image.dedup && back.cache[c] == LoadClient(saved);
        assert LoadClient(saved).Keys == saved.Keys;
      }
    }
  }

  // The restored cache is the unexpired part of the saved one if and only if
  // nothing unexpired is under (0, 0) or carries an error it cannot name.
  lemma RestoredClient(kv: Kv, now: int, c: nat)
    ensures var m := Live(Of(kv.cache, c), now);
            Of(Restored(kv, now).cache, c) == m <==> !(c == 0 && 0 in m) && KnownErrs(m)
  {
    var m, back := Live(Of(kv.cache, c), now), Of(Restored(kv, now).cache, c);
    RestoredKeys(kv, now, c);
    if back == m {
      forall s | s in m
        ensures KnownErr(m[s].result.err)
      {
        EntryRoundTrip(m[s]);
      }
    } else if !(c == 0 && 0 in m) && KnownErrs(m) {
      assert back.Keys == m.Keys;
      forall s | s in m
        ensures back[s] == m[s]
      {
        EntryRoundTrip(m[s]);
      }
      assert false;
    }
  }

  // Unknown operation types apart.
  ghost predicate KnownOps(cmds: seq<Command>) {
    forall k :: 0 <= k < |cmds| && cmds[k].Encoded? ==> !cmds[k].op.kind.OpOther?
  }

  lemma RestoreSimulates(cmds: seq<Command>, clks: seq<Clock>, cuts: seq<seq<int>>, k: nat, kv: Kv, now: int, c: nat)
    requires k <= |cmds| == |clks| && |cuts| == |cmds| + 1 && KnownOps(cmds) && c != 0
    requires ClientAt(cmds, clks, cuts, k, kv.cache, c, now)
    ensures ClientAt(cmds, clks, cuts, k, Restored(kv, now).cache, c, now)
  {
    var m, back := Of(kv.cache, c), Of(Restored(kv, now).cache, c);
    forall s | s in m
      ensures KnownErr(m[s].result.err)
    {
      assert Explained(cmds, clks, k, c, s, m[s]);
      var j: nat :| Explains(cmds, clks, k, j, c, s, m[s]);
    }
    RestoredClient(kv, now, c);
    assert back == Live(m, now);
    forall t | Late(cmds, clks, cuts, k, t) && now <= t
      ensures Complete(cmds, clks, k, c, back, t)
    {
      assert Complete(cmds, clks, k, c, m, t);
      forall j: nat
        ensures CompleteAt(cmds, clks, k, c, back, t, j)
      {
        assert CompleteAt(cmds, clks, k, c, m, t, j);
      }
    }
  }

  // As ClientOk, for readings from `from` on.
  ghost predicate ClientAt(cmds: seq<Command>, clks: seq<Clock>, cuts: seq<seq<int>>, k: nat, cache: Cache, c: nat, from: int)
    requires k <= |cmds| == |clks| && |cuts| == |cmds| + 1
  {
    && Sound(cmds, clks, k, c, Of(cache, c))
    && (forall t :: Late(cmds, clks, cuts, k, t) && from <= t ==> Complete(cmds, clks, k, c, Of(cache, c), t))
  }

  lemma {:induction false} KeptSimulates(cmds: seq<Command>, clks: seq<Clock>, cuts: seq<seq<int>>, k: nat, kv: Kv, nows: seq<int>, c: nat)
    requires k <= |cmds| == |clks| && |cuts| == |cmds| + 1 && (nows != [] ==> KnownOps(cmds)) && c != 0
    requires ClientOk(cmds, clks, cuts, k, kv.cache, c) && nows <= cuts[k]
    ensures ClientOk(cmds, clks, cuts, k, Kept(kv, nows).cache, c)
    decreases |nows|
  {
    if nows != [] {
      var front, now := nows[..|nows| - 1], nows[|nows| - 1];
      KeptSimulates(cmds, clks, cuts, k, kv, front, c);
      RestoreSimulates(cmds, clks, cuts, k, Kept(kv, front), now, c);
      assert now in cuts[k] by { assert cuts[k][|nows| - 1] == now; }
    }
  }

  // ---- Every run ----

  ghost predicate Uncut(cuts: seq<seq<int>>) {
    forall i :: 0 <= i < |cuts| ==> cuts[i] == []
  }

  lemma EmptySimulates(cmds: seq<Command>, clks: seq<Clock>, cuts: seq<seq<int>>, kv: Kv)
    requires |cmds| == |clks| && |cuts| == |cmds| + 1 && TicksThrough(cmds, clks, cuts)
    requires (KnownOps(cmds) || Uncut(cuts)) && kv == Kept(EMPTY, cuts[0])
    ensures Simulates(cmds, clks, cuts, 0, kv)
  {
    KeptStore(EMPTY, cuts[0]);
    forall c | c != 0
      ensures ClientOk(cmds, clks, cuts, 0, kv.cache, c)
    {
      KeptSimulates(cmds, clks, cuts, 0, EMPTY, cuts[0], c);
    }
  }

  lemma {:induction false} ReachedSimulates(cmds: seq<Command>, clks: seq<Clock>, cuts: seq<seq<int>>, k: nat, kv: Kv)
    requires k <= |cmds| == |clks| && |cuts| == |cmds| + 1 && TicksThrough(cmds, clks, cuts)
    requires KnownOps(cmds) || Uncut(cuts)
    requires ReachedAt(cmds, clks, cuts, k, kv)
    ensures Simulates(cmds, clks, cuts, k, kv)
    decreases k, 0
  {
    if k == 0 {
      EmptySimulates(cmds, clks, cuts, kv);
    } else {
      var prev, mid, r :| Continues(cmds, clks, cuts, k, prev, mid, r, kv);
      NextSimulates(cmds, clks, cuts, k - 1, k, prev, mid, r, kv);
    }
  }

  lemma {:induction false} NextSimulates(
    cmds: seq<Command>, clks: seq<Clock>, cuts: seq<seq<int>>, k: nat, k': nat, kv: Kv, mid: Kv, r: Result, kv': Kv)
    requires k < |cmds| == |clks| && |cuts| == |cmds| + 1 && TicksThrough(cmds, clks, cuts) && k' == k + 1
    requires KnownOps(cmds) || Uncut(cuts)
    requires ReachedAt(cmds, clks, cuts, k, kv) && Handled(kv, cmds[k], clks[k], mid, r) && kv' == Kept(mid, cuts[k'])
    ensures Simulates(cmds, clks, cuts, k', kv')
    decreases k, 1
  {
    ReachedSimulates(cmds, clks, cuts, k, kv);
    StepSimulates(cmds, clks, cuts, k, kv, mid, r, kv');
  }

  lemma StepSimulates(cmds: seq<Command>, clks: seq<Clock>, cuts: seq<seq<int>>, k: nat, kv: Kv, mid: Kv, r: Result, kv': Kv)
    requires k < |cmds| == |clks| && |cuts| == |cmds| + 1 && TicksThrough(cmds, clks, cuts)
    requires KnownOps(cmds) || Uncut(cuts)
    requires Simulates(cmds, clks, cuts, k, kv) && Handled(kv, cmds[k], clks[k], mid, r) && kv' == Kept(mid, cuts[k + 1])
    ensures Simulates(cmds, clks, cuts, k + 1, kv')
  {
    DecidesExactly(cmds, clks, cuts, k, kv, mid, r);
    KeptStore(mid, cuts[k + 1]);
    var k' := k + 1;
    forall c | c != 0
      ensures ClientOk(cmds, clks, cuts, k', kv'.cache, c)
    {
      StepClients(cmds, clks, cuts, k, kv, mid, r, c);
      KeptSimulates(cmds, clks, cuts, k', mid, cuts[k'], c);
    }
  }

  // ---- The theorems ----

  // Through any snapshots and restarts: the map, and for the next command
  // whether it is executed and what it answers, are those DedupSpec derives
  // from the clock readings.
  lemma ServerExact(
    cmds: seq<Command>, clks: seq<Clock>, cuts: seq<seq<int>>, k: nat, kv: Kv, kv': Kv, r: Result)
    requires k <= |cmds| == |clks| && |cuts| == |cmds| + 1 && TicksThrough(cmds, clks, cuts)
    requires KnownOps(cmds) || Uncut(cuts)
    requires ReachedAt(cmds, clks, cuts, k, kv) && (k < |cmds| ==> Handled(kv, cmds[k], clks[k], kv', r))
    ensures kv.store == StoreBy(cmds, clks, k) && Written(map[], Executed(cmds, clks, k), kv.store)
    ensures k < |cmds| ==> r == ResultBy(cmds, clks, k)
    ensures k < |cmds| && cmds[k].Encoded? ==> (Executes(kv, cmds[k].op, clks[k]) <==> Runs(cmds, clks, k))
  {
    ReachedSimulates(cmds, clks, cuts, k, kv);
    StoreByWritten(cmds, clks, k);
    if k < |cmds| { DecidesExactly(cmds, clks, cuts, k, kv, kv', r); }
  }

  // A server that is never restarted, whatever its commands.
  lemma RepeatAnsweredExactly(states: seq<Kv>, cmds: seq<Command>, clks: seq<Clock>, results: seq<Result>, k: nat)
    requires KvRun(states, cmds, clks, results) && states[0] == EMPTY && Ticks(cmds, clks) && k <= |cmds|
    ensures states[k].store == StoreBy(cmds, clks, k) && Written(map[], Executed(cmds, clks, k), states[k].store)
    ensures k < |cmds| ==> results[k] == ResultBy(cmds, clks, k)
    ensures k < |cmds| && cmds[k].Encoded? ==> (Executes(states[k], cmds[k].op, clks[k]) <==> Runs(cmds, clks, k))
  {
    var cuts := NoCuts(|cmds| + 1);
    RunReached(states, cmds, clks, results, k);
    if k < |cmds| { assert KvStep(states, cmds, clks, results, k); }
    ServerExact(cmds, clks, cuts, k, states[k], if k < |cmds| then states[k + 1] else EMPTY,
                if k < |cmds| then results[k] else Result("", NoErr));
  }

  // With timely repeats: first occurrences only.
  lemma CacheRefinesSeen(states: seq<Kv>, cmds: seq<Command>, clks: seq<Clock>, results: seq<Result>, k: nat)
    requires KvRun(states, cmds, clks, results) && states[0] == EMPTY && Ticks(cmds, clks) && Timely(cmds, clks) && k <= |cmds|
    ensures states[k].store == StoreAfter(cmds, k) && Written(map[], FirstOnes(cmds, k), states[k].store)
    ensures k < |cmds| ==> results[k] == ResultAt(cmds, k)
  {
    RepeatAnsweredExactly(states, cmds, clks, results, k);
    StoreAfterWritten(cmds, k);
    TimelyStore(cmds, clks, k);
    if k < |cmds| { TimelyResult(cmds, clks, k); }
  }
}
