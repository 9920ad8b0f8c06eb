// One command sent twice under the same ids, at two clocks: within the expiry
// the second is answered from the cache, after it the second is executed.
module KvExamples {
  import opened KvTypes
  import opened KvSpec
  import opened KvRuns
  import opened StoreSpec

  const APPEND: Op := Op(OpAppend, "k", "a", 1, 1)
  const TWICE: seq<Command> := [Encoded(APPEND), Encoded(APPEND)]

  const FIRST: Clock := Clock(0, 0, 0)
  // Ten seconds later, in nanoseconds, and one nanosecond more.
  const SOON: Clock := Clock(10_000_000_000, 10_000_000_000, 10_000_000_000)
  const LATE: Clock := Clock(10_000_000_001, 10_000_000_001, 10_000_000_001)

  const DONE: Result := Result("", NoErr)

  function Holding(value: string, stamp: int): Kv {
    Kv(map["k" := value], map[1 := map[1 := DuplicateEntry(DONE, stamp)]])
  }

  lemma OneEntry(m: ClientCache, e: DuplicateEntry, now: int)
    requires m == map[1 := e] && Fresh(e, now)
    ensures Cleaned(m, m, now)
  {
    assert Live(m, now) == m;
    assert m.Keys == {1} && |m| == |m.Keys|;
  }

  lemma FirstExecutes()
    ensures Handled(EMPTY, TWICE[0], FIRST, Holding("a", 0), DONE)
  {
    var e := DuplicateEntry(DONE, 0);
    OneEntry(map[1 := e], e, 0);
    assert Of(EMPTY.cache, 1)[1 := e] == map[1 := e];
    assert "" + "a" == "a";
    assert Execute(EMPTY.store, APPEND) == (map["k" := "a"], DONE);
  }

  lemma SoonAnswered()
    ensures Handled(Holding("a", 0), TWICE[1], SOON, Holding("a", 0), DONE)
  {
  }

  lemma LateExecutes()
    ensures Handled(Holding("a", 0), TWICE[1], LATE, Holding("aa", EXPIRY + 1), DONE)
  {
    var e := DuplicateEntry(DONE, EXPIRY + 1);
    OneEntry(map[1 := e], e, EXPIRY + 1);
    assert Of(Holding("a", 0).cache, 1)[1 := e] == map[1 := e];
    assert "a" + "a" == "aa" && map["k" := "a"]["k" := "aa"] == map["k" := "aa"];
    assert Execute(map["k" := "a"], APPEND) == (map["k" := "aa"], DONE);
  }

  lemma SoonRun()
    ensures KvRun([EMPTY, Holding("a", 0), Holding("a", 0)], TWICE, [FIRST, SOON], [DONE, DONE])
  {
    FirstExecutes();
    SoonAnswered();
  }

  lemma LateRun()
    ensures KvRun([EMPTY, Holding("a", 0), Holding("aa", EXPIRY + 1)], TWICE, [FIRST, LATE], [DONE, DONE])
  {
    FirstExecutes();
    LateExecutes();
  }

  // A snapshot taken in time does not help: the entry is restored with its stamp.
  lemma RestoredHolding()
    ensures Restored(Holding("a", 0), 0) == Holding("a", 0)
  {
    var kv := Holding("a", 0);
    var m := kv.cache[1];
    assert SaveClient(1, m, 0) == map[1 := SnapshotEntry("", NoText, 0)];
    assert LoadClient(map[1 := SnapshotEntry("", NoText, 0)]) == m;
    assert Serialize(kv, 0).dedup == map[1 := map[1 := SnapshotEntry("", NoText, 0)]];
    assert Restored(kv, 0).cache == kv.cache;
  }

  lemma RestoredLateRun()
    ensures KvRun([Restored(Holding("a", 0), 0), Holding("aa", EXPIRY + 1)], TWICE[1..], [LATE], [DONE])
  {
    RestoredHolding();
    LateExecutes();
  }

  // Executing both is not what the server does when the second comes soon.
  lemma FoldExecutesBoth()
    ensures FoldCommands(map[], TWICE) == map["k" := "aa"]
  {
    assert TWICE[..1] == [TWICE[0]] && TWICE[..1][..0] == [] && "" + "a" == "a" && "a" + "a" == "aa";
    assert FoldCommands(map[], TWICE[..1]) == map["k" := "a"];
  }
}
