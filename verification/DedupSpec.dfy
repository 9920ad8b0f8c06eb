// Which commands a server with a capped, expiring duplicate cache executes, as
// a function of the commands and its clock readings alone; and the ideal it
// stands for, which executes every command once.
module DedupSpec {
  import opened KvTypes
  import opened KvSpec
  import opened KvRuns
  import opened StoreSpec

  predicate SameIds(a: Command, b: Command) {
    a.Encoded? && b.Encoded? && a.op.clientId == b.op.clientId && a.op.seqId == b.op.seqId
  }

  // ---- What the cache does ----

  // Command k is executed, unless an earlier execution answers it.
  ghost predicate Runs(cmds: seq<Command>, clks: seq<Clock>, k: nat)
    requires k < |cmds| == |clks|
    decreases k, 3
  {
    cmds[k].Encoded? && !(Looked(cmds[k]) && exists j :: 0 <= j < k && Answers(cmds, clks, j, k))
  }

  ghost predicate Answers(cmds: seq<Command>, clks: seq<Clock>, j: nat, k: nat)
    requires j < k < |cmds| == |clks|
    decreases k, 2
  {
    SameIds(cmds[j], cmds[k]) && Runs(cmds, clks, j) && Covers(cmds, clks, j, k)
  }

  // The execution of j is at most the expiry old when k is looked up, and
  // fewer than CAP other numbers of its client were executed in between.
  ghost predicate Covers(cmds: seq<Command>, clks: seq<Clock>, j: nat, k: nat)
    requires j < k < |cmds| == |clks| && cmds[j].Encoded?
    decreases k, 1
  {
    clks[k].lookup - clks[j].save <= EXPIRY && |Newer(cmds, clks, j, k)| < CAP
  }

  // The numbers j's client had executed strictly between j and k.
  ghost function Newer(cmds: seq<Command>, clks: seq<Clock>, j: nat, k: nat): set<nat>
    requires j < k <= |cmds| == |clks| && cmds[j].Encoded?
    decreases k, 0
  {
    set x: nat | j < x < k && Runs(cmds, clks, x) && cmds[x].op.clientId == cmds[j].op.clientId :: cmds[x].op.seqId
  }

  ghost function StoreBy(cmds: seq<Command>, clks: seq<Clock>, k: nat): Store
    requires k <= |cmds| == |clks|
  {
    if k == 0 then map[]
    else if Runs(cmds, clks, k - 1) then Execute(StoreBy(cmds, clks, k - 1), cmds[k - 1].op).0
    else StoreBy(cmds, clks, k - 1)
  }

  // The commands executed among the first k, in order.
  ghost function Executed(cmds: seq<Command>, clks: seq<Clock>, k: nat): seq<Command>
    requires k <= |cmds| == |clks|
  {
    if k == 0 then []
    else if Runs(cmds, clks, k - 1) then Executed(cmds, clks, k - 1) + [cmds[k - 1]]
    else Executed(cmds, clks, k - 1)
  }

  lemma {:induction false} StoreByFolds(cmds: seq<Command>, clks: seq<Clock>, k: nat)
    requires k <= |cmds| == |clks|
    ensures StoreBy(cmds, clks, k) == FoldCommands(map[], Executed(cmds, clks, k))
  {
    if k > 0 {
      StoreByFolds(cmds, clks, k - 1);
      var ran := Executed(cmds, clks, k - 1);
      assert (ran + [cmds[k - 1]])[..|ran|] == ran;
    }
  }

  // The map is what they wrote.
  lemma StoreByWritten(cmds: seq<Command>, clks: seq<Clock>, k: nat)
    requires k <= |cmds| == |clks|
    ensures Written(map[], Executed(cmds, clks, k), StoreBy(cmds, clks, k))
  {
    StoreByFolds(cmds, clks, k);
    FoldIsWritten(map[], Executed(cmds, clks, k));
  }

  // The latest execution before k with its ids; k if there is none.
  ghost function LastRun(cmds: seq<Command>, clks: seq<Clock>, k: nat, upTo: nat): (j: nat)
    requires upTo <= k < |cmds| == |clks|
    ensures j < upTo ==> SameIds(cmds[j], cmds[k]) && Runs(cmds, clks, j)
    ensures j < upTo || j == k
    ensures forall x :: 0 <= x < upTo && (j == k || j < x) && SameIds(cmds[x], cmds[k]) ==> !Runs(cmds, clks, x)
    decreases upTo
  {
    if upTo == 0 then k
    else if SameIds(cmds[upTo - 1], cmds[k]) && Runs(cmds, clks, upTo - 1) then upTo - 1
    else LastRun(cmds, clks, k, upTo - 1)
  }

  // The command whose execution gives k its result.
  ghost function SourceOf(cmds: seq<Command>, clks: seq<Clock>, k: nat): nat
    requires k < |cmds| == |clks|
  {
    if !cmds[k].Encoded? || Runs(cmds, clks, k) then k else LastRun(cmds, clks, k, k)
  }

  ghost function ResultBy(cmds: seq<Command>, clks: seq<Clock>, k: nat): Result
    requires k < |cmds| == |clks|
  {
    var j := SourceOf(cmds, clks, k);
    ResultOf(StoreBy(cmds, clks, j), cmds[j])
  }

  ghost predicate AlikeAt(cmds: seq<Command>, clks: seq<Clock>, clks': seq<Clock>, k: nat)
    requires k < |cmds| == |clks| == |clks'|
  {
    Runs(cmds, clks, k) <==> Runs(cmds, clks', k)
  }

  // Two readings of the clock by which the same commands are executed.
  ghost predicate SamePattern(cmds: seq<Command>, clks: seq<Clock>, clks': seq<Clock>, k: nat)
    requires k <= |cmds| == |clks| == |clks'|
  {
    forall i :: 0 <= i < k ==> AlikeAt(cmds, clks, clks', i)
  }

  // They then make the same map and give the same results.
  lemma {:induction false} PatternStore(cmds: seq<Command>, clks: seq<Clock>, clks': seq<Clock>, k: nat)
    requires k <= |cmds| == |clks| == |clks'| && SamePattern(cmds, clks, clks', k)
    ensures StoreBy(cmds, clks, k) == StoreBy(cmds, clks', k)
  {
    if k > 0 {
      PatternStore(cmds, clks, clks', k - 1);
      assert AlikeAt(cmds, clks, clks', k - 1);
    }
  }

  lemma {:induction false} PatternLast(cmds: seq<Command>, clks: seq<Clock>, clks': seq<Clock>, k: nat, upTo: nat)
    requires upTo <= k < |cmds| == |clks| == |clks'| && SamePattern(cmds, clks, clks', upTo)
    ensures LastRun(cmds, clks, k, upTo) == LastRun(cmds, clks', k, upTo)
    decreases upTo
  {
    if upTo > 0 {
      assert AlikeAt(cmds, clks, clks', upTo - 1);
      PatternLast(cmds, clks, clks', k, upTo - 1);
    }
  }

  lemma PatternResult(cmds: seq<Command>, clks: seq<Clock>, clks': seq<Clock>, k: nat)
    requires k < |cmds| == |clks| == |clks'| && SamePattern(cmds, clks, clks', k + 1)
    ensures ResultBy(cmds, clks, k) == ResultBy(cmds, clks', k)
  {
    assert AlikeAt(cmds, clks, clks', k);
    PatternLast(cmds, clks, clks', k, k);
    var j := SourceOf(cmds, clks, k);
    PatternStore(cmds, clks, clks', j);
  }

  // ---- The ideal: an unbounded record of every pair of ids ----

  predicate Repeat(cmds: seq<Command>, k: nat)
    requires k < |cmds|
  {
    Looked(cmds[k]) && exists j :: 0 <= j < k && SameIds(cmds[j], cmds[k])
  }

  function StoreAfter(cmds: seq<Command>, k: nat): Store
    requires k <= |cmds|
  {
    if k == 0 then map[]
    else if !cmds[k - 1].Encoded? || Repeat(cmds, k - 1) then StoreAfter(cmds, k - 1)
    else Execute(StoreAfter(cmds, k - 1), cmds[k - 1].op).0
  }

  // The commands that are no repeats among the first k, in order.
  function FirstOnes(cmds: seq<Command>, k: nat): seq<Command>
    requires k <= |cmds|
  {
    if k == 0 then []
    else if Repeat(cmds, k - 1) then FirstOnes(cmds, k - 1)
    else FirstOnes(cmds, k - 1) + [cmds[k - 1]]
  }

  lemma {:induction false} StoreAfterFolds(cmds: seq<Command>, k: nat)
    requires k <= |cmds|
    ensures StoreAfter(cmds, k) == FoldCommands(map[], FirstOnes(cmds, k))
  {
    if k > 0 {
      StoreAfterFolds(cmds, k - 1);
      var ran := FirstOnes(cmds, k - 1);
      assert (ran + [cmds[k - 1]])[..|ran|] == ran;
    }
  }

  // The map is what they wrote.
  lemma StoreAfterWritten(cmds: seq<Command>, k: nat)
    requires k <= |cmds|
    ensures Written(map[], FirstOnes(cmds, k), StoreAfter(cmds, k))
  {
    StoreAfterFolds(cmds, k);
    FoldIsWritten(map[], FirstOnes(cmds, k));
  }

  function FindIds(cmds: seq<Command>, k: nat, i: nat): (j: nat)
    requires i <= k < |cmds| && cmds[k].Encoded?
    ensures i <= j <= k && SameIds(cmds[j], cmds[k]) && forall x :: i <= x < j ==> !SameIds(cmds[x], cmds[k])
    decreases k - i
  {
    if SameIds(cmds[i], cmds[k]) then i else FindIds(cmds, k, i + 1)
  }

  // The command that is executed for command k.
  function FirstOf(cmds: seq<Command>, k: nat): nat
    requires k < |cmds|
  {
    if Repeat(cmds, k) then FindIds(cmds, k, 0) else k
  }

  function ResultAt(cmds: seq<Command>, k: nat): Result
    requires k < |cmds|
  {
    var j := FirstOf(cmds, k);
    assert j <= k;
    ResultOf(StoreAfter(cmds, j), cmds[j])
  }

  // ---- When the two are the same ----

  // The commands of one client executed strictly between j and i.
  ghost function SavesBetween(cmds: seq<Command>, client: nat, j: int, i: nat): set<nat>
    requires i <= |cmds|
  {
    set x: nat | x < i && j < x && cmds[x].Encoded? && cmds[x].op.clientId == client && !Repeat(cmds, x)
  }

  // A repeat comes within the expiry of its first execution and after at most
  // 99 newer saves by that client.
  ghost predicate TimelyAt(cmds: seq<Command>, clks: seq<Clock>, i: nat)
    requires i < |cmds| == |clks|
  {
    Repeat(cmds, i) ==>
      var j := FirstOf(cmds, i);
      clks[i].lookup - clks[j].save <= EXPIRY && |SavesBetween(cmds, cmds[i].op.clientId, j, i)| < CAP
  }

  ghost predicate Timely(cmds: seq<Command>, clks: seq<Clock>)
    requires |clks| == |cmds|
  {
    forall i :: 0 <= i < |cmds| ==> TimelyAt(cmds, clks, i)
  }

  lemma FirstIsFirst(cmds: seq<Command>, k: nat)
    requires k < |cmds| && Repeat(cmds, k)
    ensures var j := FirstOf(cmds, k);
            && j < k && SameIds(cmds[j], cmds[k]) && Looked(cmds[j]) && !Repeat(cmds, j)
            && (forall x :: 0 <= x < k && SameIds(cmds[x], cmds[k]) && !Repeat(cmds, x) ==> x == j)
  {
    var j := FirstOf(cmds, k);
    forall i | 0 <= i < j
      ensures !SameIds(cmds[i], cmds[j])
    {
      assert !SameIds(cmds[i], cmds[k]);
    }
    forall x | 0 <= x < k && SameIds(cmds[x], cmds[k]) && x != j
      ensures Repeat(cmds, x)
    {
      assert !(x < j) && SameIds(cmds[j], cmds[x]);
    }
  }

  lemma SubsetSmaller(a: set<nat>, b: set<nat>)
    requires a <= b
    ensures |a| <= |b|
  {
    assert b == a + (b - a);
  }

  lemma {:induction false} ImageSmaller(xs: set<nat>, cmds: seq<Command>)
    requires forall x :: x in xs ==> x < |cmds| && cmds[x].Encoded?
    ensures |set x | x in xs :: cmds[x].op.seqId| <= |xs|
    decreases |xs|
  {
    var image := set x | x in xs :: cmds[x].op.seqId;
    if |xs| > 0 {
      var y :| y in xs;
      var rest := xs - {y};
      ImageSmaller(rest, cmds);
      var image' := set x | x in rest :: cmds[x].op.seqId;
      assert image <= image' + {cmds[y].op.seqId};
      SubsetSmaller(image, image' + {cmds[y].op.seqId});
      assert |image' + {cmds[y].op.seqId}| <= |image'| + 1;
    } else {
      assert image == {};
    }
  }

  // Numbers are fewer than the saves that carry them.
  lemma NewerFewer(cmds: seq<Command>, clks: seq<Clock>, j: nat, k: nat)
    requires j < k <= |cmds| == |clks| && cmds[j].Encoded?
    requires forall x :: 0 <= x < k ==> RunsFirst(cmds, clks, x)
    ensures |Newer(cmds, clks, j, k)| <= |SavesBetween(cmds, cmds[j].op.clientId, j, k)|
  {
    var saves := SavesBetween(cmds, cmds[j].op.clientId, j, k);
    var image := set x | x in saves :: cmds[x].op.seqId;
    ImageSmaller(saves, cmds);
    forall s | s in Newer(cmds, clks, j, k)
      ensures s in image
    {
      var x: nat :| j < x < k && Runs(cmds, clks, x) && cmds[x].op.clientId == cmds[j].op.clientId && cmds[x].op.seqId == s;
      assert RunsFirst(cmds, clks, x) && x in saves;
    }
    SubsetSmaller(Newer(cmds, clks, j, k), image);
  }

  ghost predicate RunsFirst(cmds: seq<Command>, clks: seq<Clock>, i: nat)
    requires i < |cmds| == |clks|
  {
    Runs(cmds, clks, i) <==> cmds[i].Encoded? && !Repeat(cmds, i)
  }

  // With timely repeats exactly the first occurrences are executed.
  lemma {:induction false} TimelyRuns(cmds: seq<Command>, clks: seq<Clock>, k: nat)
    requires |cmds| == |clks| && k <= |cmds| && forall i :: 0 <= i < k ==> TimelyAt(cmds, clks, i)
    ensures forall i :: 0 <= i < k ==> RunsFirst(cmds, clks, i)
  {
    if k > 0 {
      TimelyRuns(cmds, clks, k - 1);
      TimelyRunsAt(cmds, clks, k - 1);
    }
  }

  lemma TimelyRunsAt(cmds: seq<Command>, clks: seq<Clock>, k: nat)
    requires k < |cmds| == |clks| && TimelyAt(cmds, clks, k)
    requires forall i :: 0 <= i < k ==> RunsFirst(cmds, clks, i)
    ensures RunsFirst(cmds, clks, k)
  {
    if Repeat(cmds, k) {
      FirstIsFirst(cmds, k);
      var j := FirstOf(cmds, k);
      NewerFewer(cmds, clks, j, k);
      assert RunsFirst(cmds, clks, j);
      assert Answers(cmds, clks, j, k);
    }
  }

  lemma {:induction false} TimelyStore(cmds: seq<Command>, clks: seq<Clock>, k: nat)
    requires |cmds| == |clks| && k <= |cmds| && forall i :: 0 <= i < k ==> TimelyAt(cmds, clks, i)
    ensures StoreBy(cmds, clks, k) == StoreAfter(cmds, k)
  {
    if k > 0 {
      TimelyStore(cmds, clks, k - 1);
      TimelyRuns(cmds, clks, k);
      assert RunsFirst(cmds, clks, k - 1);
    }
  }

  lemma TimelyResult(cmds: seq<Command>, clks: seq<Clock>, k: nat)
    requires k < |cmds| == |clks| && forall i :: 0 <= i <= k ==> TimelyAt(cmds, clks, i)
    ensures ResultBy(cmds, clks, k) == ResultAt(cmds, k)
  {
    TimelyRuns(cmds, clks, k + 1);
    assert RunsFirst(cmds, clks, k);
    if Repeat(cmds, k) {
      FirstIsFirst(cmds, k);
      assert RunsFirst(cmds, clks, FirstOf(cmds, k)) && RunsFirst(cmds, clks, LastRun(cmds, clks, k, k));
      assert LastRun(cmds, clks, k, k) == FirstOf(cmds, k);
    }
    TimelyStore(cmds, clks, FirstOf(cmds, k));
  }
}
