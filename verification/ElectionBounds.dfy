// Exactly when a cluster never has two leaders in one term: a lone node
// always; otherwise just when becomeLeader runs in the term it counted and the
// size is odd or two. The source checks neither. Restarts break it for three
// nodes or more.
module ElectionBounds {
  import opened KvTypes
  import opened RaftTypes
  import opened Cluster
  import opened Quorums
  import opened ClusterSafety
  import opened Paths
  import opened Campaigns
  import opened Recovery

  ghost predicate NoRivals(run: seq<State>) {
    forall j, k, a, b, t ::
      0 <= j < |run| && 0 <= k < |run| && Leads(run[j], a, t) && Leads(run[k], b, t) ==> a == b
  }

  ghost predicate ElectionSafe(ids: set<int>, timely: bool) {
    forall run, acts :: IsRun(ids, timely, run, acts) ==> NoRivals(run)
  }

  lemma ElectionSafeExactly(ids: set<int>, timely: bool)
    requires ValidIds(ids)
    ensures ElectionSafe(ids, timely) <==> |ids| == 1 || (timely && SafeSize(|ids|))
  {
    if |ids| == 1 {
      LoneNodeSafe(ids, timely);
    } else if timely && SafeSize(|ids|) {
      TimelySafe(ids);
    } else {
      var s, c, d, t;
      if timely {
        s, c, d, t := EvenRivals(ids);
      } else {
        s, c, d, t := LateRivals(ids);
      }
      var run, acts := RunAlong(ids, timely, s);
      assert Leads(run[|acts|], c, t) && Leads(run[|acts|], d, t);
    }
  }

  // ---- The safe cases ----

  lemma TimelySafe(ids: set<int>)
    requires ValidIds(ids) && SafeSize(|ids|)
    ensures ElectionSafe(ids, true)
  {
    forall run, acts, j, k, a, b, t |
      IsRun(ids, true, run, acts) && 0 <= j < |run| && 0 <= k < |run| && Leads(run[j], a, t) && Leads(run[k], b, t)
      ensures a == b
    {
      ElectionSafety(ids, run, acts, j, k, a, b);
    }
  }

  lemma {:induction false} SameIds(ids: set<int>, timely: bool, run: seq<State>, acts: seq<Action>, k: nat)
    requires IsRun(ids, timely, run, acts) && k < |run|
    ensures run[k].nodes.Keys == ids
  {
    if k > 0 {
      SameIds(ids, timely, run, acts, k - 1);
      assert StepAt(timely, run, acts, k - 1);
    }
  }

  lemma LoneNodeSafe(ids: set<int>, timely: bool)
    requires |ids| == 1
    ensures ElectionSafe(ids, timely)
  {
    forall run, acts, j, k, a, b, t |
      IsRun(ids, timely, run, acts) && 0 <= j < |run| && 0 <= k < |run| && Leads(run[j], a, t) && Leads(run[k], b, t)
      ensures a == b
    {
      SameIds(ids, timely, run, acts, j);
      SameIds(ids, timely, run, acts, k);
      var x :| x in ids;
      assert |ids - {x}| == 0;
      assert ids == {x};
    }
  }

  // ---- Building the others ----

  // Nobody has an entry.
  ghost predicate Bare(s: State, ids: set<int>) {
    Known(s, ids) && forall i :: i in ids ==> s.nodes[i].log == []
  }

  lemma StartsBare(ids: set<int>)
    ensures Bare(InitialState(ids), ids)
  {
    var s := InitialState(ids);
    forall i | i in ids
      ensures KnownAt(s.nodes[i], ids, i)
    {
      assert s.nodes[i].peers.Keys == ids - {i};
    }
  }

  lemma BegunBare(s: State, s': State, ids: set<int>, c: int, t: int)
    requires Bare(s, ids) && c in ids && Begun(s, s', ids, c, t)
    ensures Bare(s', ids)
  {
    BegunKnown(s, s', ids, c, t);
  }

  lemma GainedBare(s: State, s': State, ids: set<int>, c: int, t: int, voters: set<int>)
    requires Bare(s, ids) && Gained(s, s', ids, c, t, voters)
    ensures Bare(s', ids)
  {
    GainedKnown(s, s', ids, c, t, voters);
    forall i | i in ids
      ensures s'.nodes[i].log == []
    {
      assert i in voters ==> VotedIn(s.nodes[i], s'.nodes[i], c, t);
    }
  }

  lemma Other(ids: set<int>, c: int) returns (d: int)
    requires c in ids && |ids| >= 2
    ensures d in ids && d != c
  {
    assert |ids - {c}| == |ids| - 1;
    d := Pick(ids - {c});
  }

  lemma {:induction false} Half(ids: set<int>, k: nat) returns (half: set<int>)
    requires k <= |ids|
    ensures half <= ids && |half| == k && |ids - half| == |ids| - k
  {
    if k == 0 {
      half := {};
      assert ids - {} == ids;
    } else {
      var rest := Half(ids, k - 1);
      var x := Pick(ids - rest);
      half := rest + {x};
      assert ids - half == (ids - rest) - {x};
    }
  }

  // Two candidates with votes counted are both promoted in one term.
  lemma BothCrowned(timely: bool, s: State, c: int, d: int, tc: int, td: int) returns (s': State)
    requires c in s.nodes && d in s.nodes && c != d
    requires s.nodes[c].role == Candidate && s.nodes[d].role == Candidate && s.nodes[c].term == s.nodes[d].term
    requires (c, tc) in s.net.promotions && (d, td) in s.net.promotions
    requires timely ==> s.nodes[c].term == tc == td
    ensures Leadsto(timely, s, s') && Leads(s', c, s.nodes[c].term) && Leads(s', d, s.nodes[c].term)
  {
    var m := Crown(timely, s, c, tc);
    s' := Crown(timely, m, d, td);
    Joins(timely, s, m, s');
  }

  // Two candidates of term 1, and the others free to vote for either.
  ghost predicate Rivals(s: State, ids: set<int>, c: int, d: int) {
    && Bare(s, ids) && c in ids && d in ids && c != d && Standing(s, c, 1, 1) && Standing(s, d, 1, 1)
    && (forall p :: p in ids && p != c && p != d ==> CanVote(s, c, 1, p) && CanVote(s, d, 1, p))
  }

  lemma BothBegin(ids: set<int>, c: int, d: int) returns (s: State)
    requires c in ids && d in ids && c != d
    ensures Leadsto(true, InitialState(ids), s) && Rivals(s, ids, c, d)
    ensures forall p :: p in ids && p != c && p != d ==> s.nodes[p] == InitialState(ids).nodes[p]
  {
    var s0 := InitialState(ids);
    StartsBare(ids);
    var s1 := Begin(ids, true, s0, c);
    BegunBare(s0, s1, ids, c, 1);
    s := Begin(ids, true, s1, d);
    BegunBare(s1, s, ids, d, 1);
    Joins(true, s0, s1, s);
    forall p | p in ids && p != c && p != d
      ensures CanVote(s, c, 1, p) && CanVote(s, d, 1, p) && s.nodes[p] == InitialState(ids).nodes[p]
    {
      assert s.nodes[p] == s1.nodes[p] == s0.nodes[p];
    }
  }

  // An even cluster of four or more splits into two halves that each pass the vote test.
  lemma EvenRivals(ids: set<int>) returns (s: State, c: int, d: int, t: int)
    requires ValidIds(ids) && !SafeSize(|ids|)
    ensures Leadsto(true, InitialState(ids), s) && c != d && Leads(s, c, t) && Leads(s, d, t)
  {
    var half := Half(ids, |ids| / 2);
    var other := ids - half;
    c := Pick(half);
    d := Pick(other);
    var s0 := InitialState(ids);
    var s2 := BothBegin(ids, c, d);
    var s4 := BothCollect(ids, s2, half, other, c, d);
    s := BothCrowned(true, s4, c, d, 1, 1);
    t := 1;
    Joins(true, s0, s2, s4);
    Joins(true, s0, s4, s);
  }

  // c's own half of the votes leaves d's half free to vote.
  lemma OtherHalfFree(ids: set<int>, s: State, m: State, a: set<int>, b: set<int>, c: int, d: int)
    requires Rivals(s, ids, c, d) && Gained(s, m, ids, c, 1, a - {c}) && c in a && d in b && a !! b && a + b == ids
    ensures Bare(m, ids) && m.nodes[d] == s.nodes[d]
    ensures forall p :: p in b - {d} ==> CanVote(m, d, 1, p)
  {
    GainedBare(s, m, ids, c, 1, a - {c});
    forall p | p in b - {d}
      ensures CanVote(m, d, 1, p)
    {
      assert p in ids && p !in a && p != c;
      assert CanVote(s, d, 1, p) && m.nodes[p] == s.nodes[p];
    }
  }

  lemma HalfCanVote(ids: set<int>, s: State, a: set<int>, b: set<int>, c: int, d: int)
    requires Rivals(s, ids, c, d) && c in a && d in b && a !! b && a + b == ids
    ensures forall p :: p in a - {c} ==> CanVote(s, c, 1, p)
  {
    forall p | p in a - {c}
      ensures CanVote(s, c, 1, p)
    {
      assert p in ids && p != d;
    }
  }

  lemma CollectHalf(ids: set<int>, s: State, a: set<int>, c: int) returns (m: State)
    requires Known(s, ids) && Standing(s, c, 1, 1) && c in a && |a| >= 2
    requires forall p :: p in a - {c} ==> CanVote(s, c, 1, p)
    ensures Collected(ids, true, s, m, c, 1, |a|, a - {c})
  {
    assert |a - {c}| == |a| - 1;
    m := Collect(ids, true, s, c, 1, 1, a - {c});
  }

  lemma BothCollect(ids: set<int>, s: State, a: set<int>, b: set<int>, c: int, d: int) returns (s': State)
    requires Rivals(s, ids, c, d) && c in a && d in b
    requires a !! b && a + b == ids && |a| == |b| >= 2 && |ids| == |a| + |b|
    ensures Leadsto(true, s, s') && Standing(s', c, 1, |a|) && Standing(s', d, 1, |b|)
    ensures (c, 1) in s'.net.promotions && (d, 1) in s'.net.promotions
  {
    HalfCanVote(ids, s, a, b, c, d);
    var m := CollectHalf(ids, s, a, c);
    OtherHalfFree(ids, s, m, a, b, c, d);
    s' := SecondHalf(ids, s, m, a, b, c, d);
  }

  lemma SecondHalf(ids: set<int>, s: State, m: State, a: set<int>, b: set<int>, c: int, d: int) returns (s': State)
    requires Known(m, ids) && Collected(ids, true, s, m, c, 1, |a|, a - {c}) && Standing(m, d, 1, 1) && c in a && d in b
    requires a !! b && |a| == |b| >= 2 && |ids| == |a| + |b|
    requires forall p :: p in b - {d} ==> CanVote(m, d, 1, p)
    ensures Leadsto(true, s, s') && Standing(s', c, 1, |a|) && Standing(s', d, 1, |b|)
    ensures (c, 1) in s'.net.promotions && (d, 1) in s'.net.promotions
  {
    s' := CollectHalf(ids, m, b, d);
    Joins(true, s, m, s');
    assert c in ids && s'.nodes[c] == m.nodes[c];
  }

  // Two nodes each win a term, campaign again, and only then are promoted.
  lemma LateRivals(ids: set<int>) returns (s: State, c: int, d: int, t: int)
    requires ValidIds(ids) && |ids| >= 2
    ensures Leadsto(false, InitialState(ids), s) && c != d && Leads(s, c, t) && Leads(s, d, t)
  {
    c := Pick(ids);
    d := Other(ids, c);
    var s0 := InitialState(ids);
    StartsBare(ids);
    var s2 := WinsTerm(ids, s0, c, 1);
    var s4 := WinsTerm(ids, s2, d, 2);
    var s6 := BothAgain(ids, s4, c, d, 2);
    s := BothCrowned(false, s6, c, d, 1, 2);
    t := 3;
    Joins(false, s0, s2, s4);
    Joins(false, s0, s4, s6);
    Joins(false, s0, s6, s);
  }

  lemma BothAgain(ids: set<int>, s: State, c: int, d: int, t: int) returns (s': State)
    requires Bare(s, ids) && c in ids && d in ids && c != d && s.nodes[c].term == s.nodes[d].term == t
    requires s.nodes[c].role != Leader && s.nodes[d].role != Leader
    ensures Leadsto(false, s, s') && Standing(s', c, t + 1, 1) && Standing(s', d, t + 1, 1)
    ensures s.net.promotions <= s'.net.promotions
  {
    var m := Begin(ids, false, s, c);
    BegunBare(s, m, ids, c, t + 1);
    s' := Begin(ids, false, m, d);
    Joins(false, s, m, s');
  }

  // A candidate that has just begun gets every other vote.
  lemma AllVote(ids: set<int>, m: State, c: int, t: int) returns (s': State)
    requires Bare(m, ids) && Standing(m, c, t, 1) && |ids| >= 2 && c in ids
    requires forall p :: p in ids - {c} ==> CanVote(m, c, t, p)
    ensures Collected(ids, false, m, s', c, t, |ids|, ids - {c}) && (c, t) in s'.net.promotions && Bare(s', ids)
  {
    assert |ids - {c}| == |ids| - 1;
    s' := Collect(ids, false, m, c, t, 1, ids - {c});
    GainedBare(m, s', ids, c, t, ids - {c});
  }

  // Everybody votes for c, and everybody is then in its term.
  lemma WinsTerm(ids: set<int>, s: State, c: int, t: int) returns (s': State)
    requires Bare(s, ids) && c in ids && |ids| >= 2 && s.nodes[c].role != Leader
    requires forall i :: i in ids ==> s.nodes[i].term == t - 1
    ensures Leadsto(false, s, s') && Bare(s', ids) && (c, t) in s'.net.promotions
    ensures s.net.promotions <= s'.net.promotions
    ensures Standing(s', c, t, |ids|)
    ensures forall i :: i in ids && i != c ==> s'.nodes[i].term == t && s'.nodes[i].role == Follower
  {
    var m := Begin(ids, false, s, c);
    BegunBare(s, m, ids, c, t);
    BegunCanVote(s, m, ids, c, t, ids - {c});
    s' := AllVote(ids, m, c, t);
    Joins(false, s, m, s');
    GainedAll(s, m, s', ids, c, t);
  }

  lemma GainedAll(s: State, m: State, s': State, ids: set<int>, c: int, t: int)
    requires c in ids && Begun(s, m, ids, c, t) && Gained(m, s', ids, c, t, ids - {c})
    requires forall i :: i in ids ==> i in s.nodes && s.nodes[i].term < t
    ensures forall i :: i in ids && i != c ==> s'.nodes[i].term == t && s'.nodes[i].role == Follower
  {
    forall i | i in ids && i != c
      ensures s'.nodes[i].term == t && s'.nodes[i].role == Follower
    {
      assert i in ids - {c} && m.nodes[i] == s.nodes[i];
      assert VotedIn(m.nodes[i], s'.nodes[i], c, t);
    }
  }

  // ---- Restarts ----

  // The nodes in `down` are started again from their files.
  function Restarted(s: State, down: set<int>): State {
    s.(nodes := map i | i in s.nodes :: if i in down then Again(s.nodes[i]) else s.nodes[i])
  }

  // A voter that is started again may vote a second time.
  lemma ForgetsVote(s: State, s': State, ids: set<int>, c: int, p: int)
    requires p in ids && p in s.nodes && s.nodes[p] == InitialState(ids).nodes[p]
    requires p in s'.nodes && VotedIn(s.nodes[p], s'.nodes[p], c, 1)
    ensures var n := Again(s'.nodes[p]);
            n.term == 1 && n.votedFor == NO_ONE && n.log == [] && KnownAt(n, ids, p)
  {
    var n := s'.nodes[p];
    assert n.peers.Keys == ids - {p} && n.disk == Disk(Some(SavedState(1, NO_ONE, [])), None);
    assert Again(n).peers.Keys == n.peers.Keys;
  }

  lemma FreeAgain(ids: set<int>, s: State, m: State, c: int, d: int, others: set<int>)
    requires Rivals(s, ids, c, d) && others == ids - {c, d} && Gained(s, m, ids, c, 1, others)
    requires forall p :: p in others ==> s.nodes[p] == InitialState(ids).nodes[p]
    ensures var r := Restarted(m, others); Bare(r, ids) && forall p :: p in others ==> CanVote(r, d, 1, p)
  {
    var r := Restarted(m, others);
    GainedBare(s, m, ids, c, 1, others);
    forall p | p in others
      ensures r.nodes[p].log == [] && KnownAt(r.nodes[p], ids, p) && CanVote(r, d, 1, p)
    {
      ForgetsVote(s, m, ids, c, p);
      assert CanVote(s, d, 1, p) && Call(d, 1, p) in m.net.calls;
    }
  }

  // A vote for another is not saved, so, even with timely promotions, every
  // cluster of three or more can have two leaders of one term once voters are
  // restarted in between.
  lemma RestartRivals(ids: set<int>) returns (s: State, down: set<int>, s': State, c: int, d: int)
    requires |ids| >= 3
    ensures Leadsto(true, InitialState(ids), s) && Leadsto(true, Restarted(s, down), s')
    ensures c != d && Leads(s', c, 1) && Leads(s', d, 1)
  {
    c := Pick(ids);
    d := Other(ids, c);
    down := ids - {c, d};
    assert |ids - {c, d}| == |ids| - 2;
    var s2 := BothBegin(ids, c, d);
    s := Collect(ids, true, s2, c, 1, 1, down);
    Joins(true, InitialState(ids), s2, s);
    FreeAgain(ids, s2, s, c, d, down);
    var w := Collect(ids, true, Restarted(s, down), d, 1, 1, down);
    s' := BothCrowned(true, w, c, d, 1, 1);
    Joins(true, Restarted(s, down), w, s');
  }
}
