// The two majority tests and when the sets that pass them must meet
// (raft/election.go, raft/replication.go).
module Quorums {
  import opened ClusterInvariant

  // Two subsets too large to be disjoint share a member.
  lemma Overlap(universe: set<int>, a: set<int>, b: set<int>) returns (v: int)
    requires a <= universe && b <= universe && |a| + |b| > |universe|
    ensures v in a && v in b
  {
    if forall x :: x in a ==> x !in b {
      Within(universe, a + b);
      assert false;
    }
    v :| v in a && v in b;
  }

  lemma Within(universe: set<int>, a: set<int>)
    requires a <= universe
    ensures |a| <= |universe|
  {
    assert universe == a + (universe - a);
  }

  // Any set that passes the vote test meets any set that passes the commit
  // test, whatever the size of the cluster.
  lemma VoteMeetsCommit(universe: set<int>, voters: set<int>, ackers: set<int>) returns (v: int)
    requires universe != {} && voters <= universe && ackers <= universe
    requires 2 * |voters| >= |universe| && 2 * |ackers| > |universe|
    ensures v in voters && v in ackers
  {
    v := Overlap(universe, voters, ackers);
  }

  predicate SafeSize(size: nat) {
    size % 2 == 1 || size == 2
  }

  lemma VoteMeetsVote(universe: set<int>, a: set<int>, b: set<int>) returns (v: int)
    requires SafeSize(|universe|) && a <= universe && b <= universe
    requires VoteQuorum(|universe|, |a|) && VoteQuorum(|universe|, |b|)
    ensures v in a && v in b
  {
    v := Overlap(universe, a, b);
  }
}
