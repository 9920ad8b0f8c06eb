// Continuations of a run: sequences of actions, taken one after the other
// (raft/election.go, raft/replication.go).
module Paths {
  import opened Cluster

  ghost predicate Path(timely: bool, s: State, acts: seq<Action>, s': State)
    decreases |acts|
  {
    if acts == [] then s' == s
    else Enabled(s, acts[0], timely) && Path(timely, Do(s, acts[0]), acts[1..], s')
  }

  ghost predicate Leadsto(timely: bool, s: State, s': State) {
    exists acts :: Path(timely, s, acts, s')
  }

  lemma Stays(timely: bool, s: State)
    ensures Leadsto(timely, s, s)
  {
    assert Path(timely, s, [], s);
  }

  lemma OneStep(timely: bool, s: State, a: Action, s': State)
    requires Enabled(s, a, timely) && s' == Do(s, a)
    ensures Leadsto(timely, s, s')
  {
    assert Path(timely, s, [a], s');
  }

  lemma {:induction false} PathJoins(timely: bool, s: State, a: seq<Action>, m: State, b: seq<Action>, s': State)
    requires Path(timely, s, a, m) && Path(timely, m, b, s')
    ensures Path(timely, s, a + b, s')
    decreases |a|
  {
    if a == [] {
      assert a + b == b;
    } else {
      assert (a + b)[1..] == a[1..] + b;
      PathJoins(timely, Do(s, a[0]), a[1..], m, b, s');
    }
  }

  lemma Joins(timely: bool, s: State, m: State, s': State)
    requires Leadsto(timely, s, m) && Leadsto(timely, m, s')
    ensures Leadsto(timely, s, s')
  {
    var a :| Path(timely, s, a, m);
    var b :| Path(timely, m, b, s');
    PathJoins(timely, s, a, m, b, s');
  }

  lemma {:induction false} PathStates(timely: bool, s: State, acts: seq<Action>, s': State) returns (run: seq<State>)
    requires Path(timely, s, acts, s')
    ensures |run| == |acts| + 1 && run[0] == s && run[|acts|] == s'
    ensures forall k :: 0 <= k < |acts| ==> StepAt(timely, run, acts, k)
    decreases |acts|
  {
    if acts == [] {
      run := [s];
    } else {
      var rest := PathStates(timely, Do(s, acts[0]), acts[1..], s');
      run := [s] + rest;
      forall k | 0 <= k < |acts|
        ensures StepAt(timely, run, acts, k)
      {
        if k > 0 {
          assert run[k] == rest[k - 1] && acts[k] == acts[1..][k - 1];
          assert StepAt(timely, rest, acts[1..], k - 1);
        }
      }
    }
  }

  // A path from the initial state is a run.
  lemma RunAlong(ids: set<int>, timely: bool, s: State) returns (run: seq<State>, acts: seq<Action>)
    requires Leadsto(timely, InitialState(ids), s)
    ensures IsRun(ids, timely, run, acts) && run[|acts|] == s
  {
    acts :| Path(timely, InitialState(ids), acts, s);
    run := PathStates(timely, InitialState(ids), acts, s);
  }

  // And every moment of a run is at the end of one.
  lemma {:induction false} RunLeads(ids: set<int>, timely: bool, run: seq<State>, acts: seq<Action>, k: nat)
    requires IsRun(ids, timely, run, acts) && k < |run|
    ensures Leadsto(timely, InitialState(ids), run[k])
  {
    if k == 0 {
      Stays(timely, run[0]);
    } else {
      RunLeads(ids, timely, run, acts, k - 1);
      assert StepAt(timely, run, acts, k - 1);
      OneStep(timely, run[k - 1], acts[k - 1], run[k]);
      Joins(timely, run[0], run[k - 1], run[k]);
    }
  }
}
