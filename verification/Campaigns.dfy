// How a candidate is elected, step by step, from any state of a cluster
// (raft/election.go).
module Campaigns {
  import opened KvTypes
  import opened RaftTypes
  import opened Cluster
  import opened ElectionSpec
  import opened Paths

  ghost predicate Leads(s: State, i: int, t: int) {
    i in s.nodes && s.nodes[i].role == Leader && s.nodes[i].term == t
  }

  ghost predicate KnownAt(n: Node, ids: set<int>, i: int) {
    n.id == i && n.peers.Keys == ids - {i} && Positive(n.log)
  }

  // Everybody knows everybody.
  ghost predicate Known(s: State, ids: set<int>) {
    s.nodes.Keys == ids && forall i :: i in ids ==> KnownAt(s.nodes[i], ids, i)
  }

  ghost predicate Standing(s: State, c: int, t: int, votes: int) {
    c in s.nodes && s.nodes[c].role == Candidate && s.nodes[c].term == t && s.nodes[c].votes == votes
  }

  // v is free to vote for c in term t, is about to be asked, and finds c's log
  // not older than its own.
  ghost predicate CanVote(s: State, c: int, t: int, v: int) {
    && v in s.nodes && c in s.nodes && v != c && Call(c, t, v) in s.net.calls
    && Free(s.nodes[v], t, c) && NotOlder(s.nodes[c].log, s.nodes[v].log)
  }

  // A node that has voted for c in term t, and is otherwise as it was.
  ghost predicate VotedIn(n: Node, n': Node, c: int, t: int) {
    && n' == n.(term := t, votedFor := c, role := n'.role, disk := n'.disk)
    && n'.role == (if n.term < t then Follower else n.role)
    && n'.disk == n.disk.(saved := Some(SavedState(t, if n.term < t then NO_ONE else n.votedFor, n.log)))
  }

  // ---- Picking members of sets ----

  lemma Pick(s: set<int>) returns (x: int)
    requires |s| > 0
    ensures x in s
  {
    if forall y :: y !in s {
      assert false;
    }
    x :| x in s;
  }

  lemma OnlyOne(voters: set<int>, v: int)
    requires |voters| == 1 && v in voters
    ensures voters == {v}
  {
    assert |voters - {v}| == 0;
  }

  // ---- Beginning ----

  // What a campaign changes.
  ghost predicate Begun(s: State, s': State, ids: set<int>, c: int, t: int) {
    && s'.nodes.Keys == s.nodes.Keys && Standing(s', c, t, 1) && c in s.nodes
    && (forall p :: p in ids && p != c ==> p in s.nodes && s'.nodes[p] == s.nodes[p] && Call(c, t, p) in s'.net.calls)
    && s'.nodes[c].log == s.nodes[c].log && KnownAt(s'.nodes[c], ids, c) && s'.nodes[c].commitIndex == s.nodes[c].commitIndex
    && s.net.calls <= s'.net.calls && s.net.promotions <= s'.net.promotions
    && (ids == {c} ==> (c, t) in s'.net.promotions)
  }

  lemma Begin(ids: set<int>, timely: bool, s: State, c: int) returns (s': State)
    requires Known(s, ids) && c in ids && s.nodes[c].role != Leader
    ensures Leadsto(timely, s, s') && Begun(s, s', ids, c, s.nodes[c].term + 1)
    ensures |ids| > 1 ==> s'.net.promotions == s.net.promotions
  {
    s' := Do(s, Timeout(c, true));
    OneStep(timely, s, Timeout(c, true), s');
    var t, peers := s.nodes[c].term + 1, s.nodes[c].peers;
    assert KnownAt(s.nodes[c], ids, c);
    if peers == map[] {
      assert ids - {c} == {};
      assert ids == {c};
    } else {
      assert forall p :: p in ids && p != c ==> p in peers.Keys;
      assert ids == {c} ==> peers.Keys == {};
    }
  }

  lemma BegunKnown(s: State, s': State, ids: set<int>, c: int, t: int)
    requires Known(s, ids) && c in ids && Begun(s, s', ids, c, t)
    ensures Known(s', ids)
  {
    forall i | i in ids
      ensures KnownAt(s'.nodes[i], ids, i)
    {
      assert KnownAt(s.nodes[i], ids, i);
    }
  }

  lemma BegunTwice(s: State, m: State, s': State, ids: set<int>, c: int, t: int, t': int)
    requires Begun(s, m, ids, c, t) && Begun(m, s', ids, c, t')
    ensures Begun(s, s', ids, c, t')
  {
  }

  // A node may campaign again and again, up to any later term.
  lemma {:induction false} Climb(ids: set<int>, timely: bool, s: State, c: int, t: int) returns (s': State)
    requires Known(s, ids) && c in ids && s.nodes[c].role != Leader && t > s.nodes[c].term
    ensures Leadsto(timely, s, s') && Begun(s, s', ids, c, t)
    decreases t - s.nodes[c].term
  {
    var m := Begin(ids, timely, s, c);
    if t == s.nodes[c].term + 1 {
      s' := m;
    } else {
      BegunKnown(s, m, ids, c, s.nodes[c].term + 1);
      s' := Climb(ids, timely, m, c, t);
      Joins(timely, s, m, s');
      BegunTwice(s, m, s', ids, c, s.nodes[c].term + 1, t);
    }
  }

  // ---- Gaining votes ----

  // A voter is asked,
  lemma Ask(timely: bool, s: State, call: Call) returns (s': State, req: VoteRequest)
    requires Enabled(s, AskVote(call), timely)
    ensures Leadsto(timely, s, s') && s'.nodes == s.nodes
    ensures s'.net == s.net.(voteMsgs := s.net.voteMsgs + {VoteMsg(call, req)})
    ensures req.term == call.term && req.candidate == call.candidate && Describes(req, s.nodes[call.candidate].log)
  {
    AskDescribes(s, call);
    req :| && DoAskVote(s, call) == s.(net := s.net.(voteMsgs := s.net.voteMsgs + {VoteMsg(call, req)}))
           && req.term == call.term && req.candidate == call.candidate && Describes(req, s.nodes[call.candidate].log);
    s' := DoAskVote(s, call);
    OneStep(timely, s, AskVote(call), s');
  }

  // and answers.
  lemma Grant(timely: bool, s: State, call: Call, req: VoteRequest, log: seq<Entry>) returns (s': State)
    requires VoteMsg(call, req) in s.net.voteMsgs && call.peer in s.nodes
    requires req.term == call.term && req.candidate == call.candidate && Describes(req, log)
    requires Positive(log) && Positive(s.nodes[call.peer].log)
    requires Free(s.nodes[call.peer], call.term, call.candidate) && NotOlder(log, s.nodes[call.peer].log)
    ensures Leadsto(timely, s, s') && call.peer in s'.nodes && s'.nodes == s.nodes[call.peer := s'.nodes[call.peer]]
    ensures VotedIn(s.nodes[call.peer], s'.nodes[call.peer], call.candidate, call.term)
    ensures VoteAnswer(call, VoteReply(call.term, true)) in s'.net.voteAnswers
    ensures s'.net.calls == s.net.calls && s'.net.promotions == s.net.promotions
  {
    var msg := VoteMsg(call, req);
    GrantsExactly(s.nodes[call.peer], log, req, true);
    s' := Do(s, ReceiveVoteRequest(msg, true));
    OneStep(timely, s, ReceiveVoteRequest(msg, true), s');
  }

  lemma Asked(ids: set<int>, timely: bool, s: State, c: int, t: int, v: int) returns (s': State)
    requires Known(s, ids) && CanVote(s, c, t, v)
    ensures Leadsto(timely, s, s') && v in s'.nodes && s'.nodes == s.nodes[v := s'.nodes[v]] && VotedIn(s.nodes[v], s'.nodes[v], c, t)
    ensures VoteAnswer(Call(c, t, v), VoteReply(t, true)) in s'.net.voteAnswers
    ensures s'.net.calls == s.net.calls && s'.net.promotions == s.net.promotions
  {
    assert KnownAt(s.nodes[c], ids, c) && KnownAt(s.nodes[v], ids, v);
    var m, req := Ask(timely, s, Call(c, t, v));
    s' := Grant(timely, m, Call(c, t, v), req, s.nodes[c].log);
    Joins(timely, s, m, s');
  }

  // The candidate counts the answer.
  lemma Counted(ids: set<int>, timely: bool, s: State, c: int, t: int, votes: int, v: int) returns (s': State)
    requires Standing(s, c, t, votes) && c in ids && KnownAt(s.nodes[c], ids, c) && Call(c, t, v) in s.net.calls
    requires VoteAnswer(Call(c, t, v), VoteReply(t, true)) in s.net.voteAnswers
    ensures Leadsto(timely, s, s') && s'.nodes == s.nodes[c := s.nodes[c].(votes := votes + 1)]
    ensures s'.net.calls == s.net.calls - {Call(c, t, v)} && s.net.promotions <= s'.net.promotions
    ensures 2 * (votes + 1) >= |ids| ==> (c, t) in s'.net.promotions
  {
    var answer := VoteAnswer(Call(c, t, v), VoteReply(t, true));
    CountsExactly(s.nodes[c], t, VoteReply(t, true));
    s' := Do(s, ReceiveVoteReply(answer));
    OneStep(timely, s, ReceiveVoteReply(answer), s');
    assert |s.nodes[c].peers| == |s.nodes[c].peers.Keys| == |ids| - 1;
  }

  // The candidate has gained these voters, and nothing else of note has changed.
  ghost predicate Gained(s: State, s': State, ids: set<int>, c: int, t: int, voters: set<int>) {
    && s.nodes.Keys == s'.nodes.Keys == ids && c in ids && c !in voters
    && s'.nodes[c] == s.nodes[c].(votes := s'.nodes[c].votes)
    && (forall p :: p in ids && p != c && p !in voters ==> s'.nodes[p] == s.nodes[p])
    && (forall p :: p in voters ==> p in ids && VotedIn(s.nodes[p], s'.nodes[p], c, t))
    && (forall x :: x in s.net.calls && !(x.candidate == c && x.term == t && x.peer in voters) ==> x in s'.net.calls)
    && s.net.promotions <= s'.net.promotions
  }

  lemma GainedKnown(s: State, s': State, ids: set<int>, c: int, t: int, voters: set<int>)
    requires Known(s, ids) && Gained(s, s', ids, c, t, voters)
    ensures Known(s', ids)
  {
    forall i | i in ids
      ensures KnownAt(s'.nodes[i], ids, i)
    {
      assert KnownAt(s.nodes[i], ids, i);
      assert i in voters ==> VotedIn(s.nodes[i], s'.nodes[i], c, t);
    }
  }

  // What a set of voters makes of the candidate.
  ghost predicate Collected(ids: set<int>, timely: bool, s: State, s': State, c: int, t: int, votes: int, voters: set<int>) {
    && Leadsto(timely, s, s') && Standing(s', c, t, votes) && Gained(s, s', ids, c, t, voters)
    && (2 * votes >= |ids| ==> (c, t) in s'.net.promotions)
  }

  // One voter is asked, answers and is counted.
  lemma GainOne(ids: set<int>, timely: bool, s: State, c: int, t: int, votes: int, v: int) returns (s': State)
    requires Known(s, ids) && Standing(s, c, t, votes) && CanVote(s, c, t, v)
    ensures Collected(ids, timely, s, s', c, t, votes + 1, {v})
  {
    assert KnownAt(s.nodes[c], ids, c);
    var m := Asked(ids, timely, s, c, t, v);
    s' := Counted(ids, timely, m, c, t, votes, v);
    Joins(timely, s, m, s');
  }

  lemma GainedMore(s: State, m: State, s': State, ids: set<int>, c: int, t: int, v: int, rest: set<int>)
    requires Gained(s, m, ids, c, t, {v}) && Gained(m, s', ids, c, t, rest) && v !in rest
    ensures Gained(s, s', ids, c, t, rest + {v})
  {
    forall p | p in rest + {v}
      ensures p in ids && VotedIn(s.nodes[p], s'.nodes[p], c, t)
    {
      assert VotedIn(s.nodes[v], m.nodes[v], c, t);
      if p == v {
        assert s'.nodes[v] == m.nodes[v];
      } else {
        assert m.nodes[p] == s.nodes[p] && VotedIn(m.nodes[p], s'.nodes[p], c, t);
      }
    }
  }

  lemma CanStillVote(s: State, m: State, ids: set<int>, c: int, t: int, v: int, voters: set<int>)
    requires Gained(s, m, ids, c, t, {v}) && v in voters && forall p :: p in voters ==> CanVote(s, c, t, p)
    ensures forall p :: p in voters - {v} ==> CanVote(m, c, t, p)
  {
    forall p | p in voters - {v}
      ensures CanVote(m, c, t, p)
    {
      assert CanVote(s, c, t, p) && m.nodes[p] == s.nodes[p] && m.nodes[c].log == s.nodes[c].log;
    }
  }

  lemma CollectedMore(ids: set<int>, timely: bool, s: State, m: State, s': State, c: int, t: int, votes: int, v: int, rest: set<int>)
    requires Collected(ids, timely, s, m, c, t, votes, {v}) && v !in rest
    requires Collected(ids, timely, m, s', c, t, votes + |rest|, rest)
    ensures Collected(ids, timely, s, s', c, t, votes + |rest|, rest + {v})
  {
    Joins(timely, s, m, s');
    GainedMore(s, m, s', ids, c, t, v, rest);
  }

  // A set of voters answers one candidate.
  lemma {:induction false} Collect(ids: set<int>, timely: bool, s: State, c: int, t: int, votes: int, voters: set<int>)
    returns (s': State)
    requires Known(s, ids) && Standing(s, c, t, votes) && |voters| > 0
    requires forall v :: v in voters ==> CanVote(s, c, t, v)
    ensures Collected(ids, timely, s, s', c, t, votes + |voters|, voters)
    decreases |voters|, 2
  {
    var v := Pick(voters);
    var m := GainOne(ids, timely, s, c, t, votes, v);
    if |voters| == 1 {
      OnlyOne(voters, v);
      s' := m;
    } else {
      GainedKnown(s, m, ids, c, t, {v});
      s' := CollectRest(ids, timely, s, m, c, t, votes, v, voters);
    }
  }

  lemma {:induction false} CollectRest(
    ids: set<int>, timely: bool, s: State, m: State, c: int, t: int, votes: int, v: int, voters: set<int>) returns (s': State)
    requires Known(m, ids) && Collected(ids, timely, s, m, c, t, votes + 1, {v}) && v in voters && |voters| > 1
    requires forall p :: p in voters ==> CanVote(s, c, t, p)
    ensures Collected(ids, timely, s, s', c, t, votes + |voters|, voters)
    decreases |voters|, 1
  {
    var rest := voters - {v};
    assert rest + {v} == voters;
    s' := CollectOthers(ids, timely, s, m, c, t, votes, v, voters, rest);
    CollectedMore(ids, timely, s, m, s', c, t, votes + 1, v, rest);
  }

  lemma {:induction false} CollectOthers(
    ids: set<int>, timely: bool, s: State, m: State, c: int, t: int, votes: int, v: int, voters: set<int>, rest: set<int>)
    returns (s': State)
    requires Known(m, ids) && Standing(m, c, t, votes + 1) && Gained(s, m, ids, c, t, {v}) && v in voters && |voters| > 1
    requires rest == voters - {v} && forall p :: p in voters ==> CanVote(s, c, t, p)
    ensures |rest| == |voters| - 1 && Collected(ids, timely, m, s', c, t, votes + 1 + |rest|, rest)
    decreases |voters|, 0
  {
    CanStillVote(s, m, ids, c, t, v, voters);
    s' := Collect(ids, timely, m, c, t, votes + 1, rest);
  }

  // ---- Winning ----

  lemma Crown(timely: bool, s: State, c: int, countedIn: int) returns (s': State)
    requires c in s.nodes && s.nodes[c].role == Candidate
    requires (c, countedIn) in s.net.promotions && (timely ==> s.nodes[c].term == countedIn)
    ensures Leadsto(timely, s, s') && Leads(s', c, s.nodes[c].term)
    ensures s'.nodes == s.nodes[c := s'.nodes[c]] && s'.net.promotions == s.net.promotions - {(c, countedIn)}
    ensures s'.nodes[c].log == s.nodes[c].log && s'.nodes[c].commitIndex == s.nodes[c].commitIndex
  {
    s' := Do(s, Promote(c, countedIn));
    OneStep(timely, s, Promote(c, countedIn), s');
  }

  // The voters have voted for c, c leads, and nobody else has changed.
  ghost predicate Won(s: State, s': State, ids: set<int>, c: int, t: int, voters: set<int>) {
    && s.nodes.Keys == s'.nodes.Keys == ids && Leads(s', c, t) && c in ids
    && s'.nodes[c].log == s.nodes[c].log && s'.nodes[c].commitIndex == s.nodes[c].commitIndex
    && (forall p :: p in voters ==> p in ids && VotedIn(s.nodes[p], s'.nodes[p], c, t))
    && (forall p :: p in ids && p != c && p !in voters ==> s'.nodes[p] == s.nodes[p])
  }

  lemma BegunCanVote(s: State, m: State, ids: set<int>, c: int, t: int, voters: set<int>)
    requires Known(s, ids) && c in ids && Begun(s, m, ids, c, t) && voters <= ids - {c}
    requires forall v :: v in voters ==> v in s.nodes && Free(s.nodes[v], t, c) && NotOlder(s.nodes[c].log, s.nodes[v].log)
    ensures forall v :: v in voters ==> CanVote(m, c, t, v)
  {
    forall v | v in voters
      ensures CanVote(m, c, t, v)
    {
      assert v in ids && v != c;
    }
  }

  // From any state: a node that does not lead can be elected in any later term
  // by any set of voters that, with it, is half the cluster, provided each is
  // free in that term and has a log that is not newer. (The source asks for
  // half, not for a majority, but for one vote at least.)
  lemma CanBeElected(ids: set<int>, timely: bool, s: State, c: int, t: int, voters: set<int>) returns (s': State)
    requires Known(s, ids) && c in ids && s.nodes[c].role != Leader && t > s.nodes[c].term
    requires voters <= ids - {c} && 2 * (|voters| + 1) >= |ids| && (voters == {} ==> ids == {c})
    requires forall v :: v in voters ==> v in s.nodes && Free(s.nodes[v], t, c) && NotOlder(s.nodes[c].log, s.nodes[v].log)
    ensures Leadsto(timely, s, s') && Won(s, s', ids, c, t, voters)
  {
    var m := Climb(ids, timely, s, c, t);
    BegunKnown(s, m, ids, c, t);
    if voters == {} {
      s' := Crown(timely, m, c, t);
      Joins(timely, s, m, s');
    } else {
      BegunCanVote(s, m, ids, c, t, voters);
      var w := Collect(ids, timely, m, c, t, 1, voters);
      s' := Crown(timely, w, c, t);
      Joins(timely, s, m, w);
      Joins(timely, s, w, s');
      WonBy(s, m, w, s', ids, c, t, voters);
    }
  }

  lemma WonBy(s: State, m: State, w: State, s': State, ids: set<int>, c: int, t: int, voters: set<int>)
    requires Known(s, ids) && c in ids && Begun(s, m, ids, c, t) && Gained(m, w, ids, c, t, voters) && Leads(s', c, t)
    requires s'.nodes == w.nodes[c := s'.nodes[c]] && s'.nodes[c].log == w.nodes[c].log
    requires s'.nodes[c].commitIndex == w.nodes[c].commitIndex
    ensures Won(s, s', ids, c, t, voters)
  {
    forall p | p in voters
      ensures p in ids && VotedIn(s.nodes[p], s'.nodes[p], c, t)
    {
      assert VotedIn(m.nodes[p], w.nodes[p], c, t) && p != c;
    }
  }
}
