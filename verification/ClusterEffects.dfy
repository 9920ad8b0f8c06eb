// Every action has one of ten effects on the cluster. The invariant is proved
// over these, so that its proofs never look inside a handler.
module ClusterEffects {
  import opened KvTypes
  import opened RaftTypes
  import opened NodeSpec
  import opened Cluster
  import opened ClusterInvariant
  import opened ReplicationSpec

  // Nothing is put on applyCh, or the next committed entry is.
  ghost predicate DeliversNext(n: Node, n': Node) {
    || (n'.sent == n.sent && n'.lastApplied == n.lastApplied)
    || (&& n'.log == n.log && n'.commitIndex == n.commitIndex
        && n.lastApplied < n.commitIndex && n.lastApplied < |n.log| && n'.lastApplied == n.lastApplied + 1
        && n'.sent == n.sent + [CommandMsg(n.log[n.lastApplied].command, n.log[n.lastApplied].index)])
  }

  // Only node i changes, and it keeps its identity.
  ghost predicate Touches(s: State, s': State, i: int) {
    && i in s.nodes && s'.nodes.Keys == s.nodes.Keys
    && s'.nodes == s.nodes[i := s'.nodes[i]]
    && var n, n' := s.nodes[i], s'.nodes[i];
       n'.id == n.id && n'.peers.Keys == n.peers.Keys && n'.logBase == n.logBase && n.term <= n'.term
       && DeliversNext(n, n')
  }

  ghost predicate SameStanding(n: Node, n': Node) {
    n'.term == n.term && n'.role == n.role && n'.votedFor == n.votedFor && n'.votes == n.votes
  }

  ghost predicate SameMatches(n: Node, n': Node) {
    n'.peers.Keys == n.peers.Keys && forall p :: p in n.peers ==> n'.peers[p].matchIndex == n.peers[p].matchIndex
  }

  ghost predicate Retires(n: Node, n': Node) {
    n'.term > n.term && n'.role == Follower && n'.votedFor == NO_ONE
  }

  ghost predicate SameLog(n: Node, n': Node) {
    n'.log == n.log && n'.commitIndex == n.commitIndex
  }

  // The network gains nothing that anyone will act on.
  ghost predicate Quieter(net: Network, net': Network) {
    && net'.calls <= net.calls && net'.promotions <= net.promotions
    && net'.voteMsgs == net.voteMsgs && net'.appendMsgs == net.appendMsgs
    && (forall a :: a in net'.voteAnswers ==> a in net.voteAnswers || !a.reply.granted)
    && (forall a :: a in net'.appendAnswers ==> a in net.appendAnswers || (a.msg in net.appendMsgs && !a.reply.success))
  }

  // Stepping down, refusals, rejections, and steps of the apply loop.
  ghost predicate Quiet(s: State, s': State, i: int) {
    && Touches(s, s', i)
    && SameLog(s.nodes[i], s'.nodes[i])
    && (Retires(s.nodes[i], s'.nodes[i])
        || (SameStanding(s.nodes[i], s'.nodes[i]) && SameMatches(s.nodes[i], s'.nodes[i])))
    && s'.hist == s.hist
    && Quieter(s.net, s'.net)
  }

  ghost predicate Campaigns(s: State, s': State, i: int) {
    && Touches(s, s', i)
    && var n, n' := s.nodes[i], s'.nodes[i];
    && SameLog(n, n')
    && n'.term == n.term + 1 && n'.role == Candidate && n'.votedFor == i && n'.votes == 1
    && s'.hist == s.hist.(votes := s.hist.votes[(i, n'.term) := i], granted := s.hist.granted[(i, n'.term) := {i}])
    && s'.net == s.net.(calls := s'.net.calls, promotions := s'.net.promotions)
    && (forall c :: c in s'.net.calls ==> c in s.net.calls || (c.candidate == i && c.term == n'.term && c.peer in n.peers))
    && (forall p :: p in s'.net.promotions ==> p in s.net.promotions || (p == (i, n'.term) && n.peers == map[]))
  }

  ghost predicate Asks(s: State, s': State, c: Call) {
    && c in s.net.calls && c.candidate in s.nodes
    && s'.nodes == s.nodes && s'.hist == s.hist
    && s'.net == s.net.(voteMsgs := s'.net.voteMsgs)
    && (forall m :: m in s'.net.voteMsgs ==>
          || m in s.net.voteMsgs
          || (m.call == c && m.req == VoteRequest(c.term, c.candidate, LastLogInfo(s.nodes[c.candidate].log).0,
                                                  LastLogInfo(s.nodes[c.candidate].log).1)))
  }

  ghost predicate Votes(s: State, s': State, m: VoteMsg) {
    var i := m.call.peer;
    && m in s.net.voteMsgs
    && Touches(s, s', i)
    && var n, n' := s.nodes[i], s'.nodes[i];
    && SameLog(n, n') && SameMatches(n, n')
    && n.term <= m.req.term == n'.term
    && (if n.term < n'.term then n'.role == Follower
        else n'.role == n.role && n'.votes == n.votes && (n.votedFor == NO_ONE || n.votedFor == m.req.candidate))
    && n'.votedFor == m.req.candidate
    && UpToDate(m.req, n.log)
    && s'.hist == s.hist.(votes := s.hist.votes[(i, n'.term) := m.req.candidate])
    && s'.net == s.net.(voteAnswers := s'.net.voteAnswers)
    && (forall a :: a in s'.net.voteAnswers ==> a in s.net.voteAnswers || a.call == m.call)
  }

  ghost predicate Counts(s: State, s': State, v: VoteAnswer) {
    var c, t := v.call.candidate, v.call.term;
    && v in s.net.voteAnswers && v.call in s.net.calls && v.reply.granted
    && Touches(s, s', c)
    && var n, n' := s.nodes[c], s'.nodes[c];
    && SameLog(n, n') && SameMatches(n, n')
    && n.term == t == n'.term && n.role == Candidate == n'.role && n'.votedFor == n.votedFor
    && n'.votes == n.votes + 1
    && (c, t) in s.hist.granted
    && s'.hist == s.hist.(granted := s.hist.granted[(c, t) := s.hist.granted[(c, t)] + {v.call.peer}])
    && s'.net == s.net.(calls := s.net.calls - {v.call}, promotions := s'.net.promotions)
    && (forall p :: p in s'.net.promotions ==>
          p in s.net.promotions || (p == (c, t) && 2 * n'.votes > |n.peers|))
  }

  ghost predicate Crowns(s: State, s': State, i: int) {
    && Touches(s, s', i)
    && var n, n' := s.nodes[i], s'.nodes[i];
    && SameLog(n, n')
    && (i, n.term) in s.net.promotions
    && n.role == Candidate && n'.role == Leader && n'.term == n.term && n'.votedFor == n.votedFor
    && (forall p :: p in n'.peers ==> n'.peers[p].matchIndex == 0)
    && s'.hist == s.hist.(leaders := s.hist.leaders + {(i, n.term)},
                          leaderLog := s.hist.leaderLog[n.term := n.log],
                          acks := Confirm(s.hist.acks, (i, n.term), |n.log|))
    && s'.net == s.net.(promotions := s'.net.promotions) && s'.net.promotions <= s.net.promotions
  }

  // The leader's commit index moves to an index of its own term that a majority matches.
  ghost predicate CommitsBy(n: Node, n': Node) {
    n'.commitIndex == n.commitIndex ||
    (&& n.commitIndex < n'.commitIndex <= |n'.log|
     && n'.log[n'.commitIndex - 1].term == n'.term
     && 2 * (1 + |set p | p in n'.peers && n'.peers[p].matchIndex >= n'.commitIndex|) > |n'.peers| + 1)
  }

  ghost predicate Extends(s: State, s': State, i: int, cmd: Command) {
    && Touches(s, s', i)
    && var n, n' := s.nodes[i], s'.nodes[i];
    && SameStanding(n, n') && n.role == Leader && n'.peers == n.peers
    && n'.log == n.log + [Entry(|n.log| + 1, n.term, cmd)]
    && CommitsBy(n, n')
    && s'.hist == NoteCommit(s.hist.(leaderLog := s.hist.leaderLog[n.term := n'.log],
                                     acks := Confirm(s.hist.acks, (i, n.term), |n'.log|)), n, n')
    && s'.net == s.net
  }

  ghost predicate Sends(s: State, s': State, i: int, p: int, k: nat) {
    && i in s.nodes && p in s.nodes[i].peers && k <= s.nodes[i].commitIndex
    && s'.nodes == s.nodes && s'.hist == s.hist
    && s'.net == s.net.(appendMsgs := s'.net.appendMsgs)
    && var n := s.nodes[i];
    && (forall m :: m in s'.net.appendMsgs ==>
          || m in s.net.appendMsgs
          || (&& n.role == Leader && m.to == p && m.req.term == n.term && m.req.leader == i && m.req.leaderCommit == k
           && 0 <= m.req.prevLogIndex <= |n.log|
           && m.req.entries == n.log[m.req.prevLogIndex..]
           && (m.req.prevLogIndex > 0 ==> m.req.prevLogTerm == n.log[m.req.prevLogIndex - 1].term)))
    && s.net.appendMsgs <= s'.net.appendMsgs
  }

  // The follower's commit index after an accepted request.
  ghost function CommitAfter(n: Node, req: AppendRequest): int {
    var upTo := req.prevLogIndex + |req.entries|;
    if req.leaderCommit > n.commitIndex && upTo > n.commitIndex
    then (if req.leaderCommit > upTo then upTo else req.leaderCommit) else n.commitIndex
  }

  ghost predicate Accepts(s: State, s': State, m: AppendMsg, answered: bool) {
    var i, req := m.to, m.req;
    var upTo := req.prevLogIndex + |req.entries|;
    && m in s.net.appendMsgs
    && Touches(s, s', i)
    && var n, n' := s.nodes[i], s'.nodes[i];
    && SameMatches(n, n')
    && n.term <= req.term == n'.term
    && (if n.term < n'.term then Retires(n, n') else SameStanding(n, n'))
    && 0 <= req.prevLogIndex <= |n.log|
    && (req.prevLogIndex > 0 ==> n.log[req.prevLogIndex - 1].term == req.prevLogTerm)
    && n'.log == Merge(n.log, req.prevLogIndex, req.entries)
    && n'.commitIndex == (if answered then CommitAfter(n, req) else n.commitIndex)
    && s'.hist == (if answered then s.hist.(acks := Confirm(s.hist.acks, (i, req.term), upTo)) else s.hist)
    && s'.net == s.net.(appendAnswers := s'.net.appendAnswers)
    && (forall a :: a in s'.net.appendAnswers ==> a in s.net.appendAnswers || (answered && a.msg == m))
  }

  ghost predicate Learns(s: State, s': State, v: AppendAnswer) {
    var i := v.msg.req.leader;
    && v in s.net.appendAnswers && v.reply.success
    && Touches(s, s', i)
    && var n, n' := s.nodes[i], s'.nodes[i];
    && SameStanding(n, n') && n.role == Leader && n'.log == n.log && n.term == v.msg.req.term
    && (forall p :: p in n.peers ==>
          || n'.peers[p].matchIndex == n.peers[p].matchIndex
          || (p == v.msg.to && n'.peers[p].matchIndex == v.msg.req.prevLogIndex + |v.msg.req.entries|))
    && CommitsBy(n, n')
    && s'.hist == NoteCommit(s.hist, n, n')
    && s'.net == s.net
  }

  ghost predicate Effect(s: State, s': State) {
    || s' == s
    || (exists i :: Quiet(s, s', i))
    || (exists i :: Campaigns(s, s', i))
    || (exists c :: Asks(s, s', c))
    || (exists m :: Votes(s, s', m))
    || (exists v :: Counts(s, s', v))
    || (exists i :: Crowns(s, s', i))
    || (exists i, cmd :: Extends(s, s', i, cmd))
    || (exists i, p, k :: Sends(s, s', i, p, k))
    || (exists m, answered :: Accepts(s, s', m, answered))
    || (exists v :: Learns(s, s', v))
  }

  // ---- Each action has such an effect ----

  lemma ScanFindsMajority(n: Node, k: int)
    requires n.logBase == 0
    ensures var c := ScanCommit(n, k);
            c == n.commitIndex ||
            (n.commitIndex < c <= |n.log| && n.log[c - 1].term == n.term
             && 2 * (1 + |set p | p in n.peers && n.peers[p].matchIndex >= c|) > |n.peers| + 1)
    decreases k - n.commitIndex
  {
  }

  lemma TimeoutEffect(s: State, i: int, ok: bool)
    requires WellFormed(s.nodes) && i in s.nodes
    ensures Effect(s, DoTimeout(s, i, ok))
  {
    if s.nodes[i].role != Leader {
      assert Campaigns(s, DoTimeout(s, i, ok), i);
    }
  }

  lemma AskVoteEffect(s: State, c: Call)
    requires Enabled(s, AskVote(c), true)
    ensures Effect(s, DoAskVote(s, c))
  {
    assert Asks(s, DoAskVote(s, c), c);
  }

  lemma VoteRequestEffect(s: State, m: VoteMsg, ok: bool)
    requires WellFormed(s.nodes) && Enabled(s, ReceiveVoteRequest(m, ok), true)
    ensures Effect(s, DoReceiveVoteRequest(s, m, ok))
  {
    var s' := DoReceiveVoteRequest(s, m, ok);
    var (n, reply) := HandleRequestVote(s.nodes[m.call.peer], m.req, ok);
    if reply != None && reply.value.granted {
      assert Votes(s, s', m);
    } else {
      assert Quiet(s, s', m.call.peer);
    }
  }

  lemma VoteReplyEffect(s: State, v: VoteAnswer)
    requires WellFormed(s.nodes) && Enabled(s, ReceiveVoteReply(v), true)
    requires CallsOk(s.nodes, s.net, s.hist)
    ensures Effect(s, DoReceiveVoteReply(s, v))
  {
    var s' := DoReceiveVoteReply(s, v);
    var n := s.nodes[v.call.candidate];
    if n.term == v.call.term && n.role == Candidate && v.reply.term <= n.term && v.reply.granted {
      assert Counts(s, s', v);
    } else {
      assert Quiet(s, s', v.call.candidate);
    }
  }

  lemma PromoteEffect(s: State, i: int, t: int)
    requires WellFormed(s.nodes) && Enabled(s, Promote(i, t), true)
    ensures Effect(s, DoPromote(s, i, t))
  {
    var s' := DoPromote(s, i, t);
    if s.nodes[i].role == Candidate {
      assert Crowns(s, s', i);
    } else {
      assert Quiet(s, s', i);
    }
  }

  // What a leader's own append does to it.
  ghost predicate Appended(n: Node, n': Node, cmd: Command) {
    && SameStanding(n, n') && n'.peers == n.peers && n'.id == n.id && n'.logBase == n.logBase
    && n'.sent == n.sent && n'.lastApplied == n.lastApplied
    && n'.log == n.log + [Entry(|n.log| + 1, n.term, cmd)]
    && CommitsBy(n, n')
  }

  lemma AppendedByLeader(n: Node, cmd: Command)
    requires n.role == Leader && n.logBase == 0
    ensures Appended(n, ReplicateCommand(n, cmd, true).0, cmd)
  {
    var m := Persist(n.(log := n.log + [Entry(|n.log| + 1, n.term, cmd)]));
    ScanFindsMajority(m, LastIndex(m));
  }

  lemma AppendExtends(s: State, s': State, i: int, n': Node, cmd: Command)
    requires i in s.nodes && s.nodes[i].role == Leader && Appended(s.nodes[i], n', cmd)
    requires s' == State(s.nodes[i := n'], s.net,
                         NoteCommit(s.hist.(leaderLog := s.hist.leaderLog[n'.term := n'.log],
                                            acks := Confirm(s.hist.acks, (i, n'.term), |n'.log|)), s.nodes[i], n'))
    ensures Extends(s, s', i, cmd)
  {
  }

  lemma ClientCommandEffect(s: State, i: int, cmd: Command, ok: bool)
    requires WellFormed(s.nodes) && i in s.nodes
    ensures Effect(s, DoClientCommand(s, i, cmd, ok))
  {
    if s.nodes[i].role == Leader && ok {
      AppendedByLeader(s.nodes[i], cmd);
      AppendExtends(s, DoClientCommand(s, i, cmd, ok), i, ReplicateCommand(s.nodes[i], cmd, true).0, cmd);
    }
  }

  // An uncompacted leader sends everything after the anchor.
  lemma SentRequest(n: Node, p: int, k: nat)
    requires n.logBase == 0 && n.role == Leader && p in n.peers
    ensures var out := BuildAppend(n, p, n.term, k);
            && out.Send? && out.req.term == n.term && out.req.leader == n.id && out.req.leaderCommit == k
            && 0 <= out.req.prevLogIndex <= |n.log| && out.req.entries == n.log[out.req.prevLogIndex..]
            && (out.req.prevLogIndex > 0 ==> out.req.prevLogTerm == n.log[out.req.prevLogIndex - 1].term)
  {
    BuildsFor(n, p, k, Max(1, n.peers[p].nextIndex));
    assert n.log[0..] == n.log;
  }

  lemma SendAppendEffect(s: State, i: int, p: int, k: nat)
    requires WellFormed(s.nodes) && Enabled(s, SendAppend(i, p, k), true)
    ensures Effect(s, DoSendAppend(s, i, p, k))
  {
    if s.nodes[i].role == Leader { SentRequest(s.nodes[i], p, k); }
    assert Sends(s, DoSendAppend(s, i, p, k), i, p, k);
  }

  ghost predicate Rejected(n: Node, n': Node) {
    && n'.id == n.id && n'.peers == n.peers && n'.logBase == n.logBase
    && n'.sent == n.sent && n'.lastApplied == n.lastApplied
    && SameLog(n, n')
    && (Retires(n, n') || SameStanding(n, n'))
  }

  // What an accepted request does to the follower.
  ghost predicate Accepted(n: Node, n': Node, req: AppendRequest, answered: bool) {
    && n'.id == n.id && n'.peers == n.peers && n'.logBase == n.logBase
    && n'.sent == n.sent && n'.lastApplied == n.lastApplied
    && n.term <= req.term == n'.term
    && (if n.term < n'.term then Retires(n, n') else SameStanding(n, n'))
    && 0 <= req.prevLogIndex <= |n.log|
    && (req.prevLogIndex > 0 ==> n.log[req.prevLogIndex - 1].term == req.prevLogTerm)
    && n'.log == Merge(n.log, req.prevLogIndex, req.entries)
    && n'.commitIndex == (if answered then CommitAfter(n, req) else n.commitIndex)
  }

  lemma FollowerCommitOutcome(n: Node, req: AppendRequest)
    ensures var m := FollowerCommit(n, req);
            m == n.(commitIndex := m.commitIndex, wake := m.wake) && m.commitIndex == CommitAfter(n, req)
  {
  }

  lemma AcceptOutcome(n: Node, req: AppendRequest, ok: bool)
    requires n.logBase == 0 && req.prevLogIndex >= 0 && PrevMatches(n, req)
    ensures var (n', reply) := AcceptEntries(n, req, ok);
            && n' == n.(log := n'.log, commitIndex := n'.commitIndex, wake := n'.wake, disk := n'.disk)
            && n'.log == Merge(n.log, req.prevLogIndex, req.entries)
            && n'.commitIndex == (if reply != None then CommitAfter(n, req) else n.commitIndex)
            && (reply != None ==> reply.value.success && reply.value.term == n.term) && (ok ==> reply != None)
  {
    var merged := n.(log := Merge(n.log, req.prevLogIndex, req.entries));
    FollowerCommitOutcome(n, req);
    FollowerCommitOutcome(merged, req);
    FollowerCommitOutcome(Persist(merged), req);
  }

  lemma AppendOutcome(n: Node, req: AppendRequest, ok: bool)
    requires n.logBase == 0 && req.prevLogIndex >= 0
    ensures InContract(n, req)
    ensures var (n', reply) := HandleAppendEntries(n, req, ok);
            if reply == None then Accepted(n, n', req, false)
            else if reply.value.success then Accepted(n, n', req, true)
            else Rejected(n, n') && (req.term < n.term || req.prevLogIndex > 0)
    ensures var (n', reply) := HandleAppendEntries(n, req, ok);
            && n'.term == (if req.term > n.term then req.term else n.term)
            && (reply != None ==> reply.value.term == n'.term) && (ok ==> reply != None)
  {
    if req.term >= n.term {
      var m := HearLeader(n, req);
      assert m == n.(term := req.term, role := m.role, votedFor := m.votedFor, leaderId := m.leaderId);
      if PrevMatches(m, req) {
        AcceptOutcome(m, req, ok);
        AcceptedFrom(n, m, AcceptEntries(m, req, ok).0, req, AcceptEntries(m, req, ok).1 != None);
      }
    }
  }

  lemma AcceptedFrom(n: Node, m: Node, n': Node, req: AppendRequest, answered: bool)
    requires n.logBase == 0 && req.prevLogIndex >= 0 && n.term <= req.term
    requires m == HearLeader(n, req) && PrevMatches(m, req)
    requires n' == m.(log := n'.log, commitIndex := n'.commitIndex, wake := n'.wake, disk := n'.disk)
    requires n'.log == Merge(m.log, req.prevLogIndex, req.entries)
    requires n'.commitIndex == if answered then CommitAfter(m, req) else m.commitIndex
    ensures Accepted(n, n', req, answered)
  {
  }

  lemma ReceiveAppendEffect(s: State, m: AppendMsg, ok: bool)
    requires WellFormed(s.nodes) && Enabled(s, ReceiveAppend(m, ok), true)
    requires RequestsOk(s.nodes, s.net, s.hist)
    ensures Effect(s, DoReceiveAppend(s, m, ok))
  {
    AppendOutcome(s.nodes[m.to], m.req, ok);
    var (n', reply) := HandleAppendEntries(s.nodes[m.to], m.req, ok);
    AnswerEffect(s, DoReceiveAppend(s, m, ok), m, n', reply);
  }

  lemma AnswerEffect(s: State, s': State, m: AppendMsg, n': Node, reply: Option<AppendReply>)
    requires m in s.net.appendMsgs && m.to in s.nodes
    requires if reply == None then Accepted(s.nodes[m.to], n', m.req, false)
             else if reply.value.success then Accepted(s.nodes[m.to], n', m.req, true)
             else Rejected(s.nodes[m.to], n')
    requires s'.nodes == s.nodes[m.to := n']
    requires reply == None ==> s'.net == s.net && s'.hist == s.hist
    requires reply != None ==>
      && s'.net == s.net.(appendAnswers := s.net.appendAnswers + {AppendAnswer(m, reply.value)})
      && s'.hist == (if reply.value.success
                     then s.hist.(acks := Confirm(s.hist.acks, (m.to, m.req.term), m.req.prevLogIndex + |m.req.entries|))
                     else s.hist)
    ensures Effect(s, s')
  {
    if reply != None && !reply.value.success {
      assert Quiet(s, s', m.to);
    } else {
      assert Accepts(s, s', m, reply != None);
    }
  }

  lemma LearnedNode(n: Node, peer: int, req: AppendRequest, reply: AppendReply)
    requires n.logBase == 0 && peer in n.peers && n.role == Leader && n.term == req.term && reply.term <= n.term && reply.success
    ensures var n' := HandleAppendReply(n, peer, req, reply);
            && SameStanding(n, n') && n'.log == n.log && CommitsBy(n, n') && n'.peers.Keys == n.peers.Keys
            && (forall p :: p in n.peers ==>
                  || n'.peers[p].matchIndex == n.peers[p].matchIndex
                  || (p == peer && n'.peers[p].matchIndex == req.prevLogIndex + |req.entries|))
  {
    var m := RecordMatch(n, peer, req.prevLogIndex + |req.entries|);
    ScanFindsMajority(m, LastIndex(m));
  }

  lemma AppendReplyEffect(s: State, v: AppendAnswer)
    requires WellFormed(s.nodes) && Enabled(s, ReceiveAppendReply(v), true)
    ensures Effect(s, DoReceiveAppendReply(s, v))
  {
    var s' := DoReceiveAppendReply(s, v);
    var i := v.msg.req.leader;
    var n := s.nodes[i];
    if n.role == Leader && n.term == v.msg.req.term && v.reply.term <= n.term && v.reply.success {
      LearnedNode(n, v.msg.to, v.msg.req, v.reply);
      assert Learns(s, s', v);
    } else {
      assert Quiet(s, s', i);
    }
  }

  lemma ActionEffect(s: State, a: Action)
    requires WellFormed(s.nodes) && Enabled(s, a, true)
    requires CallsOk(s.nodes, s.net, s.hist) && RequestsOk(s.nodes, s.net, s.hist)
    ensures Effect(s, Do(s, a))
  {
    match a
    case Timeout(i, ok) => TimeoutEffect(s, i, ok);
    case AskVote(c) => AskVoteEffect(s, c);
    case ReceiveVoteRequest(m, ok) => VoteRequestEffect(s, m, ok);
    case ReceiveVoteReply(v) => VoteReplyEffect(s, v);
    case Promote(i, t) => PromoteEffect(s, i, t);
    case ClientCommand(i, cmd, ok) => ClientCommandEffect(s, i, cmd, ok);
    case SendAppend(i, p, k) => SendAppendEffect(s, i, p, k);
    case ReceiveAppend(m, ok) => ReceiveAppendEffect(s, m, ok);
    case ReceiveAppendReply(v) => AppendReplyEffect(s, v);
    case Wake(i) => assert Quiet(s, Do(s, a), i);
    case Apply(i) =>
      assert DeliversNext(s.nodes[i], ApplyOne(s.nodes[i]));
      assert Quiet(s, Do(s, a), i);
  }
}
