// The cluster as a transition system: every action is one critical section of
// one node, run by the functions of NodeSpec. Requests may be lost, delayed,
// reordered and repeated (a message, once sent, stays available); a goroutine
// consumes the answer to its own vote request at most once.
module Cluster {
  import opened KvTypes
  import opened RaftTypes
  import opened NodeSpec

  // One sendRequestVote goroutine.
  datatype Call = Call(candidate: int, term: int, peer: int)

  datatype VoteMsg = VoteMsg(call: Call, req: VoteRequest)
  datatype VoteAnswer = VoteAnswer(call: Call, reply: VoteReply)
  datatype AppendMsg = AppendMsg(to: int, req: AppendRequest)
  datatype AppendAnswer = AppendAnswer(msg: AppendMsg, reply: AppendReply)

  // `promotions` holds the becomeLeader calls that have not run yet, as
  // (candidate, term in which its votes were counted).
  datatype Network = Network(
    calls: set<Call>,
    voteMsgs: set<VoteMsg>,
    voteAnswers: set<VoteAnswer>,
    promotions: set<(int, int)>,
    appendMsgs: set<AppendMsg>,
    appendAnswers: set<AppendAnswer>)

  // What has happened so far; no action reads it.
  //   votes      (voter, term) -> candidate
  //   granted    (candidate, term) -> the voters it has counted
  //   leaders    every (node, term) promotion
  //   leaderLog  term -> the log of that term's leader
  //   acks       (node, term) -> how far it has confirmed that leader's log
  //   committed  every (term, index) committed by a leader's own count
  datatype History = History(
    votes: map<(int, int), int>,
    granted: map<(int, int), set<int>>,
    leaders: set<(int, int)>,
    leaderLog: map<int, seq<Entry>>,
    acks: map<(int, int), nat>,
    committed: set<(int, nat)>)

  datatype State = State(nodes: map<int, Node>, net: Network, hist: History)

  datatype Action =
    | Timeout(node: int, ok: bool)
    | AskVote(call: Call)
    | ReceiveVoteRequest(voteMsg: VoteMsg, ok: bool)
    | ReceiveVoteReply(voteAnswer: VoteAnswer)
    | Promote(node: int, countedIn: int)
    | ClientCommand(node: int, cmd: Command, ok: bool)
    | SendAppend(node: int, peer: int, commitIdx: nat)
    | ReceiveAppend(appendMsg: AppendMsg, ok: bool)
    | ReceiveAppendReply(appendAnswer: AppendAnswer)
    | Wake(node: int)
    | Apply(node: int)

  function InitialState(ids: set<int>): State {
    State(map i | i in ids :: FreshNode(i, ids - {i}, Disk(None, None)),
          Network({}, {}, {}, {}, {}, {}),
          History(map[], map[], {}, map[], map[], {}))
  }

  // With `timely`, becomeLeader runs in the term in which the votes were
  // counted. The source drops its lock in between and does not check.
  predicate Enabled(s: State, a: Action, timely: bool) {
    match a
    case Timeout(i, _) => i in s.nodes
    case AskVote(c) => c in s.net.calls && c.candidate in s.nodes
    case ReceiveVoteRequest(m, _) => m in s.net.voteMsgs && m.call.peer in s.nodes
    case ReceiveVoteReply(v) => v in s.net.voteAnswers && v.call in s.net.calls && v.call.candidate in s.nodes
    case Promote(i, t) => (i, t) in s.net.promotions && i in s.nodes && (timely ==> s.nodes[i].term == t)
    case ClientCommand(i, _, _) => i in s.nodes
    // commitIdx was read in an earlier critical section of the same term.
    case SendAppend(i, p, k) => i in s.nodes && p in s.nodes[i].peers && k <= s.nodes[i].commitIndex
    case ReceiveAppend(m, _) => m in s.net.appendMsgs && m.to in s.nodes
    case ReceiveAppendReply(v) =>
      v in s.net.appendAnswers && v.msg.req.leader in s.nodes && v.msg.to in s.nodes[v.msg.req.leader].peers
    case Wake(i) => i in s.nodes
    case Apply(i) => i in s.nodes && s.nodes[i].applying
  }

  function DoTimeout(s: State, i: int, ok: bool): State
    requires i in s.nodes
  {
    var (n, started) := BecomeCandidate(s.nodes[i], ok);
    if s.nodes[i].role == Leader then s
    else
      var h := s.hist.(votes := s.hist.votes[(i, n.term) := i], granted := s.hist.granted[(i, n.term) := {i}]);
      var net :=
        if !started then s.net
        else if n.peers == map[] then s.net.(promotions := s.net.promotions + {(i, n.term)})
        else s.net.(calls := s.net.calls + set p | p in n.peers :: Call(i, n.term, p));
      State(s.nodes[i := n], net, h)
  }

  // The goroutine reads the log when it sends, not when the election began.
  function DoAskVote(s: State, c: Call): State
    requires c.candidate in s.nodes
  {
    var (lastIdx, lastTerm) := LastLogInfo(s.nodes[c.candidate].log);
    s.(net := s.net.(voteMsgs := s.net.voteMsgs + {VoteMsg(c, VoteRequest(c.term, c.candidate, lastIdx, lastTerm))}))
  }

  function DoReceiveVoteRequest(s: State, m: VoteMsg, ok: bool): State
    requires m.call.peer in s.nodes
  {
    var v := m.call.peer;
    var (n, reply) := HandleRequestVote(s.nodes[v], m.req, ok);
    if reply == None then s.(nodes := s.nodes[v := n])
    else
      State(s.nodes[v := n],
            s.net.(voteAnswers := s.net.voteAnswers + {VoteAnswer(m.call, reply.value)}),
            if reply.value.granted then s.hist.(votes := s.hist.votes[(v, n.term) := m.req.candidate]) else s.hist)
  }

  function DoReceiveVoteReply(s: State, v: VoteAnswer): State
    requires v.call.candidate in s.nodes
  {
    var c := v.call.candidate;
    var (n, promote) := CountVote(s.nodes[c], v.call.term, v.reply);
    var key := (c, v.call.term);
    var sofar := if key in s.hist.granted then s.hist.granted[key] else {};
    State(s.nodes[c := n],
          s.net.(calls := s.net.calls - {v.call},
                 promotions := if promote then s.net.promotions + {key} else s.net.promotions),
          if n.role == Candidate && n.votes > s.nodes[c].votes then s.hist.(granted := s.hist.granted[key := sofar + {v.call.peer}])
          else s.hist)
  }

  function DoPromote(s: State, i: int, t: int): State
    requires i in s.nodes
  {
    var n := BecomeLeader(s.nodes[i]);
    State(s.nodes[i := n],
          s.net.(promotions := s.net.promotions - {(i, t)}),
          if s.nodes[i].role != Candidate then s.hist
          else s.hist.(leaders := s.hist.leaders + {(i, n.term)},
                       leaderLog := s.hist.leaderLog[n.term := n.log],
                       acks := Confirm(s.hist.acks, (i, n.term), |n.log|)))
  }

  function Confirm(acks: map<(int, int), nat>, key: (int, int), k: nat): map<(int, int), nat> {
    if key in acks && acks[key] >= k then acks else acks[key := k]
  }

  function NoteCommit(h: History, before: Node, after: Node): History {
    if after.commitIndex > before.commitIndex
    then h.(committed := h.committed + {(after.term, after.commitIndex)}) else h
  }

  function DoClientCommand(s: State, i: int, cmd: Command, ok: bool): State
    requires i in s.nodes
  {
    var (n, idx) := ReplicateCommand(s.nodes[i], cmd, ok);
    if idx == None then s
    else
      var h := s.hist.(leaderLog := s.hist.leaderLog[n.term := n.log],
                       acks := Confirm(s.hist.acks, (i, n.term), |n.log|));
      State(s.nodes[i := n], s.net, NoteCommit(h, s.nodes[i], n))
  }

  function DoSendAppend(s: State, i: int, p: int, k: nat): State
    requires i in s.nodes && p in s.nodes[i].peers
  {
    match BuildAppend(s.nodes[i], p, s.nodes[i].term, k)
    case Send(req) => s.(net := s.net.(appendMsgs := s.net.appendMsgs + {AppendMsg(p, req)}))
    case _ => s
  }

  function DoReceiveAppend(s: State, m: AppendMsg, ok: bool): State
    requires m.to in s.nodes
  {
    // Out of contract the process panics before it answers.
    if !InContract(s.nodes[m.to], m.req) then s
    else
      var (n, reply) := HandleAppendEntries(s.nodes[m.to], m.req, ok);
      if reply == None then s.(nodes := s.nodes[m.to := n])
      else
        var upTo := m.req.prevLogIndex + |m.req.entries|;
        State(s.nodes[m.to := n],
              s.net.(appendAnswers := s.net.appendAnswers + {AppendAnswer(m, reply.value)}),
              if reply.value.success && upTo >= 0
              then s.hist.(acks := Confirm(s.hist.acks, (m.to, m.req.term), upTo)) else s.hist)
  }

  function DoReceiveAppendReply(s: State, v: AppendAnswer): State
    requires v.msg.req.leader in s.nodes && v.msg.to in s.nodes[v.msg.req.leader].peers
  {
    var i := v.msg.req.leader;
    var n := HandleAppendReply(s.nodes[i], v.msg.to, v.msg.req, v.reply);
    State(s.nodes[i := n], s.net, NoteCommit(s.hist, s.nodes[i], n))
  }

  function Do(s: State, a: Action): State
    requires Enabled(s, a, false)
  {
    match a
    case Timeout(i, ok) => DoTimeout(s, i, ok)
    case AskVote(c) => DoAskVote(s, c)
    case ReceiveVoteRequest(m, ok) => DoReceiveVoteRequest(s, m, ok)
    case ReceiveVoteReply(v) => DoReceiveVoteReply(s, v)
    case Promote(i, t) => DoPromote(s, i, t)
    case ClientCommand(i, cmd, ok) => DoClientCommand(s, i, cmd, ok)
    case SendAppend(i, p, k) => DoSendAppend(s, i, p, k)
    case ReceiveAppend(m, ok) => DoReceiveAppend(s, m, ok)
    case ReceiveAppendReply(v) => DoReceiveAppendReply(s, v)
    case Wake(i) => s.(nodes := s.nodes[i := WakeUp(s.nodes[i])])
    case Apply(i) => s.(nodes := s.nodes[i := ApplyOne(s.nodes[i])])
  }

  ghost predicate StepAt(timely: bool, run: seq<State>, acts: seq<Action>, k: nat)
    requires |run| == |acts| + 1 && k < |acts|
  {
    Enabled(run[k], acts[k], timely) && run[k + 1] == Do(run[k], acts[k])
  }

  // A finite run of a cluster of freshly started nodes.
  ghost predicate IsRun(ids: set<int>, timely: bool, run: seq<State>, acts: seq<Action>) {
    && |run| == |acts| + 1
    && run[0] == InitialState(ids)
    && (forall k :: 0 <= k < |acts| ==> StepAt(timely, run, acts, k))
  }

  // Server ids are non-negative (Config.validate).
  predicate ValidIds(ids: set<int>) {
    ids != {} && forall i :: i in ids ==> i >= 0
  }
}
