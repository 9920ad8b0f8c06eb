// The whole invariant, and that each effect keeps it.
module ClusterSteps {
  import opened KvTypes
  import opened RaftTypes
  import opened Cluster
  import opened ClusterInvariant
  import opened ClusterEffects
  import opened Quorums
  import opened ElectionSteps
  import opened LeaderSteps
  import opened ReplicationSteps
  import opened CompletenessSteps
  import opened CommitSteps

  ghost predicate ReplicationInv(s: State) {
    && LogsOk(s.nodes, s.hist.leaderLog)
    && LeaderLogsOk(s.hist.leaderLog)
    && LeadersOk(s.nodes, s.hist)
    && RequestsOk(s.nodes, s.net, s.hist)
    && AcksOk(s.nodes, s.hist)
    && AnswersOk(s.net, s.hist)
    && MatchOk(s.nodes, s.hist)
  }

  ghost predicate CompletenessInv(s: State) {
    && VoteInfoOk(s.nodes, s.net, s.hist.leaderLog)
    && VotersOk(s.nodes, s.hist)
    && ElectorsOk(s.hist)
  }

  ghost predicate CommitInv(s: State) {
    && CommitsOk(s.nodes, s.hist)
    && NodeCommitsOk(s.nodes, s.hist)
    && MsgCommitsOk(s.net, s.hist)
    && DeliveredOk(s.nodes)
  }

  ghost predicate Inv(s: State) {
    SafeSize(|s.nodes|) && ElectionInv(s) && ReplicationInv(s) && CompletenessInv(s) && CommitInv(s)
  }

  // ---- Effects that leave logs alone ----

  ghost predicate LogsAlone(s: State, s': State) {
    && SameLogs(s.nodes, s'.nodes) && SameReigns(s.nodes, s'.nodes) && SameProgress(s.nodes, s'.nodes)
    && (forall j :: j in s.nodes ==> DeliversNext(s.nodes[j], s'.nodes[j]))
    && s'.hist == s.hist.(votes := s'.hist.votes, granted := s'.hist.granted)
    && s'.net.appendMsgs == s.net.appendMsgs
    && (forall a :: a in s'.net.appendAnswers ==>
          a in s.net.appendAnswers || (a.msg in s.net.appendMsgs && !a.reply.success))
  }

  lemma LogsAloneLogs(s: State, s': State)
    requires LogsAlone(s, s') && LogsOk(s.nodes, s.hist.leaderLog) && LeadersOk(s.nodes, s.hist)
    requires AcksOk(s.nodes, s.hist) && MatchOk(s.nodes, s.hist)
    ensures LogsOk(s'.nodes, s'.hist.leaderLog) && LeadersOk(s'.nodes, s'.hist)
    ensures AcksOk(s'.nodes, s'.hist) && MatchOk(s'.nodes, s'.hist)
  {
    LogsKept(s.nodes, s'.nodes, s.hist.leaderLog);
    LeadersKept(s.nodes, s'.nodes, s.hist, s'.hist);
    AcksKept(s.nodes, s'.nodes, s.hist);
    MatchKept(s.nodes, s'.nodes, s.hist, s'.hist);
  }

  lemma LogsAloneMessages(s: State, s': State)
    requires LogsAlone(s, s') && RequestsOk(s.nodes, s.net, s.hist) && AnswersOk(s.net, s.hist)
    ensures RequestsOk(s'.nodes, s'.net, s'.hist) && AnswersOk(s'.net, s'.hist)
  {
    RequestsFrame(s.nodes, s'.nodes, s.net, s'.net, s.hist);
    AnswersKept(s.net, s'.net, s.hist, s'.hist);
  }

  lemma LogsAloneReplication(s: State, s': State)
    requires LogsAlone(s, s') && ReplicationInv(s)
    ensures ReplicationInv(s')
  {
    LogsAloneLogs(s, s');
    LogsAloneMessages(s, s');
  }

  lemma LogsAloneCommit(s: State, s': State)
    requires LogsAlone(s, s') && CommitInv(s) && LogsOk(s.nodes, s.hist.leaderLog)
    ensures CommitInv(s')
  {
    CommitsKept(s.nodes, s'.nodes, s.hist, s'.hist);
    NodeCommitsKept(s.nodes, s'.nodes, s.hist, s'.hist);
    MsgCommitsKept(s.net, s'.net, s.hist, s'.hist);
    DeliveredKept(s.nodes, s'.nodes);
  }

  lemma QuietAlone(s: State, s': State, i: int)
    requires Quiet(s, s', i)
    ensures LogsAlone(s, s')
    ensures SameBallots(s.nodes, s'.nodes) && NoneOpened(s.nodes, s'.nodes, s.hist.leaderLog, s'.hist.leaderLog)
  {
  }

  lemma QuietKeeps(s: State, s': State, i: int)
    requires Inv(s) && Quiet(s, s', i)
    ensures Inv(s')
  {
    QuietAlone(s, s', i);
    NoElection(s, s');
    LogsAloneReplication(s, s');
    LogsAloneCommit(s, s');
    InfoKept(s.nodes, s'.nodes, s.net, s'.net, s.hist.leaderLog, s'.hist.leaderLog);
    VotersKept(s.nodes, s'.nodes, s.hist, s'.hist);
  }

  lemma SizeKept(s: State, s': State)
    requires s'.nodes.Keys == s.nodes.Keys
    ensures |s'.nodes| == |s.nodes|
  {
    assert |s'.nodes| == |s'.nodes.Keys| == |s.nodes|;
  }

  lemma CampaignKeeps(s: State, s': State, i: int)
    requires Inv(s) && Campaigns(s, s', i)
    ensures Inv(s')
  {
    SizeKept(s, s');
    CampaignVotes(s, s', i);
    CampaignGranted(s, s', i);
    CampaignCalls(s, s', i);
    CampaignElected(s, s', i);
    CampaignAlone(s, s', i);
    LogsAloneReplication(s, s');
    LogsAloneCommit(s, s');
    CampaignInfo(s, s', i);
    CampaignVoters(s, s', i);
    CampaignElectors(s, s', i);
  }

  lemma CampaignAlone(s: State, s': State, i: int)
    requires Campaigns(s, s', i) && LeadersOk(s.nodes, s.hist)
    ensures LogsAlone(s, s')
  {
  }

  lemma CampaignElectors(s: State, s': State, i: int)
    requires Campaigns(s, s', i) && ElectionInv(s) && ReplicationInv(s) && ElectorsOk(s.hist)
    ensures ElectorsOk(s'.hist)
  {
    ElectorsKept(s.nodes, s.hist, s'.hist);
  }

  lemma AskElection(s: State, s': State, c: Call)
    requires ElectionInv(s) && Asks(s, s', c)
    ensures ElectionInv(s')
  {
  }

  lemma AskLogs(s: State, s': State, c: Call)
    requires ReplicationInv(s) && CommitInv(s) && Asks(s, s', c)
    ensures ReplicationInv(s') && CommitInv(s')
  {
    assert s'.net.appendMsgs == s.net.appendMsgs && s'.net.appendAnswers == s.net.appendAnswers;
  }

  lemma AskKeeps(s: State, s': State, c: Call)
    requires Inv(s) && Asks(s, s', c)
    ensures Inv(s')
  {
    AskElection(s, s', c);
    AskLogs(s, s', c);
    AskInfo(s, s', c);
  }

  lemma VoteAlone(s: State, s': State, m: VoteMsg)
    requires Votes(s, s', m)
    ensures LogsAlone(s, s')
  {
  }

  lemma VoteKeeps(s: State, s': State, m: VoteMsg)
    requires Inv(s) && Votes(s, s', m)
    ensures Inv(s')
  {
    SizeKept(s, s');
    VoteExtends(s, s', m);
    VoteCounts(s, s', m);
    VoteAlone(s, s', m);
    LogsAloneReplication(s, s');
    LogsAloneCommit(s, s');
    VoteInfo(s, s', m);
    VoteVoters(s, s', m);
    VoteElectors(s, s', m);
  }

  lemma VoteInfo(s: State, s': State, m: VoteMsg)
    requires Votes(s, s', m) && VoteInfoOk(s.nodes, s.net, s.hist.leaderLog)
    ensures VoteInfoOk(s'.nodes, s'.net, s'.hist.leaderLog)
  {
    InfoKept(s.nodes, s'.nodes, s.net, s'.net, s.hist.leaderLog, s'.hist.leaderLog);
  }

  lemma VoteElectors(s: State, s': State, m: VoteMsg)
    requires Votes(s, s', m) && ElectionInv(s) && ReplicationInv(s) && ElectorsOk(s.hist)
    ensures ElectorsOk(s'.hist)
  {
    ElectorsKept(s.nodes, s.hist, s'.hist);
  }

  lemma CountAlone(s: State, s': State, v: VoteAnswer)
    requires Counts(s, s', v)
    ensures LogsAlone(s, s') && NoneOpened(s.nodes, s'.nodes, s.hist.leaderLog, s'.hist.leaderLog)
  {
  }

  lemma CountElectors(s: State, s': State, v: VoteAnswer)
    requires Counts(s, s', v) && ElectionInv(s) && ReplicationInv(s) && ElectorsOk(s.hist)
    ensures ElectorsOk(s'.hist)
  {
    ElectorsKept(s.nodes, s.hist, s'.hist);
  }

  lemma CountKeeps(s: State, s': State, v: VoteAnswer)
    requires Inv(s) && Counts(s, s', v)
    ensures Inv(s')
  {
    SizeKept(s, s');
    CountBallots(s, s', v);
    CountGranted(s, s', v);
    CountCalls(s, s', v);
    CountElected(s, s', v);
    CountAlone(s, s', v);
    LogsAloneReplication(s, s');
    LogsAloneCommit(s, s');
    InfoKept(s.nodes, s'.nodes, s.net, s'.net, s.hist.leaderLog, s'.hist.leaderLog);
    VotersKept(s.nodes, s'.nodes, s.hist, s'.hist);
    CountElectors(s, s', v);
  }

  // ---- A new leader ----

  lemma CrownsElection(s: State, s': State, i: int)
    requires ElectionInv(s) && Crowns(s, s', i)
    ensures ElectionInv(s')
  {
    SizeKept(s, s');
    CrownsCounts(s, s', i);
  }

  lemma CrownsCounts(s: State, s': State, i: int)
    requires GrantedOk(s.nodes, s.hist) && CallsOk(s.nodes, s.net, s.hist) && ElectedOk(s.nodes, s.net, s.hist)
    requires Crowns(s, s', i) && |s'.nodes| == |s.nodes|
    ensures GrantedOk(s'.nodes, s'.hist) && CallsOk(s'.nodes, s'.net, s'.hist) && ElectedOk(s'.nodes, s'.net, s'.hist)
  {
  }

  lemma CrownsReplication(s: State, s': State, i: int)
    requires ReplicationInv(s) && Crowns(s, s', i) && s.nodes[i].term !in s.hist.leaderLog
    ensures ReplicationInv(s') && AcksGrow(s.hist.acks, s'.hist.acks)
    ensures LogsGrow(s.hist.leaderLog, s'.hist.leaderLog)
  {
    CrownsGrow(s, s', i);
    CrownsLogs(s, s', i);
    CrownsLeaders(s, s', i);
    RequestsKept(s.nodes, s.net, s.hist, s'.hist);
    RequestsFrame(s.nodes, s'.nodes, s.net, s'.net, s'.hist);
    CrownsAcks(s, s', i);
    AnswersKept(s.net, s'.net, s.hist, s'.hist);
    CrownsMatch(s, s', i);
  }

  lemma CrownsCompleteness(s: State, s': State, i: int)
    requires ElectionInv(s) && ReplicationInv(s) && CompletenessInv(s)
    requires Crowns(s, s', i) && s.nodes[i].term !in s.hist.leaderLog
    requires LogsGrow(s.hist.leaderLog, s'.hist.leaderLog)
    ensures CompletenessInv(s')
  {
    InfoKept(s.nodes, s'.nodes, s.net, s'.net, s.hist.leaderLog, s'.hist.leaderLog);
    VotersKept(s.nodes, s'.nodes, s.hist, s'.hist);
    CrownsElectors(s, s', i);
  }

  lemma CrownsCommit(s: State, s': State, i: int)
    requires CommitInv(s) && LogsOk(s.nodes, s.hist.leaderLog) && Crowns(s, s', i)
    requires LogsGrow(s.hist.leaderLog, s'.hist.leaderLog) && AcksGrow(s.hist.acks, s'.hist.acks)
    ensures CommitInv(s')
  {
    CommitsKept(s.nodes, s'.nodes, s.hist, s'.hist);
    NodeCommitsKept(s.nodes, s'.nodes, s.hist, s'.hist);
    MsgCommitsKept(s.net, s'.net, s.hist, s'.hist);
    DeliveredKept(s.nodes, s'.nodes);
  }

  lemma CrownsKeeps(s: State, s': State, i: int)
    requires Inv(s) && Crowns(s, s', i)
    ensures Inv(s')
  {
    SizeKept(s, s');
    CrownsNewTerm(s, s', i);
    CrownsElection(s, s', i);
    CrownsReplication(s, s', i);
    CrownsCompleteness(s, s', i);
    CrownsCommit(s, s', i);
  }

  // ---- The leader appends ----

  lemma ExtendsAlone(s: State, s': State, i: int, cmd: Command)
    requires Extends(s, s', i, cmd) && LogsGrow(s.hist.leaderLog, s'.hist.leaderLog)
    ensures SameBallots(s.nodes, s'.nodes) && NoneOpened(s.nodes, s'.nodes, s.hist.leaderLog, s'.hist.leaderLog)
    ensures OnlyCurrentAcks(s.nodes, s.hist, s'.hist)
    ensures SameElections(s.hist, s'.hist) && NoNewVotes(s.net, s'.net)
  {
  }

  lemma LeaderTermPositive(s: State, i: int)
    requires ElectionInv(s) && LeadersOk(s.nodes, s.hist) && i in s.nodes && s.nodes[i].role == Leader
    ensures s.nodes[i].term >= 1
  {
    assert Elected(s.nodes, s.hist, i, s.nodes[i].term);
  }

  lemma ExtendsReplication(s: State, s': State, i: int, cmd: Command)
    requires ReplicationInv(s) && OneLeaderPerTerm(s.hist.leaders) && Extends(s, s', i, cmd) && s.nodes[i].term >= 1
    ensures ReplicationInv(s') && AcksGrow(s.hist.acks, s'.hist.acks)
    ensures LogsGrow(s.hist.leaderLog, s'.hist.leaderLog)
  {
    ExtendsGrow(s, s', i, cmd);
    ExtendsLogs(s, s', i, cmd);
    ExtendsLeaders(s, s', i, cmd);
    RequestsKept(s.nodes, s.net, s.hist, s'.hist);
    RequestsFrame(s.nodes, s'.nodes, s.net, s'.net, s'.hist);
    ExtendsAcks(s, s', i, cmd);
    AnswersKept(s.net, s'.net, s.hist, s'.hist);
    ExtendsMatch(s, s', i, cmd);
  }

  lemma ExtendsCompleteness(s: State, s': State, i: int, cmd: Command)
    requires ElectionInv(s) && ReplicationInv(s) && CompletenessInv(s) && Extends(s, s', i, cmd)
    requires LogsGrow(s.hist.leaderLog, s'.hist.leaderLog)
    ensures CompletenessInv(s')
  {
    ExtendsAlone(s, s', i, cmd);
    ExtendsGrow(s, s', i, cmd);
    InfoKept(s.nodes, s'.nodes, s.net, s'.net, s.hist.leaderLog, s'.hist.leaderLog);
    VotersKept(s.nodes, s'.nodes, s.hist, s'.hist);
    ElectorsKept(s.nodes, s.hist, s'.hist);
  }

  // The commit part of a step in which leader i may advance its own index.
  lemma LeaderCommit(s: State, s': State, i: int)
    requires CommitInv(s) && LogsOk(s.nodes, s.hist.leaderLog)
    requires Touches(s, s', i) && s'.nodes[i].role == Leader && s.nodes[i].log <= s'.nodes[i].log
    requires CommitsBy(s.nodes[i], s'.nodes[i]) && s'.nodes[i].commitIndex <= |s'.nodes[i].log|
    requires s'.hist.committed == NoteCommit(s.hist, s.nodes[i], s'.nodes[i]).committed
    requires LogsGrow(s.hist.leaderLog, s'.hist.leaderLog) && AcksGrow(s.hist.acks, s'.hist.acks)
    requires WellFormed(s'.nodes) && MatchOk(s'.nodes, s'.hist) && LeadersOk(s'.nodes, s'.hist)
    requires s'.net == s.net
    requires s'.nodes[i].term == s.nodes[i].term
    ensures CommitInv(s')
  {
    NotedCommits(s.nodes, s'.nodes, s.hist, s'.hist, i);
    LeaderBacked(s, s', i);
    MsgCommitsKept(s.net, s'.net, s.hist, s'.hist);
    LeaderDelivered(s, s', i);
  }

  lemma LeaderBacked(s: State, s': State, i: int)
    requires NodeCommitsOk(s.nodes, s.hist) && LeadersOk(s'.nodes, s'.hist)
    requires Touches(s, s', i) && s'.nodes[i].role == Leader && s.nodes[i].log <= s'.nodes[i].log
    requires s.nodes[i].commitIndex <= s'.nodes[i].commitIndex <= |s'.nodes[i].log|
    requires s'.hist.committed == NoteCommit(s.hist, s.nodes[i], s'.nodes[i]).committed
    requires LogsGrow(s.hist.leaderLog, s'.hist.leaderLog)
    ensures NodeCommitsOk(s'.nodes, s'.hist)
  {
    if s'.nodes[i].commitIndex != s.nodes[i].commitIndex {
      NewCommitBacked(s'.nodes, s'.hist, i);
    }
    NodeCommitsKept(s.nodes, s'.nodes, s.hist, s'.hist);
  }

  lemma LeaderDelivered(s: State, s': State, i: int)
    requires DeliveredOk(s.nodes) && LogsOk(s.nodes, s.hist.leaderLog)
    requires Touches(s, s', i) && s.nodes[i].log <= s'.nodes[i].log
    requires s.nodes[i].commitIndex <= s'.nodes[i].commitIndex <= |s'.nodes[i].log|
    ensures DeliveredOk(s'.nodes)
  {
    DeliveredKept(s.nodes, s'.nodes);
  }

  lemma ExtendsKeeps(s: State, s': State, i: int, cmd: Command)
    requires Inv(s) && Extends(s, s', i, cmd)
    ensures Inv(s')
  {
    SizeKept(s, s');
    OneLeader(s.nodes, s.net, s.hist);
    LeaderTermPositive(s, i);
    ExtendsReplication(s, s', i, cmd);
    ExtendsAlone(s, s', i, cmd);
    NoElection(s, s');
    ExtendsCompleteness(s, s', i, cmd);
    assert s.nodes[i].commitIndex <= |s.nodes[i].log|;
    LeaderCommit(s, s', i);
  }

  // ---- The leader sends and learns ----

  lemma SendsKeeps(s: State, s': State, i: int, p: int, k: nat)
    requires Inv(s) && Sends(s, s', i, p, k)
    ensures Inv(s')
  {
    NoElection(s, s');
    SendsRequests(s, s', i, p, k);
    AnswersKept(s.net, s'.net, s.hist, s'.hist);
    InfoKept(s.nodes, s'.nodes, s.net, s'.net, s.hist.leaderLog, s'.hist.leaderLog);
    SendsMsgCommits(s, s', i, p, k);
  }

  lemma LearnsAlone(s: State, s': State, v: AppendAnswer)
    requires Learns(s, s', v)
    ensures SameBallots(s.nodes, s'.nodes) && SameReigns(s.nodes, s'.nodes)
    ensures NoneOpened(s.nodes, s'.nodes, s.hist.leaderLog, s'.hist.leaderLog)
    ensures OnlyCurrentAcks(s.nodes, s.hist, s'.hist)
    ensures SameElections(s.hist, s'.hist) && NoNewVotes(s.net, s'.net)
  {
  }

  lemma LearnsReplication(s: State, s': State, v: AppendAnswer)
    requires ReplicationInv(s) && Learns(s, s', v) && SameReigns(s.nodes, s'.nodes)
    ensures ReplicationInv(s')
  {
    LearnsLogs(s, s', v);
    LeadersKept(s.nodes, s'.nodes, s.hist, s'.hist);
    RequestsKept(s.nodes, s.net, s.hist, s'.hist);
    RequestsFrame(s.nodes, s'.nodes, s.net, s'.net, s'.hist);
    AnswersKept(s.net, s'.net, s.hist, s'.hist);
    LearnsMatch(s, s', v);
  }

  lemma LearnsLogs(s: State, s': State, v: AppendAnswer)
    requires LogsOk(s.nodes, s.hist.leaderLog) && AcksOk(s.nodes, s.hist) && Learns(s, s', v)
    ensures LogsOk(s'.nodes, s'.hist.leaderLog) && AcksOk(s'.nodes, s'.hist)
  {
    forall a, t, n: nat | Acked(s'.hist.acks, a, t, n)
      ensures Retains(s'.nodes[a], s'.hist.leaderLog, t, n)
    {
      assert Retains(s.nodes[a], s.hist.leaderLog, t, n);
    }
  }

  lemma LearnsCompleteness(s: State, s': State, v: AppendAnswer)
    requires ElectionInv(s) && ReplicationInv(s) && CompletenessInv(s) && Learns(s, s', v)
    ensures CompletenessInv(s')
  {
    LearnsAlone(s, s', v);
    InfoKept(s.nodes, s'.nodes, s.net, s'.net, s.hist.leaderLog, s'.hist.leaderLog);
    VotersKept(s.nodes, s'.nodes, s.hist, s'.hist);
    ElectorsKept(s.nodes, s.hist, s'.hist);
  }

  lemma LearnsKeeps(s: State, s': State, v: AppendAnswer)
    requires Inv(s) && Learns(s, s', v)
    ensures Inv(s')
  {
    SizeKept(s, s');
    LearnsAlone(s, s', v);
    NoElection(s, s');
    LearnsReplication(s, s', v);
    LearnsCompleteness(s, s', v);
    LeaderCommit(s, s', v.msg.req.leader);
  }

  // ---- A follower accepts ----

  // A leader never accepts a request of its own term: it would be its own.
  lemma AcceptsAlone(s: State, s': State, m: AppendMsg, answered: bool)
    requires LeadersOk(s.nodes, s.hist) && OneLeaderPerTerm(s.hist.leaders) && RequestsOk(s.nodes, s.net, s.hist)
    requires Accepts(s, s', m, answered)
    ensures SameBallots(s.nodes, s'.nodes) && SameReigns(s.nodes, s'.nodes) && SameProgress(s.nodes, s'.nodes)
    ensures NoneOpened(s.nodes, s'.nodes, s.hist.leaderLog, s'.hist.leaderLog)
    ensures OnlyCurrentAcks(s.nodes, s.hist, s'.hist)
    ensures SameElections(s.hist, s'.hist) && NoNewVotes(s.net, s'.net)
  {
    assert RequestOk(s.nodes, s.hist, m.to, m.req);
  }

  lemma AcceptsReplication(s: State, s': State, m: AppendMsg, answered: bool)
    requires ReplicationInv(s) && OneLeaderPerTerm(s.hist.leaders) && Accepts(s, s', m, answered)
    ensures ReplicationInv(s') && AcksGrow(s.hist.acks, s'.hist.acks)
  {
    AcceptsAlone(s, s', m, answered);
    AcceptsLogs(s, s', m, answered);
    LeadersKept(s.nodes, s'.nodes, s.hist, s'.hist);
    RequestsKept(s.nodes, s.net, s.hist, s'.hist);
    RequestsFrame(s.nodes, s'.nodes, s.net, s'.net, s'.hist);
    AcceptsAcks(s, s', m, answered);
    AcceptsAnswers(s, s', m, answered);
    MatchKept(s.nodes, s'.nodes, s.hist, s'.hist);
  }

  lemma AcceptsCompleteness(s: State, s': State, m: AppendMsg, answered: bool)
    requires ElectionInv(s) && ReplicationInv(s) && CompletenessInv(s)
    requires OneLeaderPerTerm(s.hist.leaders) && Accepts(s, s', m, answered)
    ensures CompletenessInv(s')
  {
    AcceptsAlone(s, s', m, answered);
    InfoKept(s.nodes, s'.nodes, s.net, s'.net, s.hist.leaderLog, s'.hist.leaderLog);
    VotersKept(s.nodes, s'.nodes, s.hist, s'.hist);
    ElectorsKept(s.nodes, s.hist, s'.hist);
  }

  lemma AcceptsCommit(s: State, s': State, m: AppendMsg, answered: bool)
    requires ElectionInv(s) && ReplicationInv(s) && ElectorsOk(s.hist) && CommitInv(s)
    requires Accepts(s, s', m, answered) && AcksGrow(s.hist.acks, s'.hist.acks)
    ensures CommitInv(s')
  {
    AcceptsAdopts(s, s', m, answered);
    AcceptsCommits(s, s', m, answered);
    CommitsKept(s.nodes, s'.nodes, s.hist, s'.hist);
    MsgCommitsKept(s.net, s'.net, s.hist, s'.hist);
    AcceptsDelivered(s, s', m, answered);
  }

  lemma AcceptsDelivered(s: State, s': State, m: AppendMsg, answered: bool)
    requires DeliveredOk(s.nodes) && LogsOk(s.nodes, s.hist.leaderLog) && Accepts(s, s', m, answered)
    requires s.nodes[m.to].commitIndex <= |s'.nodes[m.to].log| && s'.nodes[m.to].commitIndex <= |s'.nodes[m.to].log|
    requires s'.nodes[m.to].log[..s.nodes[m.to].commitIndex] == s.nodes[m.to].log[..s.nodes[m.to].commitIndex]
    ensures DeliveredOk(s'.nodes)
  {
    DeliveredKept(s.nodes, s'.nodes);
  }

  lemma AcceptsKeeps(s: State, s': State, m: AppendMsg, answered: bool)
    requires Inv(s) && Accepts(s, s', m, answered)
    ensures Inv(s')
  {
    SizeKept(s, s');
    OneLeader(s.nodes, s.net, s.hist);
    AcceptsAlone(s, s', m, answered);
    NoElection(s, s');
    AcceptsReplication(s, s', m, answered);
    AcceptsCompleteness(s, s', m, answered);
    AcceptsCommit(s, s', m, answered);
  }

  // ---- Every action ----

  lemma EffectKeeps(s: State, s': State)
    requires Inv(s) && Effect(s, s')
    ensures Inv(s')
  {
    if s' == s {
    } else if i :| Quiet(s, s', i) { QuietKeeps(s, s', i);
    } else if i :| Campaigns(s, s', i) { CampaignKeeps(s, s', i);
    } else if c :| Asks(s, s', c) { AskKeeps(s, s', c);
    } else if m :| Votes(s, s', m) { VoteKeeps(s, s', m);
    } else if v :| Counts(s, s', v) { CountKeeps(s, s', v);
    } else if i :| Crowns(s, s', i) { CrownsKeeps(s, s', i);
    } else if i, cmd :| Extends(s, s', i, cmd) { ExtendsKeeps(s, s', i, cmd);
    } else if i, p, k :| Sends(s, s', i, p, k) { SendsKeeps(s, s', i, p, k);
    } else if m, answered :| Accepts(s, s', m, answered) { AcceptsKeeps(s, s', m, answered);
    } else {
      var v :| Learns(s, s', v);
      LearnsKeeps(s, s', v);
    }
  }
}
