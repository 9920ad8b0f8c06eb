// What a node that is started again recovers from its files, and what becomes
// of its term and vote (raft/raft.go, raft/election.go).
module Recovery {
  import opened KvTypes
  import opened RaftTypes
  import opened NodeSpec
  import opened ReplicationSpec
  import opened ElectionSpec
  import KvSpec
  import D = Durability

  // ---- The round trip ----

  // The node as it starts, before it knows of anybody else.
  ghost predicate Idle(n: Node, id: int, peerIds: set<int>) {
    && n.id == id && n.peers.Keys == peerIds && (forall p :: p in peerIds ==> n.peers[p] == Peer(1, 0))
    && n.role == Follower && n.leaderId == NO_ONE && n.votes == 0 && !n.wake && !n.applying
  }

  // What was saved is what is recovered: term, vote and log, and with a
  // snapshot its place in the log and its data, which the state machine is told
  // of first. The whole log counts as committed; what lies beyond the snapshot
  // has yet to be applied.
  lemma RoundTrip(n: Node)
    ensures var m := LoadPersisted(n.id, n.peers.Keys, SaveBoth(n, true, true).disk);
            && Idle(m, n.id, n.peers.Keys)
            && m.term == n.term && m.votedFor == n.votedFor && m.log == n.log
            && m.snap == n.snap && m.logBase == m.lastApplied == n.snap.index
            && m.commitIndex == (if n.log == [] then n.snap.index else Max(n.snap.index, n.log[|n.log| - 1].index))
            && m.sent == [SnapshotMsg(n.snap.data, n.snap.index, n.snap.term)]
  {
  }

  // The same without a snapshot, except that the whole log counts as applied.
  lemma RoundTripUncompacted(n: Node)
    requires n.disk.snapshot == None
    ensures var m := LoadPersisted(n.id, n.peers.Keys, Persist(n).disk);
            && Idle(m, n.id, n.peers.Keys)
            && m.term == n.term && m.votedFor == n.votedFor && m.log == n.log
            && m.snap == NO_SNAPSHOT && m.logBase == 0 && m.sent == []
            && m.commitIndex == m.lastApplied == (if n.log == [] then 0 else Max(0, n.log[|n.log| - 1].index))
  {
  }

  // Without a raft-state file there is nothing to recover, whatever else there is.
  lemma NothingSaved(id: int, peerIds: set<int>, disk: Disk)
    requires disk.saved == None
    ensures var m := LoadPersisted(id, peerIds, disk);
            && Idle(m, id, peerIds) && m.term == 0 && m.votedFor == NO_ONE && m.log == [] && m.snap == NO_SNAPSHOT
            && m.logBase == m.commitIndex == m.lastApplied == 0 && m.sent == [] && m.disk == disk
  {
  }

  // ---- Votes ----

  function Again(n: Node): Node {
    LoadPersisted(n.id, n.peers.Keys, n.disk)
  }

  // A candidate's vote for itself is saved with the term before anyone is asked.
  lemma OwnVoteSurvives(n: Node)
    requires n.role != Leader
    ensures var (c, started) := BecomeCandidate(n, true);
            started && c.term == n.term + 1 && c.votedFor == n.id && Again(c).term == c.term && Again(c).votedFor == c.votedFor
  {
  }

  // The vote for another is saved before it is set: of a vote just given, the
  // term survives, but the vote itself exactly when it had been given before.
  lemma VoteSurvivesExactly(n: Node, req: VoteRequest)
    requires HandleRequestVote(n, req, true).1 == Some(VoteReply(req.term, true)) && req.candidate != NO_ONE
    ensures var m := HandleRequestVote(n, req, true).0;
            && m.votedFor == req.candidate && Again(m).term == m.term == req.term && Again(m).log == m.log
            && (Again(m).votedFor == req.candidate <==> n.term == req.term && n.votedFor == req.candidate)
            && (Again(m).votedFor != req.candidate ==> Again(m).votedFor == NO_ONE)
  {
  }

  // So a voter that is started again votes for a second candidate of the same
  // term, whose log is not older, exactly when its first vote was new.
  lemma VotesAgainExactly(n: Node, req: VoteRequest, other: VoteRequest, log: seq<Entry>)
    requires HandleRequestVote(n, req, true).1 == Some(VoteReply(req.term, true)) && req.candidate != NO_ONE
    requires other.term == req.term && other.candidate != req.candidate
    requires Positive(n.log) && Positive(log) && Describes(other, log) && NotOlder(log, n.log)
    ensures var m := HandleRequestVote(n, req, true).0;
            && HandleRequestVote(m, other, true).1 == Some(VoteReply(req.term, false))
            && HandleRequestVote(Again(m), other, true).1 ==
                 Some(VoteReply(req.term, !(n.term == req.term && n.votedFor == req.candidate)))
  {
    VoteSurvivesExactly(n, req);
    var m := HandleRequestVote(n, req, true).0;
    GrantsExactly(m, log, other, true);
    GrantsExactly(Again(m), log, other, true);
  }

  // ---- Every run of a one-node cluster ----

  function SavedTerm(d: Disk): int {
    if d.saved == None then 0 else d.saved.value.term
  }

  function SavedVote(d: Disk): int {
    if d.saved == None then NO_ONE else d.saved.value.votedFor
  }

  // The last campaign could not be saved, and since then nothing was saved and
  // the node was not restarted.
  ghost predicate Unsaved(run: seq<D.World>, acts: seq<D.Action>, k: nat)
    requires k <= |acts| < |run|
  {
    k > 0 &&
    match acts[k - 1]
    case Campaign(ok) => if run[k - 1].node.role == Leader then Unsaved(run, acts, k - 1) else !ok
    case Snap(_, _) => Unsaved(run, acts, k - 1) && run[k].node.logBase == run[k - 1].node.logBase
    case Restart => false
    case _ => Unsaved(run, acts, k - 1)
  }

  ghost predicate TermOk(n: Node, unsaved: bool) {
    if unsaved then n.role == Candidate && SavedTerm(n.disk) < n.term
    else SavedTerm(n.disk) == n.term && SavedVote(n.disk) == n.votedFor
  }

  // A saved term does not fall, and within it a saved vote does not change.
  ghost predicate KeepsVote(d: Disk, term: int, vote: int) {
    SavedTerm(d) < term || (SavedTerm(d) == term && (SavedVote(d) == NO_ONE || SavedVote(d) == vote))
  }

  lemma CampaignTerm(n: Node, ok: bool, unsaved: bool)
    requires TermOk(n, unsaved) && n.peers == map[]
    ensures var m := D.SelfElect(n, ok);
            && TermOk(m, if n.role == Leader then unsaved else !ok)
            && KeepsVote(n.disk, SavedTerm(m.disk), SavedVote(m.disk))
  {
  }

  lemma SubmitTerm(n: Node, cmd: Command, ok: bool, unsaved: bool)
    requires TermOk(n, unsaved) && n.peers == map[] && n.commitIndex <= LastIndex(n)
    ensures var m := ReplicateCommand(n, cmd, ok).0;
            TermOk(m, unsaved) && KeepsVote(n.disk, SavedTerm(m.disk), SavedVote(m.disk))
  {
    D.SubmitShape(n, cmd, ok);
  }

  lemma SnapTerm(n: Node, index: int, data: Payload, unsaved: bool)
    requires TermOk(n, unsaved)
    ensures var m := TakeSnapshot(n, index, data, true, true).0;
            && TermOk(m, unsaved && m.logBase == n.logBase)
            && KeepsVote(n.disk, SavedTerm(m.disk), SavedVote(m.disk))
  {
  }

  lemma RestartTerm(n: Node)
    ensures var m := D.Reload(n);
            m.term == SavedTerm(n.disk) && m.votedFor == SavedVote(n.disk) && m.disk == n.disk && TermOk(m, false)
  {
  }

  ghost predicate TermStep(w: D.World, w': D.World, unsaved: bool, unsaved': bool) {
    TermOk(w.node, unsaved) ==>
      TermOk(w'.node, unsaved') && KeepsVote(w.node.disk, SavedTerm(w'.node.disk), SavedVote(w'.node.disk))
  }

  lemma StepTerm(run: seq<D.World>, acts: seq<D.Action>, j: nat, k: nat)
    requires D.IsRun(run, acts) && j < |acts| && k == j + 1
    ensures TermStep(run[j], run[k], Unsaved(run, acts, j), Unsaved(run, acts, k))
  {
    D.RunDurable(run, acts, j);
    assert D.StepAt(run, acts, j);
    var w, unsaved := run[j], Unsaved(run, acts, j);
    if TermOk(w.node, unsaved) {
      match acts[j]
      case Campaign(ok) => CampaignTerm(w.node, ok, unsaved);
      case Submit(cmd, ok) => SubmitTerm(w.node, cmd, ok, unsaved);
      case Snap(size, now) =>
        SnapTerm(w.node, D.Reached(w), Payload(size, Some(KvSpec.Serialize(w.server.kv, now))), unsaved);
      case Restart => RestartTerm(w.node);
      case _ =>
    }
  }

  lemma {:induction false} RunTerm(run: seq<D.World>, acts: seq<D.Action>, k: nat)
    requires D.IsRun(run, acts) && k <= |acts|
    ensures TermOk(run[k].node, Unsaved(run, acts, k))
  {
    if k > 0 {
      RunTerm(run, acts, k - 1);
      StepTerm(run, acts, k - 1, k);
    }
  }

  // A restart brings back term and vote exactly unless the last campaign was
  // not saved; then the term falls back to a saved one.
  lemma RestartKeepsExactly(run: seq<D.World>, acts: seq<D.Action>, k: nat)
    requires D.IsRun(run, acts) && k <= |acts|
    ensures var n, m := run[k].node, D.Reload(run[k].node);
            && (m.term == n.term && m.votedFor == n.votedFor <==> !Unsaved(run, acts, k))
            && (Unsaved(run, acts, k) ==> m.term < n.term)
  {
    RunTerm(run, acts, k);
    RestartTerm(run[k].node);
  }

  lemma {:induction false} RunKeepsVote(run: seq<D.World>, acts: seq<D.Action>, j: nat, k: nat)
    requires D.IsRun(run, acts) && j <= k <= |acts|
    ensures KeepsVote(run[j].node.disk, SavedTerm(run[k].node.disk), SavedVote(run[k].node.disk))
    decreases k
  {
    if j < k {
      RunKeepsVote(run, acts, j, k - 1);
      RunTerm(run, acts, k - 1);
      StepTerm(run, acts, k - 1, k);
    }
  }

  // Through any restarts: once a term is saved the node is never in an earlier
  // one, and while it is in that term it keeps the vote saved with it.
  lemma SavedVoteKept(run: seq<D.World>, acts: seq<D.Action>, j: nat, k: nat)
    requires D.IsRun(run, acts) && j <= k <= |acts|
    ensures KeepsVote(run[j].node.disk, run[k].node.term, run[k].node.votedFor)
  {
    RunKeepsVote(run, acts, j, k);
    RunTerm(run, acts, k);
  }
}
