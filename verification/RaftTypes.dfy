// Values of the consensus layer: log entries, messages and one node's whole
// state as a value (raft/types.go, raft/raft.go, raft/raftpb).
module RaftTypes {
  import opened KvTypes

  datatype Role = Follower | Candidate | Leader

  datatype Entry = Entry(index: int, term: int, command: Command)

  datatype ApplyMsg =
    | CommandMsg(command: Command, index: int)
    | SnapshotMsg(data: Payload, lastIndex: int, lastTerm: int)

  datatype VoteRequest = VoteRequest(term: int, candidate: int, lastLogIndex: int, lastLogTerm: int)
  datatype VoteReply = VoteReply(term: int, granted: bool)

  datatype AppendRequest = AppendRequest(
    term: int, leader: int, prevLogIndex: int, prevLogTerm: int, entries: seq<Entry>, leaderCommit: int)
  datatype AppendReply = AppendReply(term: int, success: bool)

  datatype SnapshotRequest = SnapshotRequest(
    term: int, leader: int, lastIndex: int, lastTerm: int, data: Payload)

  datatype Peer = Peer(nextIndex: int, matchIndex: int)

  datatype Snapshot = Snapshot(data: Payload, index: nat, term: int)

  // What the persister holds: the raft-state file and the snapshot file.
  datatype SavedState = SavedState(term: int, votedFor: int, log: seq<Entry>)
  datatype Disk = Disk(saved: Option<SavedState>, snapshot: Option<Snapshot>)

  // One node. `wake` is the token in the one-slot commitCh; `applying` holds
  // while the apply loop is inside applyPendingEntries; `sent` is everything
  // this incarnation has put on applyCh, oldest first.
  datatype Node = Node(
    id: int,
    peers: map<int, Peer>,
    term: int,
    votedFor: int,
    log: seq<Entry>,
    logBase: nat,
    snap: Snapshot,
    role: Role,
    commitIndex: nat,
    lastApplied: nat,
    leaderId: int,
    votes: int,
    wake: bool,
    applying: bool,
    sent: seq<ApplyMsg>,
    disk: Disk)

  const NO_ONE: int := -1
  const MAX_SNAPSHOT_BYTES: int := 4 * 1024 * 1024

  const NO_SNAPSHOT: Snapshot := Snapshot(Payload(0, None), 0, 0)

  // The absolute index of the last entry, compacted or not.
  function LastIndex(n: Node): nat {
    n.logBase + |n.log|
  }
}
