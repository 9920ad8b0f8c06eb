// The in-memory persister (raft/persister.go). Slices are copied on the way in
// and out there; sequences are values here.
module Persister {
  import opened KvTypes
  import opened RaftTypes

  class MemoryPersister {
    var saved: Option<SavedState>
    var snapshot: Option<Snapshot>
    var saveErr: bool  // what Save will find
    var snapErr: bool  // what SaveSnapshot will find; SetSaveErr may come in between

    ghost function Contents(): Disk
      reads this
    {
      Disk(saved, snapshot)
    }

    constructor ()
      ensures Contents() == Disk(None, None) && !saveErr && !snapErr
    {
      saved, snapshot, saveErr, snapErr := None, None, false, false;
    }

    method Save(term: int, votedFor: int, log: seq<Entry>) returns (ok: bool)
      modifies this`saved
      ensures ok == !saveErr
      ensures Contents() == if ok then old(Contents()).(saved := Some(SavedState(term, votedFor, log))) else old(Contents())
    {
      if saveErr { return false; }
      saved := Some(SavedState(term, votedFor, log));
      return true;
    }

    method Load() returns (r: Option<SavedState>)
      ensures r == Contents().saved
    {
      return saved;
    }

    method SaveSnapshot(data: Payload, index: nat, term: int) returns (ok: bool)
      modifies this`snapshot
      ensures ok == !snapErr
      ensures Contents() == if ok then old(Contents()).(snapshot := Some(Snapshot(data, index, term))) else old(Contents())
    {
      if snapErr { return false; }
      snapshot := Some(Snapshot(data, index, term));
      return true;
    }

    method LoadSnapshot() returns (r: Option<Snapshot>)
      ensures r == Contents().snapshot
    {
      return snapshot;
    }
  }
}
