// Values of the key-value layer (kv/types.go, kv/snapshot.go).
module KvTypes {

  datatype Option<+T> = None | Some(value: T)

  // OpOther stands for the integers that are none of OpGet, OpPut, OpAppend.
  datatype OpKind = OpGet | OpPut | OpAppend | OpOther(code: int)

  // The two 64-bit ids are compared with each other and with zero only, so they
  // are taken by their unsigned value.
  datatype Op = Op(kind: OpKind, key: string, value: string, clientId: nat, seqId: nat)

  // Result.Err; NoErr is nil.
  datatype Err = NoErr | KeyNotFound | UnknownOp(code: int) | Undecodable | ShuttingDownErr

  datatype Result = Result(value: string, err: Err)

  // Times are readings of the server's clock, in nanoseconds.
  datatype DuplicateEntry = DuplicateEntry(result: Result, stamp: int)

  type ClientCache = map<nat, DuplicateEntry>
  type Cache = map<nat, ClientCache>
  type Store = map<string, string>

  // A log command: the JSON encoding is injective on operations, so the log
  // carries the decoded form, or the bytes that no decoder accepts.
  datatype Command = Encoded(op: Op) | Malformed(raw: seq<int>)

  // errString of an error is kept as a tag: "", the key-not-found text, or any other text.
  datatype ErrText = NoText | KeyNotFoundText | OtherText

  datatype SnapshotEntry = SnapshotEntry(value: string, err: ErrText, stamp: int)

  datatype Image = Image(state: Store, dedup: map<nat, map<nat, SnapshotEntry>>)

  // The bytes handed to Raft: their length, and what they decode to, if anything.
  datatype Payload = Payload(size: nat, image: Option<Image>)
}
