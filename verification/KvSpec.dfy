// The key-value state machine as functions and relations on values
// (kv/apply.go, kv/snapshot.go). KvServer.dfy proves that the imperative
// methods meet them.
module KvSpec {
  import opened KvTypes

  const EXPIRY: int := 10_000_000_000  // duplicateCacheExpiry, in nanoseconds
  const CAP: nat := 100                // maxDuplicateEntriesPerClient

  // ---- Commands ----

  function ValueOf(store: Store, key: string): string {
    if key in store then store[key] else ""
  }

  // applyCommandLocked.
  function Execute(store: Store, op: Op): (Store, Result) {
    match op.kind
    case OpPut => (store[op.key := op.value], Result("", NoErr))
    case OpAppend => (store[op.key := ValueOf(store, op.key) + op.value], Result("", NoErr))
    case OpGet => (store, if op.key in store then Result(store[op.key], NoErr) else Result("", KeyNotFound))
    case OpOther(code) => (store, Result("", UnknownOp(code)))
  }

  // Lookups are skipped unless both ids are set.
  predicate Dedups(op: Op) {
    op.clientId != 0 && op.seqId != 0
  }

  // ---- The duplicate cache ----

  function Of(cache: Cache, client: nat): ClientCache {
    if client in cache then cache[client] else map[]
  }

  predicate Fresh(e: DuplicateEntry, now: int) {
    now - e.stamp <= EXPIRY
  }

  function Live(m: ClientCache, now: int): ClientCache {
    map s | s in m && Fresh(m[s], now) :: m[s]
  }

  // getDuplicateLocked.
  function Lookup(cache: Cache, op: Op, now: int): Option<Result> {
    var m := Of(cache, op.clientId);
    if op.seqId in m && Fresh(m[op.seqId], now) then Some(m[op.seqId].result) else None
  }

  function Without(m: ClientCache, s: nat): ClientCache {
    m - {s}
  }

  // A lookup deletes the entry it finds expired.
  function AfterLookup(cache: Cache, op: Op, now: int): Cache {
    var m := Of(cache, op.clientId);
    if op.seqId in m && !Fresh(m[op.seqId], now) then cache[op.clientId := Without(m, op.seqId)] else cache
  }

  predicate Submap(m: ClientCache, of: ClientCache) {
    forall s :: s in m ==> s in of && m[s] == of[s]
  }

  // Nothing kept is older than anything evicted.
  predicate KeepsNewest(all: ClientCache, kept: ClientCache) {
    && Submap(kept, all)
    && (forall s, t :: s in all && s !in kept && t in kept ==> all[s].stamp <= kept[t].stamp)
  }

  // cleanupDuplicateCacheLocked: expired entries go, then the oldest until the
  // cap is met. Entries of equal age may go in any order.
  predicate Cleaned(m: ClientCache, kept: ClientCache, now: int) {
    && KeepsNewest(Live(m, now), kept)
    && |kept| == if |Live(m, now)| <= CAP then |Live(m, now)| else CAP
  }

  // ---- Applying one command ----

  // The server's clock as read by the lookup, the save and the clean-up.
  datatype Clock = Clock(lookup: int, save: int, clean: int)

  datatype Kv = Kv(store: Store, cache: Cache)

  const EMPTY: Kv := Kv(map[], map[])

  // The command is not answered from the cache.
  predicate Executes(kv: Kv, op: Op, clk: Clock) {
    Dedups(op) ==> Lookup(kv.cache, op, clk.lookup) == None
  }

  predicate Applied(kv: Kv, op: Op, clk: Clock, kv': Kv, result: Result) {
    if !Executes(kv, op, clk) then kv' == kv && Some(result) == Lookup(kv.cache, op, clk.lookup)
    else
      var (store, r) := Execute(kv.store, op);
      && result == r && kv'.store == store
      && op.clientId in kv'.cache && kv'.cache == kv.cache[op.clientId := kv'.cache[op.clientId]]
      && Cleaned(Of(kv.cache, op.clientId)[op.seqId := DuplicateEntry(r, clk.save)],
                 kv'.cache[op.clientId], clk.clean)
  }

  // processApplyMsg for a command; one that cannot be decoded is only reported.
  predicate Handled(kv: Kv, cmd: Command, clk: Clock, kv': Kv, result: Result) {
    match cmd
    case Malformed(_) => kv' == kv && result == Result("", Undecodable)
    case Encoded(op) => Applied(kv, op, clk, kv', result)
  }

  // ---- Snapshots of the state machine ----

  function ErrString(e: Err): ErrText {
    match e
    case NoErr => NoText
    case KeyNotFound => KeyNotFoundText
    case _ => OtherText
  }

  // Unknown errors come back as no error.
  function SentinelErr(t: ErrText): Err {
    if t == KeyNotFoundText then KeyNotFound else NoErr
  }

  predicate Worth(client: nat, seqNum: nat, e: DuplicateEntry, now: int) {
    !(client == 0 && seqNum == 0) && Fresh(e, now)
  }

  function ToSnapshotEntry(e: DuplicateEntry): SnapshotEntry {
    SnapshotEntry(e.result.value, ErrString(e.result.err), e.stamp)
  }

  function FromSnapshotEntry(e: SnapshotEntry): DuplicateEntry {
    DuplicateEntry(Result(e.value, SentinelErr(e.err)), e.stamp)
  }

  function SaveClient(client: nat, m: ClientCache, now: int): map<nat, SnapshotEntry> {
    map s | s in m && Worth(client, s, m[s], now) :: ToSnapshotEntry(m[s])
  }

  // serializeSnapshot; clients with nothing to keep are left out.
  function Serialize(kv: Kv, now: int): Image {
    Image(kv.store, map c | c in kv.cache && SaveClient(c, kv.cache[c], now) != map[] :: SaveClient(c, kv.cache[c], now))
  }

  function LoadClient(m: map<nat, SnapshotEntry>): ClientCache {
    map s | s in m :: FromSnapshotEntry(m[s])
  }

  // deserializeSnapshot.
  function Deserialize(image: Image): Kv {
    Kv(image.state, map c | c in image.dedup :: LoadClient(image.dedup[c]))
  }

  // The state machine after it is saved at reading `now` and loaded again.
  function Restored(kv: Kv, now: int): Kv {
    Deserialize(Serialize(kv, now))
  }
}
