// The rendezvous between an RPC handler waiting for a log index and the apply
// loop that produces its result (kv/server.go, kv/apply.go).
module Waiters {
  import opened KvTypes

  // `chans` holds what has been sent on each one-slot result channel;
  // `answers` what each handler (named by its channel) was handed directly
  // from `recent`.
  datatype Table = Table(
    pending: map<nat, nat>,
    recent: map<nat, Result>,
    chans: map<nat, seq<Result>>,
    answers: map<nat, Result>,
    maxPending: nat,
    dead: bool)

  datatype Registration = Waiting | Answered(result: Result) | TooMany | ShuttingDown

  // The registration section of submitOperation. On a hit the pending entry stays behind.
  function Register(w: Table, index: nat, ch: nat): (Table, Registration) {
    if w.dead then (w, ShuttingDown)
    else if |w.pending| >= w.maxPending then (w, TooMany)
    else
      var r := w.(pending := w.pending[index := ch], chans := w.chans[ch := []]);
      if index in w.recent then
        (r.(recent := w.recent - {index}, answers := w.answers[ch := w.recent[index]]), Answered(w.recent[index]))
      else (r, Waiting)
  }

  // A non-blocking send to a channel with one slot.
  function Send(chans: map<nat, seq<Result>>, ch: nat, r: Result): map<nat, seq<Result>> {
    if ch in chans && |chans[ch]| == 0 then chans[ch := [r]] else chans
  }

  // What may be left of the stash after evicting arbitrary entries down to the cap.
  predicate Evicted(all: map<nat, Result>, kept: map<nat, Result>, cap: nat) {
    && kept.Keys <= all.Keys && (forall x :: x in kept ==> kept[x] == all[x])
    && |kept| == if |all| <= cap then |all| else cap
  }

  // notifyWaiter.
  predicate Notified(w: Table, index: nat, r: Result, w': Table) {
    if index in w.pending then
      w' == w.(pending := w.pending - {index}, chans := Send(w.chans, w.pending[index], r))
    else
      w' == w.(recent := w'.recent) && Evicted(w.recent[index := r], w'.recent, w.maxPending)
  }

  // The timeout branch of submitOperation.
  function TimeOut(w: Table, index: nat): Table {
    w.(pending := w.pending - {index})
  }

  // Kill; only the first call acts.
  function Kill(w: Table): Table {
    if w.dead then w
    else
      w.(dead := true, pending := map[],
         chans := map ch | ch in w.chans :: if ch in w.pending.Values && |w.chans[ch]| == 0
                                            then [Result("", ShuttingDownErr)] else w.chans[ch])
  }

  // handleSnapshotMsg forgets the stash.
  function ForgetRecent(w: Table): Table {
    w.(recent := map[])
  }

  // ---- Runs ----

  datatype Action =
    | DoRegister(index: nat, ch: nat)
    | DoNotify(index: nat, result: Result)
    | DoTimeOut(index: nat)
    | DoKill
    | DoForget

  // Every registration makes its own channel.
  predicate Steps(w: Table, a: Action, w': Table) {
    match a
    case DoRegister(index, ch) => ch !in w.chans && w' == Register(w, index, ch).0
    case DoNotify(index, r) => Notified(w, index, r, w')
    case DoTimeOut(index) => w' == TimeOut(w, index)
    case DoKill => w' == Kill(w)
    case DoForget => w' == ForgetRecent(w)
  }

  ghost predicate IsRun(run: seq<Table>, acts: seq<Action>) {
    && |run| == |acts| + 1
    && run[0].pending == map[] && run[0].recent == map[] && run[0].chans == map[] && run[0].answers == map[] && !run[0].dead
    && (forall k :: 0 <= k < |acts| ==> Steps(run[k], acts[k], run[k + 1]))
  }

  // ---- Bounds, and one value per channel ----

  // A channel still registered has been sent nothing.
  ghost predicate Silent(pending: map<nat, nat>, chans: map<nat, seq<Result>>) {
    forall x :: x in pending ==> pending[x] in chans && chans[pending[x]] == []
  }

  ghost predicate Injective(pending: map<nat, nat>) {
    forall x, y :: x in pending && y in pending && pending[x] == pending[y] ==> x == y
  }

  ghost predicate OneEach(chans: map<nat, seq<Result>>) {
    forall ch :: ch in chans ==> |chans[ch]| <= 1
  }

  ghost predicate TableInv(w: Table) {
    && |w.pending| <= w.maxPending && |w.recent| <= w.maxPending
    && Silent(w.pending, w.chans) && Injective(w.pending) && OneEach(w.chans)
  }

  lemma RemoveSmaller<V>(m: map<nat, V>, x: nat)
    ensures |m - {x}| <= |m|
  {
    var less := (m - {x}).Keys;
    assert m.Keys == less + (m.Keys - less);
    assert |m.Keys| == |less| + |m.Keys - less|;
  }

  lemma AddOne<V>(m: map<nat, V>, x: nat, v: V)
    ensures |m[x := v]| <= |m| + 1
  {
    assert m[x := v].Keys == m.Keys + {x};
  }

  lemma AddPending(pending: map<nat, nat>, chans: map<nat, seq<Result>>, x: nat, ch: nat)
    requires Silent(pending, chans) && Injective(pending) && ch !in chans
    ensures Silent(pending[x := ch], chans[ch := []]) && Injective(pending[x := ch])
  {
  }

  lemma DropPending(pending: map<nat, nat>, chans: map<nat, seq<Result>>, x: nat, r: Result)
    requires Silent(pending, chans) && Injective(pending) && x in pending
    ensures Silent(pending - {x}, Send(chans, pending[x], r)) && Injective(pending - {x})
  {
  }

  lemma RegisterKeeps(w: Table, index: nat, ch: nat)
    requires TableInv(w) && ch !in w.chans
    ensures TableInv(Register(w, index, ch).0)
  {
    AddOne(w.pending, index, ch);
    AddPending(w.pending, w.chans, index, ch);
    RemoveSmaller(w.recent, index);
  }

  lemma NotifyKeeps(w: Table, index: nat, r: Result, w': Table)
    requires TableInv(w) && Notified(w, index, r, w')
    ensures TableInv(w')
  {
    if index in w.pending {
      RemoveSmaller(w.pending, index);
      DropPending(w.pending, w.chans, index, r);
    }
  }

  lemma StepKeeps(w: Table, a: Action, w': Table)
    requires TableInv(w) && Steps(w, a, w')
    ensures TableInv(w') && w'.maxPending == w.maxPending
  {
    match a
    case DoRegister(index, ch) => RegisterKeeps(w, index, ch);
    case DoNotify(index, r) => NotifyKeeps(w, index, r, w');
    case DoTimeOut(index) => RemoveSmaller(w.pending, index);
    case DoKill =>
    case DoForget =>
  }

  // Over every run, whatever the interleaving: no channel is sent a second
  // value, and neither table outgrows the cap.
  lemma {:induction false} AtMostOneValue(run: seq<Table>, acts: seq<Action>, k: nat)
    requires IsRun(run, acts) && k < |run|
    ensures TableInv(run[k]) && run[k].maxPending == run[0].maxPending
  {
    if k > 0 {
      AtMostOneValue(run, acts, k - 1);
      StepKeeps(run[k - 1], acts[k - 1], run[k]);
    }
  }

  // ---- The rendezvous ----

  // Everything handler ch has obtained.
  function Obtained(w: Table, ch: nat): seq<Result> {
    (if ch in w.answers then [w.answers[ch]] else []) + (if ch in w.chans then w.chans[ch] else [])
  }

  // Where the handler for index x with channel ch and the result r for x stand.
  ghost predicate Phase(w: Table, x: nat, ch: nat, r: Result, registered: bool, notified: bool) {
    && (forall y :: y in w.pending && w.pending[y] == ch ==> y == x)
    && (!registered ==> ch !in w.chans && ch !in w.answers && x !in w.pending)
    && (!registered && !notified ==> x !in w.recent)
    && (!registered && notified ==> x in w.recent && w.recent[x] == r)
    && (registered && !notified ==> x in w.pending && w.pending[x] == ch && ch in w.chans && Obtained(w, ch) == [] && x !in w.recent)
    && (registered && notified ==> ch in w.chans && Obtained(w, ch) == [r] && x !in w.recent)
  }

  // An action that concerns neither this index nor this channel.
  ghost predicate Elsewhere(a: Action, x: nat, ch: nat) {
    match a
    case DoRegister(index, c) => index != x && c != ch
    case DoNotify(index, _) => index != x
    case DoTimeOut(index) => index != x
    case DoKill => false
    case DoForget => true
  }

  lemma ElsewhereNotify(w: Table, index: nat, q: Result, w': Table, x: nat, ch: nat, r: Result, registered: bool, notified: bool)
    requires Phase(w, x, ch, r, registered, notified) && Notified(w, index, q, w') && index != x
    requires !registered && notified ==> x in w'.recent  // not evicted
    ensures Phase(w', x, ch, r, registered, notified)
  {
    if index in w.pending {
      assert w.pending[index] != ch;
    }
  }

  lemma ElsewhereRegister(w: Table, index: nat, c: nat, x: nat, ch: nat, r: Result, registered: bool, notified: bool)
    requires Phase(w, x, ch, r, registered, notified) && index != x && c != ch
    ensures Phase(Register(w, index, c).0, x, ch, r, registered, notified)
  {
    var w' := Register(w, index, c).0;
    assert ch in w'.chans <==> ch in w.chans;
    assert ch in w'.answers <==> ch in w.answers;
    assert Obtained(w', ch) == Obtained(w, ch);
  }

  lemma ElsewhereKeeps(w: Table, a: Action, w': Table, x: nat, ch: nat, r: Result, registered: bool, notified: bool)
    requires Phase(w, x, ch, r, registered, notified) && Steps(w, a, w') && Elsewhere(a, x, ch)
    requires !registered && notified ==> x in w'.recent  // not evicted
    ensures Phase(w', x, ch, r, registered, notified)
  {
    match a
    case DoRegister(index, c) => ElsewhereRegister(w, index, c, x, ch, r, registered, notified);
    case DoNotify(index, q) => ElsewhereNotify(w, index, q, w', x, ch, r, registered, notified);
    case DoTimeOut(_) => assert Obtained(w', ch) == Obtained(w, ch);
    case DoForget => assert Obtained(w', ch) == Obtained(w, ch);
  }

  lemma RegisteringStep(w: Table, w': Table, x: nat, ch: nat, r: Result, notified: bool)
    requires Phase(w, x, ch, r, false, notified) && TableInv(w) && Steps(w, DoRegister(x, ch), w')
    requires !w.dead && |w.pending| < w.maxPending
    ensures Phase(w', x, ch, r, true, notified)
    ensures Register(w, x, ch).1 == if notified then Answered(r) else Waiting
  {
  }

  lemma NotifyingStep(w: Table, w': Table, x: nat, ch: nat, r: Result, registered: bool)
    requires Phase(w, x, ch, r, registered, false) && TableInv(w) && Steps(w, DoNotify(x, r), w')
    requires !registered ==> x in w'.recent  // not evicted
    ensures Phase(w', x, ch, r, registered, true)
  {
  }

  // One handler registers for x, x is applied once, in either order and with
  // anything else in between: the handler obtains the result exactly once.
  lemma {:induction false} Rendezvous(run: seq<Table>, acts: seq<Action>, x: nat, ch: nat, r: Result, i: nat, j: nat, k: nat)
    requires IsRun(run, acts) && i < |acts| && j < |acts| && k < |run|
    requires acts[i] == DoRegister(x, ch) && !run[i].dead && |run[i].pending| < run[i].maxPending
    requires acts[j] == DoNotify(x, r)
    requires forall z :: 0 <= z < |acts| && z != i && z != j ==> Elsewhere(acts[z], x, ch)
    requires forall z :: j < z <= i ==> x in run[z].recent  // not evicted before it is picked up
    ensures Phase(run[k], x, ch, r, i < k, j < k)
    ensures k > i && k > j ==> Obtained(run[k], ch) == [r]
  {
    if k > 0 {
      var p := k - 1;
      Rendezvous(run, acts, x, ch, r, i, j, p);
      AtMostOneValue(run, acts, p);
      if p == i {
        RegisteringStep(run[p], run[k], x, ch, r, j < p);
      } else if p == j {
        NotifyingStep(run[p], run[k], x, ch, r, i < p);
      } else {
        ElsewhereKeeps(run[p], acts[p], run[k], x, ch, r, i < p, j < p);
      }
    }
  }

  // ---- What becomes of every handler ----

  // A registration is refused exactly when the server is shutting down or the
  // table is full, and answered at once exactly when its result is stashed.
  lemma RegistersExactly(w: Table, index: nat, ch: nat)
    ensures var (w', r) := Register(w, index, ch);
            && (r == ShuttingDown <==> w.dead)
            && (r == TooMany <==> !w.dead && |w.pending| >= w.maxPending)
            && (r.Answered? <==> Hit(w, DoRegister(index, ch)))
            && (r.Answered? ==> r.result == w.recent[index] && index !in w'.recent)
            && (r in {ShuttingDown, TooMany} ==> w' == w)
            && (r == Waiting && ch !in w.answers ==> WaitsFor(w', index, ch))
  {
  }

  // Handler ch is registered for index x and has been sent nothing.
  ghost predicate WaitsFor(w: Table, x: nat, ch: nat) {
    x in w.pending && w.pending[x] == ch && ch in w.chans && w.chans[ch] == [] && ch !in w.answers
  }

  // Nobody will send to handler ch any more; this is all it was sent.
  ghost predicate Settled(w: Table, ch: nat, out: seq<Result>) {
    ch in w.chans && w.chans[ch] == out && ch !in w.answers && forall y :: y in w.pending ==> w.pending[y] != ch
  }

  // The action ends the wait for index x: its result, its timeout, shutdown, or
  // another handler taking its place.
  ghost predicate Ends(w: Table, a: Action, x: nat) {
    match a
    case DoRegister(index, _) => index == x && !w.dead && |w.pending| < w.maxPending
    case DoNotify(index, _) => index == x
    case DoTimeOut(index) => index == x
    case DoKill => !w.dead
    case DoForget => false
  }

  // What the handler is then sent.
  function Outcome(a: Action): seq<Result> {
    match a
    case DoNotify(_, r) => [r]
    case DoKill => [Result("", ShuttingDownErr)]
    case _ => []
  }

  lemma WaitsOn(w: Table, a: Action, w': Table, x: nat, ch: nat)
    requires TableInv(w) && WaitsFor(w, x, ch) && Steps(w, a, w') && !Ends(w, a, x)
    ensures WaitsFor(w', x, ch)
  {
    if a.DoNotify? && a.index in w.pending { assert w.pending[a.index] != ch; }
  }

  lemma Settles(w: Table, a: Action, w': Table, x: nat, ch: nat)
    requires TableInv(w) && WaitsFor(w, x, ch) && Steps(w, a, w') && Ends(w, a, x)
    ensures Settled(w', ch, Outcome(a))
  {
    if a.DoKill? { assert ch in w.pending.Values; }
  }

  lemma RegisterSettled(w: Table, index: nat, c: nat, ch: nat, out: seq<Result>)
    requires Settled(w, ch, out) && c !in w.chans
    ensures Settled(Register(w, index, c).0, ch, out)
  {
  }

  lemma NotifySettled(w: Table, index: nat, r: Result, w': Table, ch: nat, out: seq<Result>)
    requires Settled(w, ch, out) && Notified(w, index, r, w')
    ensures Settled(w', ch, out)
  {
  }

  lemma KillSettled(w: Table, ch: nat, out: seq<Result>)
    requires Settled(w, ch, out)
    ensures Settled(Kill(w), ch, out)
  {
    assert ch !in w.pending.Values;
  }

  lemma StaysSettled(w: Table, a: Action, w': Table, ch: nat, out: seq<Result>)
    requires Settled(w, ch, out) && Steps(w, a, w')
    ensures Settled(w', ch, out)
  {
    match a
    case DoRegister(index, c) => RegisterSettled(w, index, c, ch, out);
    case DoNotify(index, r) => NotifySettled(w, index, r, w', ch, out);
    case DoKill => KillSettled(w, ch, out);
    case _ =>
  }

  // For every run: a handler that was registered and not answered at once waits
  // until the first action that ends its wait, and is sent exactly what that
  // action gives it, its own result, the shutdown error or nothing, for good.
  lemma {:induction false} HandlerOutcome(run: seq<Table>, acts: seq<Action>, x: nat, ch: nat, i: nat, k: nat)
    requires IsRun(run, acts) && i < k < |run| && WaitsFor(run[i + 1], x, ch)
    ensures (forall z :: i < z < k ==> !Ends(run[z], acts[z], x)) ==> WaitsFor(run[k], x, ch)
    ensures forall e :: FirstEnd(run, acts, x, i, e, k) ==> Settled(run[k], ch, Outcome(acts[e]))
  {
    if k > i + 1 {
      var p := k - 1;
      HandlerOutcome(run, acts, x, ch, i, p);
      AtMostOneValue(run, acts, p);
      assert Steps(run[p], acts[p], run[p + 1]);
      if forall z :: i < z < p ==> !Ends(run[z], acts[z], x) {
        HandlerNext(run, acts, x, ch, i, p, k);
      }
      forall e | FirstEnd(run, acts, x, i, e, k)
        ensures Settled(run[k], ch, Outcome(acts[e]))
      {
        if e < p {
          assert FirstEnd(run, acts, x, i, e, p);
          StaysSettled(run[p], acts[p], run[k], ch, Outcome(acts[e]));
        }
      }
    }
  }

  ghost predicate FirstEnd(run: seq<Table>, acts: seq<Action>, x: nat, i: nat, e: int, k: nat)
    requires k <= |acts| < |run|
  {
    i < e < k && Ends(run[e], acts[e], x) && forall z :: i < z < e ==> !Ends(run[z], acts[z], x)
  }

  lemma HandlerNext(run: seq<Table>, acts: seq<Action>, x: nat, ch: nat, i: nat, p: nat, k: nat)
    requires IsRun(run, acts) && k == p + 1 < |run| && TableInv(run[p]) && WaitsFor(run[p], x, ch)
    ensures if Ends(run[p], acts[p], x) then Settled(run[k], ch, Outcome(acts[p])) else WaitsFor(run[k], x, ch)
  {
    assert Steps(run[p], acts[p], run[p + 1]);
    if Ends(run[p], acts[p], x) {
      Settles(run[p], acts[p], run[k], x, ch);
    } else {
      WaitsOn(run[p], acts[p], run[k], x, ch);
    }
  }

  // ---- The stash ----

  // The last result for index x among the first k actions is r.
  ghost predicate LastResult(acts: seq<Action>, x: nat, r: Result, k: nat)
    requires k <= |acts|
  {
    exists j :: LastNotify(acts, x, r, j, k)
  }

  ghost predicate LastNotify(acts: seq<Action>, x: nat, r: Result, j: int, k: nat)
    requires k <= |acts|
  {
    0 <= j < k && acts[j] == DoNotify(x, r) && forall z :: j < z < k ==> !(acts[z].DoNotify? && acts[z].index == x)
  }

  ghost predicate StashOk(w: Table, acts: seq<Action>, k: nat)
    requires k <= |acts|
  {
    forall x :: x in w.recent ==> x !in w.pending && LastResult(acts, x, w.recent[x], k)
  }

  lemma StashKept(w: Table, a: Action, w': Table, x: nat)
    requires Steps(w, a, w') && x in w'.recent && (x in w.recent ==> x !in w.pending)
    ensures x !in w'.pending
    ensures if a.DoNotify? && a.index == x then w'.recent[x] == a.result else x in w.recent && w'.recent[x] == w.recent[x]
  {
  }

  lemma LastMore(acts: seq<Action>, x: nat, r: Result, k: nat)
    requires k < |acts| && (if acts[k].DoNotify? && acts[k].index == x then acts[k].result == r else LastResult(acts, x, r, k))
    ensures LastResult(acts, x, r, k + 1)
  {
    if acts[k].DoNotify? && acts[k].index == x {
      assert LastNotify(acts, x, r, k, k + 1);
    } else {
      var j :| LastNotify(acts, x, r, j, k);
      assert LastNotify(acts, x, r, j, k + 1);
    }
  }

  lemma StashStep(w: Table, w': Table, acts: seq<Action>, k: nat, x: nat)
    requires k < |acts| && Steps(w, acts[k], w') && StashOk(w, acts, k) && x in w'.recent
    ensures x !in w'.pending && LastResult(acts, x, w'.recent[x], k + 1)
  {
    StashKept(w, acts[k], w', x);
    LastMore(acts, x, w'.recent[x], k);
  }

  // In every run a handler that is answered at once is given the last result
  // there was for its index.
  lemma {:induction false} StashIsLast(run: seq<Table>, acts: seq<Action>, k: nat)
    requires IsRun(run, acts) && k < |run|
    ensures StashOk(run[k], acts, k)
    ensures k < |acts| && Hit(run[k], acts[k]) ==>
              && Register(run[k], acts[k].index, acts[k].ch).1.Answered?
              && LastResult(acts, acts[k].index, Register(run[k], acts[k].index, acts[k].ch).1.result, k)
  {
    if k > 0 {
      StashIsLast(run, acts, k - 1);
      assert Steps(run[k - 1], acts[k - 1], run[k - 1 + 1]);
      forall x | x in run[k].recent
        ensures x !in run[k].pending && LastResult(acts, x, run[k].recent[x], k)
      {
        StashStep(run[k - 1], run[k], acts, k - 1, x);
      }
    }
  }

  // ---- The entry left behind ----

  // Registering after the result is stashed leaves a pending entry that only a
  // second result for the same index, a timeout or shutdown removes.
  lemma HitLeavesEntry(w: Table, x: nat, ch: nat, a: Action, w': Table)
    requires !w.dead && |w.pending| < w.maxPending && x in w.recent
    requires Steps(Register(w, x, ch).0, a, w')
    ensures x in w'.pending <==> a != DoTimeOut(x) && a != DoKill && !(a.DoNotify? && a.index == x)
  {
    EntryStays(Register(w, x, ch).0, x, a, w');
  }

  lemma EntryStays(w: Table, x: nat, a: Action, w': Table)
    requires !w.dead && x in w.pending && Steps(w, a, w')
    ensures x in w'.pending <==> a != DoTimeOut(x) && a != DoKill && !(a.DoNotify? && a.index == x)
  {
  }

  // An entry whose handler has been answered already.
  ghost predicate Orphan(w: Table) {
    exists x :: x in w.pending && w.pending[x] in w.answers
  }

  // A registration that goes through and finds its result stashed.
  ghost predicate Hit(w: Table, a: Action) {
    a.DoRegister? && !w.dead && |w.pending| < w.maxPending && a.index in w.recent
  }

  ghost predicate NoHits(run: seq<Table>, acts: seq<Action>, k: nat)
    requires k <= |acts| < |run|
  {
    forall i :: 0 <= i < k ==> !Hit(run[i], acts[i])
  }

  lemma {:induction false} NoHitsNoAnswers(run: seq<Table>, acts: seq<Action>, k: nat)
    requires IsRun(run, acts) && k <= |acts| && NoHits(run, acts, k)
    ensures run[k].answers == map[]
  {
    if k > 0 {
      NoHitsNoAnswers(run, acts, k - 1);
      assert Steps(run[k - 1], acts[k - 1], run[k - 1 + 1]) && !Hit(run[k - 1], acts[k - 1]);
    }
  }

  lemma HitOrphans(w: Table, a: Action, w': Table)
    requires Steps(w, a, w') && Hit(w, a)
    ensures Orphan(w')
  {
    assert a.index in w'.pending && w'.pending[a.index] == a.ch && a.ch in w'.answers;
  }

  // No pending entry ever outlives its handler, in a whole run, if and only if
  // no registration in it finds its result stashed.
  lemma NoOrphansExactly(run: seq<Table>, acts: seq<Action>)
    requires IsRun(run, acts)
    ensures (forall k :: 0 <= k < |run| ==> !Orphan(run[k])) <==> NoHits(run, acts, |acts|)
  {
    if NoHits(run, acts, |acts|) {
      forall k | 0 <= k < |run|
        ensures !Orphan(run[k])
      {
        NoHitsNoAnswers(run, acts, k);
      }
    } else {
      var i :| 0 <= i < |acts| && Hit(run[i], acts[i]);
      HitOrphans(run[i], acts[i], run[i + 1]);
    }
  }

  // n requests were answered, nobody waits, and n entries are left behind.
  ghost predicate Leaked(w: Table, n: nat) {
    && !w.dead && w.recent == map[] && |w.pending| == n <= w.maxPending
    && (forall x :: x in w.pending ==> x < n) && (forall ch :: ch in w.chans ==> ch < n)
    && (forall ch: nat :: ch < n ==> ch in w.answers)
  }

  lemma Stashed(w: Table, x: nat, r: Result)
    requires w.recent == map[] && x !in w.pending && w.maxPending > 0
    ensures Notified(w, x, r, w.(recent := map[x := r]))
  {
    assert w.recent[x := r] == map[x := r];
  }

  lemma PickedUp(w: Table, n: nat, r: Result)
    requires Leaked(w, n) && n < w.maxPending
    ensures Leaked(Register(w.(recent := map[n := r]), n, n).0, n + 1)
  {
    assert map[n := r] - {n} == map[];
    assert Register(w.(recent := map[n := r]), n, n).0 ==
      Table(w.pending[n := n], map[], w.chans[n := []], w.answers[n := r], w.maxPending, false);
    LeakedMore(w, Table(w.pending[n := n], map[], w.chans[n := []], w.answers[n := r], w.maxPending, false), n, r);
  }

  lemma LeakedMore(w: Table, w': Table, n: nat, r: Result)
    requires Leaked(w, n) && n < w.maxPending
    requires w' == Table(w.pending[n := n], map[], w.chans[n := []], w.answers[n := r], w.maxPending, false)
    ensures Leaked(w', n + 1)
  {
    assert w'.pending.Keys == w.pending.Keys + {n} && n !in w.pending.Keys;
    assert |w'.pending.Keys| == |w.pending.Keys| + 1;
  }

  // So a server can answer maxPending requests, have nobody waiting, and refuse
  // every request from then on.
  lemma {:induction false} TableFills(n: nat, max: nat) returns (run: seq<Table>, acts: seq<Action>)
    requires n <= max
    ensures IsRun(run, acts) && run[|run| - 1].maxPending == max && Leaked(run[|run| - 1], n)
    ensures var w := run[|run| - 1]; n == max ==> forall x: nat, ch: nat :: Register(w, x, ch).1 == TooMany
  {
    if n == 0 {
      run, acts := [Table(map[], map[], map[], map[], max, false)], [];
    } else {
      var r, x := Result("", NoErr), n - 1;
      run, acts := TableFills(x, max);
      var w := run[|run| - 1];
      Stashed(w, x, r);
      PickedUp(w, x, r);
      run, acts := Longer(run, acts, DoNotify(x, r), w.(recent := map[x := r]));
      run, acts := Longer(run, acts, DoRegister(x, x), Register(w.(recent := map[x := r]), x, x).0);
    }
  }

  lemma Longer(run: seq<Table>, acts: seq<Action>, a: Action, w: Table) returns (run': seq<Table>, acts': seq<Action>)
    requires IsRun(run, acts) && Steps(run[|run| - 1], a, w)
    ensures IsRun(run', acts') && run'[|run'| - 1] == w
  {
    run', acts' := run + [w], acts + [a];
    forall k | 0 <= k < |acts'|
      ensures Steps(run'[k], acts'[k], run'[k + 1])
    {
      if k < |acts| {
        assert run'[k] == run[k] && run'[k + 1] == run[k + 1];
      }
    }
  }
}
