// What a sequence of commands makes of the map, read off the commands alone
// (kv/apply.go).
module StoreSpec {
  import opened KvTypes
  import opened KvSpec

  // The map after executing every command that can be decoded.
  function FoldCommands(store: Store, cmds: seq<Command>): Store
    decreases |cmds|
  {
    if cmds == [] then store
    else
      var before, cmd := FoldCommands(store, cmds[..|cmds| - 1]), cmds[|cmds| - 1];
      if cmd.Encoded? then Execute(before, cmd.op).0 else before
  }

  function ResultOf(store: Store, cmd: Command): Result {
    if cmd.Encoded? then Execute(store, cmd.op).1 else Result("", Undecodable)
  }

  lemma FoldMore(store: Store, cmds: seq<Command>, k: nat)
    requires k < |cmds|
    ensures FoldCommands(store, cmds[..k + 1]) ==
            if cmds[k].Encoded? then Execute(FoldCommands(store, cmds[..k]), cmds[k].op).0 else FoldCommands(store, cmds[..k])
  {
    assert cmds[..k + 1][..k] == cmds[..k];
  }

  // ---- One key ----

  predicate PutsTo(cmd: Command, key: string) {
    cmd.Encoded? && cmd.op.kind == OpPut && cmd.op.key == key
  }

  predicate AppendsTo(cmd: Command, key: string) {
    cmd.Encoded? && cmd.op.kind == OpAppend && cmd.op.key == key
  }

  ghost predicate Named(cmds: seq<Command>, key: string) {
    exists k :: 0 <= k < |cmds| && (PutsTo(cmds[k], key) || AppendsTo(cmds[k], key))
  }

  // Command p is the last Put to the key.
  ghost predicate LastPut(cmds: seq<Command>, key: string, p: int) {
    0 <= p < |cmds| && PutsTo(cmds[p], key) && forall j :: p < j < |cmds| ==> !PutsTo(cmds[j], key)
  }

  // The values appended to the key from command p on, first to last.
  function Appended(cmds: seq<Command>, key: string, p: nat): string
    requires p <= |cmds|
    decreases |cmds| - p
  {
    if p == |cmds| then ""
    else (if AppendsTo(cmds[p], key) then cmds[p].op.value else "") + Appended(cmds, key, p + 1)
  }

  // From `before` the commands have made a map that has the key if it was there
  // or a Put or an Append names it. Its value is that of the last Put, or what
  // was there, followed by the values of the later Appends in order.
  ghost predicate Bound(before: Store, cmds: seq<Command>, key: string, store: Store) {
    && (key in store <==> key in before || Named(cmds, key))
    && (forall p :: LastPut(cmds, key, p) && key in store ==> store[key] == cmds[p].op.value + Appended(cmds, key, p + 1))
    && ((forall p :: !LastPut(cmds, key, p)) && key in store ==>
          store[key] == (if key in before then before[key] else "") + Appended(cmds, key, 0))
  }

  ghost predicate Written(before: Store, cmds: seq<Command>, store: Store) {
    forall key :: Bound(before, cmds, key, store)
  }

  lemma Joins(a: string, b: string, c: string)
    ensures (a + b) + c == a + (b + c)
  {
  }

  // One more command adds its value at the end, or nothing.
  lemma {:induction false} AppendedMore(cmds: seq<Command>, cmd: Command, key: string, p: nat)
    requires p <= |cmds|
    ensures Appended(cmds + [cmd], key, p) == Appended(cmds, key, p) + if AppendsTo(cmd, key) then cmd.op.value else ""
    decreases |cmds| - p
  {
    var x := if AppendsTo(cmd, key) then cmd.op.value else "";
    if p == |cmds| {
      assert Appended(cmds + [cmd], key, p + 1) == "";
      assert x + "" == "" + x;
    } else {
      AppendedMore(cmds, cmd, key, p + 1);
      assert (cmds + [cmd])[p] == cmds[p];
      Joins(if AppendsTo(cmds[p], key) then cmds[p].op.value else "", Appended(cmds, key, p + 1), x);
    }
  }

  lemma LastPutMore(cmds: seq<Command>, cmd: Command, key: string, p: int)
    requires !PutsTo(cmd, key)
    ensures LastPut(cmds + [cmd], key, p) <==> LastPut(cmds, key, p)
  {
    var all := cmds + [cmd];
    assert forall j :: 0 <= j < |cmds| ==> all[j] == cmds[j];
  }

  lemma NamedMore(cmds: seq<Command>, cmd: Command, key: string)
    ensures Named(cmds + [cmd], key) <==> Named(cmds, key) || PutsTo(cmd, key) || AppendsTo(cmd, key)
  {
    var all := cmds + [cmd];
    assert all[|cmds|] == cmd && forall j :: 0 <= j < |cmds| ==> all[j] == cmds[j];
  }

  lemma {:induction false} UnnamedAppended(cmds: seq<Command>, key: string, p: nat)
    requires p <= |cmds| && !Named(cmds, key)
    ensures Appended(cmds, key, p) == ""
    decreases |cmds| - p
  {
    if p < |cmds| { UnnamedAppended(cmds, key, p + 1); }
  }

  lemma PutBinds(before: Store, cmds: seq<Command>, cmd: Command, key: string, store: Store)
    requires PutsTo(cmd, key) && key in store && store[key] == cmd.op.value
    ensures Bound(before, cmds + [cmd], key, store)
  {
    var all := cmds + [cmd];
    NamedMore(cmds, cmd, key);
    assert all[|cmds|] == cmd && LastPut(all, key, |cmds|);
    assert Appended(all, key, |all|) == "";
    assert cmd.op.value + "" == cmd.op.value;
  }

  // After the last Put,
  lemma AppendAfterPut(cmds: seq<Command>, cmd: Command, key: string, p: int, value: string)
    requires AppendsTo(cmd, key) && LastPut(cmds, key, p) && value == cmds[p].op.value + Appended(cmds, key, p + 1)
    ensures value + cmd.op.value == (cmds + [cmd])[p].op.value + Appended(cmds + [cmd], key, p + 1)
  {
    AppendedMore(cmds, cmd, key, p + 1);
    Joins(cmds[p].op.value, Appended(cmds, key, p + 1), cmd.op.value);
  }

  // or without one.
  lemma AppendAfterNone(cmds: seq<Command>, cmd: Command, key: string, was: string, value: string)
    requires AppendsTo(cmd, key) && value == was + Appended(cmds, key, 0)
    ensures value + cmd.op.value == was + Appended(cmds + [cmd], key, 0)
  {
    AppendedMore(cmds, cmd, key, 0);
    Joins(was, Appended(cmds, key, 0), cmd.op.value);
  }

  lemma AppendBinds(before: Store, cmds: seq<Command>, cmd: Command, key: string, store: Store, store': Store)
    requires AppendsTo(cmd, key) && Bound(before, cmds, key, store)
    requires key in store' && store'[key] == (if key in store then store[key] else "") + cmd.op.value
    ensures Bound(before, cmds + [cmd], key, store')
  {
    var all, value := cmds + [cmd], if key in store then store[key] else "";
    NamedMore(cmds, cmd, key);
    forall p
      ensures LastPut(all, key, p) <==> LastPut(cmds, key, p)
      ensures LastPut(all, key, p) ==> store'[key] == all[p].op.value + Appended(all, key, p + 1)
    {
      LastPutMore(cmds, cmd, key, p);
      if LastPut(cmds, key, p) {
        assert Named(cmds, key);
        AppendAfterPut(cmds, cmd, key, p, value);
      }
    }
    if forall p :: !LastPut(cmds, key, p) {
      if key !in store { UnnamedAppended(cmds, key, 0); }
      AppendAfterNone(cmds, cmd, key, if key in before then before[key] else "", value);
    }
  }

  lemma OthersBind(before: Store, cmds: seq<Command>, cmd: Command, key: string, store: Store, store': Store)
    requires !PutsTo(cmd, key) && !AppendsTo(cmd, key) && Bound(before, cmds, key, store)
    requires key in store' <==> key in store
    requires key in store ==> store'[key] == store[key]
    ensures Bound(before, cmds + [cmd], key, store')
  {
    var all := cmds + [cmd];
    NamedMore(cmds, cmd, key);
    AppendedMore(cmds, cmd, key, 0);
    forall p
      ensures LastPut(all, key, p) <==> LastPut(cmds, key, p)
      ensures LastPut(all, key, p) && key in store ==> store'[key] == all[p].op.value + Appended(all, key, p + 1)
    {
      LastPutMore(cmds, cmd, key, p);
      if LastPut(all, key, p) {
        AppendedMore(cmds, cmd, key, p + 1);
        assert all[p] == cmds[p];
      }
    }
  }

  lemma BoundMore(before: Store, cmds: seq<Command>, cmd: Command, key: string, store: Store)
    requires Bound(before, cmds, key, store)
    ensures Bound(before, cmds + [cmd], key, if cmd.Encoded? then Execute(store, cmd.op).0 else store)
  {
    var store' := if cmd.Encoded? then Execute(store, cmd.op).0 else store;
    if PutsTo(cmd, key) {
      PutBinds(before, cmds, cmd, key, store');
    } else if AppendsTo(cmd, key) {
      AppendBinds(before, cmds, cmd, key, store, store');
    } else {
      OthersBind(before, cmds, cmd, key, store, store');
    }
  }

  // ---- All keys ----

  // For every command sequence and every key, from whatever map.
  lemma {:induction false} FoldIsWritten(before: Store, cmds: seq<Command>)
    ensures Written(before, cmds, FoldCommands(before, cmds))
    decreases |cmds|
  {
    if cmds != [] {
      var rest, cmd := cmds[..|cmds| - 1], cmds[|cmds| - 1];
      assert cmds == rest + [cmd];
      FoldIsWritten(before, rest);
      forall key
        ensures Bound(before, cmds, key, FoldCommands(before, cmds))
      {
        BoundMore(before, rest, cmd, key, FoldCommands(before, rest));
      }
    }
  }

  // No other map is.
  lemma WrittenOnce(before: Store, cmds: seq<Command>, store: Store)
    requires Written(before, cmds, store)
    ensures store == FoldCommands(before, cmds)
  {
    FoldIsWritten(before, cmds);
    var fold := FoldCommands(before, cmds);
    forall key
      ensures key in store <==> key in fold
      ensures key in store ==> store[key] == fold[key]
    {
      assert Bound(before, cmds, key, store) && Bound(before, cmds, key, fold);
    }
  }

  // ---- Results ----

  // What a command is answered when it finds this map: a Get is given the value
  // or told there is none, and only unknown or undecodable commands fail.
  ghost predicate AnsweredFrom(store: Store, cmd: Command, r: Result) {
    match cmd
    case Malformed(_) => r == Result("", Undecodable)
    case Encoded(op) =>
      match op.kind
      case OpGet => r == if op.key in store then Result(store[op.key], NoErr) else Result("", KeyNotFound)
      case OpOther(code) => r == Result("", UnknownOp(code))
      case _ => r == Result("", NoErr)
  }

  lemma ResultAnswered(store: Store, cmd: Command)
    ensures AnsweredFrom(store, cmd, ResultOf(store, cmd))
  {
  }

  // A Get is answered by what the commands before it wrote; it and whatever
  // fails write nothing.
  lemma GetReadsWrites(cmds: seq<Command>, get: Op, store: Store, r: Result)
    requires get.kind == OpGet && Written(map[], cmds, store) && AnsweredFrom(store, Encoded(get), r)
    ensures r.err == KeyNotFound <==> !Named(cmds, get.key)
    ensures r.err in {NoErr, KeyNotFound}
    ensures forall p :: LastPut(cmds, get.key, p) ==> r.value == cmds[p].op.value + Appended(cmds, get.key, p + 1)
    ensures Named(cmds, get.key) && (forall p :: !LastPut(cmds, get.key, p)) ==> r.value == Appended(cmds, get.key, 0)
    ensures Written(map[], cmds + [Encoded(get)], store)
  {
    assert Bound(map[], cmds, get.key, store);
    forall key
      ensures Bound(map[], cmds + [Encoded(get)], key, store)
    {
      assert Bound(map[], cmds, key, store);
      BoundMore(map[], cmds, Encoded(get), key, store);
    }
  }
}
