/**
 * The data path of the sharded table over a snapshot of its shards: routing
 * a key to its shard, the GET and SET arms of apply_command, and a history of
 * such steps. Every step is one atomic action; the per-shard locks that let
 * connections run at the same time serialise steps on a shard, so any run of
 * the server is some sequence of these steps.
 */
module Sharding {
  import opened Protocol

  /** One past the largest `usize` on the 64-bit targets the server runs on. */
  const USIZE_BOUND: int := 0x1_0000_0000_0000_0000

  type Usize = x: int | 0 <= x < USIZE_BOUND

  /**
   * calculate_hash: a deterministic hash of a key, taken as a `usize`.
   * Nothing else is known about it.
   */
  type Hasher = Key -> Usize

  /** One partition of the key space. */
  type Shard = map<Key, Bytes>

  /** The index of the shard that owns `key`: the hash modulo the shard count. */
  function Route(hash: Hasher, key: Key, shardCount: nat): (i: nat)
    requires shardCount > 0
    ensures i < shardCount
  {
    hash(key) % shardCount
  }

  /** The GET arm: look the key up in its routed shard. */
  function Lookup(shards: seq<Shard>, hash: Hasher, key: Key): (r: Outcome)
    ensures r.Panic? <==> |shards| == 0
    ensures r.Panic? ==> r.reason == RemainderByZero
    ensures r.Reply? ==> r.frame.Bulk? || r.frame.Null?
  {
    if |shards| == 0 then Panic(RemainderByZero)
    else
      var shard := shards[Route(hash, key, |shards|)];
      if key in shard then Reply(Bulk(shard[key])) else Reply(Null)
  }

  /** The SET arm's effect: insert or overwrite the key in its routed shard. */
  function Store(shards: seq<Shard>, hash: Hasher, key: Key, value: Bytes): (s: seq<Shard>)
    requires |shards| > 0
    ensures |s| == |shards|
    ensures forall j :: 0 <= j < |s| && j != Route(hash, key, |shards|) ==> s[j] == shards[j]
    ensures var i := Route(hash, key, |shards|);
      && s[i].Keys == shards[i].Keys + {key}
      && s[i][key] == value
      && forall k :: k in shards[i] && k != key ==> s[i][k] == shards[i][k]
  {
    var i := Route(hash, key, |shards|);
    shards[i := shards[i][key := value]]
  }

  /** The shards after one command, and what the command answered. */
  datatype Step = Step(shards: seq<Shard>, outcome: Outcome)

  /** apply_command over a snapshot of the shards. */
  function Apply(shards: seq<Shard>, hash: Hasher, cmd: Command): (r: Step)
    ensures |r.shards| == |shards|
    ensures r.outcome.Panic? <==> |shards| == 0 || !cmd.IsData()
    ensures r.outcome.Panic? ==> r.shards == shards
    ensures !cmd.Set? ==> r.shards == shards
  {
    match cmd
    case Get(key) => Step(shards, Lookup(shards, hash, key))
    case Set(key, value) =>
      if |shards| == 0 then Step(shards, Panic(RemainderByZero))
      else Step(Store(shards, hash, key, value), Reply(Simple(OK)))
    case Publish(_, _) => Step(shards, Panic(NotImplemented))
    case Subscribe(_) => Step(shards, Panic(NotImplemented))
    case Unsubscribe(_) => Step(shards, Panic(NotImplemented))
    case Unknown(_) => Step(shards, Panic(UnknownCommand))
  }

  /** The shards after a history of commands, and the answer to each one. */
  datatype Trace = Trace(shards: seq<Shard>, replies: seq<Outcome>)

  /** A history of apply_command steps on one store, in the order they took effect. */
  function Run(shards: seq<Shard>, hash: Hasher, cmds: seq<Command>): (t: Trace)
    ensures |t.shards| == |shards|
    ensures |t.replies| == |cmds|
    ensures forall j :: 0 <= j < |cmds| && !cmds[j].IsData() ==> t.replies[j].Panic?
    decreases |cmds|
  {
    if cmds == [] then Trace(shards, [])
    else
      var step := Apply(shards, hash, cmds[0]);
      var rest := Run(step.shards, hash, cmds[1..]);
      Trace(rest.shards, [step.outcome] + rest.replies)
  }

  /** No command of `cmds` is a SET of `key`. */
  predicate NoSetOf(cmds: seq<Command>, key: Key) {
    forall j :: 0 <= j < |cmds| ==> !(cmds[j].Set? && cmds[j].key == key)
  }

  /** A key is routed to the same shard before and after any history. */
  lemma RouteIsStable(shards: seq<Shard>, hash: Hasher, cmds: seq<Command>, key: Key)
    requires |shards| > 0
    ensures |Run(shards, hash, cmds).shards| > 0
    ensures Route(hash, key, |Run(shards, hash, cmds).shards|) == Route(hash, key, |shards|)
  {
  }

  /** GET after SET of the same key answers the value just written. */
  lemma ReadAfterWrite(shards: seq<Shard>, hash: Hasher, key: Key, value: Bytes)
    requires |shards| > 0
    ensures Lookup(Store(shards, hash, key, value), hash, key) == Reply(Bulk(value))
  {
  }

  /** A second SET of a key leaves no trace of the first one. */
  lemma OverwriteWins(shards: seq<Shard>, hash: Hasher, key: Key, v1: Bytes, v2: Bytes)
    requires |shards| > 0
    ensures Store(Store(shards, hash, key, v1), hash, key, v2) == Store(shards, hash, key, v2)
    ensures Lookup(Store(Store(shards, hash, key, v1), hash, key, v2), hash, key) == Reply(Bulk(v2))
  {
    var i := Route(hash, key, |shards|);
    assert shards[i][key := v1][key := v2] == shards[i][key := v2];
  }

  /** SET of one key does not change what GET answers for any other key. */
  lemma StoreLeavesOtherKeys(shards: seq<Shard>, hash: Hasher, key: Key, value: Bytes, other: Key)
    requires |shards| > 0
    requires other != key
    ensures Lookup(Store(shards, hash, key, value), hash, other) == Lookup(shards, hash, other)
  {
  }

  /** Running `a` and then `b` is running `a + b`. */
  lemma {:induction false} RunAppend(shards: seq<Shard>, hash: Hasher, a: seq<Command>, b: seq<Command>)
    ensures var first := Run(shards, hash, a);
      var second := Run(first.shards, hash, b);
      Run(shards, hash, a + b) == Trace(second.shards, first.replies + second.replies)
    decreases |a|
  {
    if a == [] {
      assert a + b == b;
    } else {
      var step := Apply(shards, hash, a[0]);
      assert (a + b)[0] == a[0];
      assert (a + b)[1..] == a[1..] + b;
      var first := Run(step.shards, hash, a[1..]);
      var second := Run(first.shards, hash, b);
      RunAppend(step.shards, hash, a[1..], b);
      assert Run(shards, hash, a) == Trace(first.shards, [step.outcome] + first.replies);
      assert [step.outcome] + (first.replies + second.replies) == ([step.outcome] + first.replies) + second.replies;
    }
  }

  /** A history without a SET of `key` does not change what GET answers for it. */
  lemma {:induction false} RunKeepsKey(shards: seq<Shard>, hash: Hasher, cmds: seq<Command>, key: Key)
    requires NoSetOf(cmds, key)
    ensures Lookup(Run(shards, hash, cmds).shards, hash, key) == Lookup(shards, hash, key)
    decreases |cmds|
  {
    if cmds != [] {
      var step := Apply(shards, hash, cmds[0]);
      if cmds[0].Set? && |shards| > 0 {
        StoreLeavesOtherKeys(shards, hash, cmds[0].key, cmds[0].value, key);
      }
      assert NoSetOf(cmds[1..], key) by {
        forall j | 0 <= j < |cmds| - 1 ensures !(cmds[1..][j].Set? && cmds[1..][j].key == key) {
          assert cmds[1..][j] == cmds[j + 1];
        }
      }
      RunKeepsKey(step.shards, hash, cmds[1..], key);
    }
  }

  /**
   * The last write wins: after SET key value, and any later history that
   * does not SET key again, GET key answers value.
   */
  lemma LastWriteWins(shards: seq<Shard>, hash: Hasher, key: Key, value: Bytes, later: seq<Command>)
    requires |shards| > 0
    requires NoSetOf(later, key)
    ensures var t := Run(shards, hash, [Set(key, value)] + later + [Get(key)]);
      t.replies[|t.replies| - 1] == Reply(Bulk(value))
  {
    var written := Run(shards, hash, [Set(key, value)]);
    assert [Set(key, value)][1..] == [];
    assert Run(Store(shards, hash, key, value), hash, []).shards == Store(shards, hash, key, value);
    assert written.shards == Store(shards, hash, key, value);
    ReadAfterWrite(shards, hash, key, value);
    RunKeepsKey(written.shards, hash, later, key);
    var middle := Run(written.shards, hash, later);
    RunAppend(shards, hash, [Set(key, value)], later);
    RunAppend(shards, hash, [Set(key, value)] + later, [Get(key)]);
    var last := Run(middle.shards, hash, [Get(key)]);
    assert last.replies == [Lookup(middle.shards, hash, key)];
  }
}
