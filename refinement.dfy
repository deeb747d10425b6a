/**
 * The sharded table refines a single dictionary: every shard holds exactly
 * the entries of the dictionary whose keys route to it. When the table has
 * at least one shard, every command, and so every history of commands, gets
 * the same answer from both. With zero shards every GET and SET aborts
 * instead (see NoShardsAbortsData).
 */
module Refinement {
  import opened Protocol
  import opened Sharding
  import SingleMap

  /** The entries of `table` whose keys route to shard `i` of `n`. */
  function Part(table: SingleMap.Table, hash: Hasher, n: nat, i: nat): (p: Shard)
    requires n > 0
  {
    map k | k in table && Route(hash, k, n) == i :: table[k]
  }

  /**
   * The shards hold `table`, split by routing; a store without shards
   * holds nothing.
   */
  ghost predicate Represents(shards: seq<Shard>, hash: Hasher, table: SingleMap.Table) {
    && (|shards| == 0 ==> table == map[])
    && forall i :: 0 <= i < |shards| ==> shards[i] == Part(table, hash, |shards|, i)
  }

  /** Every key a shard holds routes to that shard. */
  lemma KeysLiveInTheirShard(shards: seq<Shard>, hash: Hasher, table: SingleMap.Table)
    requires Represents(shards, hash, table)
    ensures forall i, key :: 0 <= i < |shards| && key in shards[i] ==> Route(hash, key, |shards|) == i
  {
  }

  /** Shards that are all empty hold the empty dictionary. */
  lemma EmptyShardsRepresentEmpty(shards: seq<Shard>, hash: Hasher)
    requires forall i :: 0 <= i < |shards| ==> shards[i] == map[]
    ensures Represents(shards, hash, map[])
  {
  }

  /** GET on the shards answers what GET on the dictionary answers. */
  lemma LookupRefines(shards: seq<Shard>, hash: Hasher, table: SingleMap.Table, key: Key)
    requires Represents(shards, hash, table)
    ensures Lookup(shards, hash, key) ==
      if |shards| == 0 then Panic(RemainderByZero)
      else Reply(if key in table then Bulk(table[key]) else Null)
  {
  }

  /** SET on the shards is SET on the dictionary, split by routing. */
  lemma StoreRefines(shards: seq<Shard>, hash: Hasher, table: SingleMap.Table, key: Key, value: Bytes)
    requires Represents(shards, hash, table)
    requires |shards| > 0
    ensures Represents(Store(shards, hash, key, value), hash, table[key := value])
  {
  }

  /**
   * When there is at least one shard, one command gets the same answer, and
   * leaves the same contents, in both stores.
   */
  lemma ApplyRefines(shards: seq<Shard>, hash: Hasher, table: SingleMap.Table, cmd: Command)
    requires Represents(shards, hash, table)
    requires |shards| > 0
    ensures Apply(shards, hash, cmd).outcome == SingleMap.Apply(table, cmd).outcome
    ensures Represents(Apply(shards, hash, cmd).shards, hash, SingleMap.Apply(table, cmd).table)
  {
    match cmd
    case Get(key) => LookupRefines(shards, hash, table, key);
    case Set(key, value) => StoreRefines(shards, hash, table, key, value);
    case _ =>
  }

  /**
   * When the table has at least one shard, any history of commands gets the
   * same answers from the sharded table as from a single dictionary, and
   * leaves the shards holding the dictionary's final contents.
   */
  lemma {:induction false} RunRefines(shards: seq<Shard>, hash: Hasher, table: SingleMap.Table, cmds: seq<Command>)
    requires Represents(shards, hash, table)
    requires |shards| > 0
    ensures Run(shards, hash, cmds).replies == SingleMap.Run(table, cmds).replies
    ensures Represents(Run(shards, hash, cmds).shards, hash, SingleMap.Run(table, cmds).table)
    decreases |cmds|
  {
    if cmds != [] {
      var step := Apply(shards, hash, cmds[0]);
      var ref := SingleMap.Apply(table, cmds[0]);
      ApplyRefines(shards, hash, table, cmds[0]);
      RunRefines(step.shards, hash, ref.table, cmds[1..]);
    }
  }

  /** A store with no shards aborts every GET and SET and never changes. */
  lemma {:induction false} NoShardsAbortsData(hash: Hasher, cmds: seq<Command>)
    ensures Run([], hash, cmds).shards == []
    ensures forall j :: 0 <= j < |cmds| ==> Run([], hash, cmds).replies[j].Panic?
    decreases |cmds|
  {
    if cmds != [] {
      NoShardsAbortsData(hash, cmds[1..]);
    }
  }
}
