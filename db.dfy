/**
 * The server's shared table: a fixed-length array of shards, built once and
 * never resized, updated in place by SET. A ghost dictionary gives the
 * contents as clients see them, and Valid() ties the shards to it.
 */
module KvServer {
  import opened Protocol
  import opened Sharding
  import SingleMap
  import Refinement

  class Db {
    /** The hash used to route keys; fixed for the life of the store. */
    const hash: Hasher
    /** The shards; the array itself never changes length. */
    const state: array<Shard>
    /** The contents of the whole store, as one dictionary. */
    ghost var table: SingleMap.Table

    ghost predicate Valid()
      reads this, state
    {
      Refinement.Represents(state[..], hash, table)
    }

    /** Db::new: `numShards` empty shards. Zero shards is accepted. */
    constructor (numShards: nat, hash: Hasher)
      ensures Valid() && fresh(state)
      ensures this.hash == hash
      ensures state.Length == numShards
      ensures forall i :: 0 <= i < numShards ==> state[i] == map[]
      ensures table == map[]
    {
      var shards := new Shard[numShards];
      for i := 0 to numShards
        invariant forall j :: 0 <= j < i ==> shards[j] == map[]
      {
        shards[i] := map[];
      }
      Refinement.EmptyShardsRepresentEmpty(shards[..], hash);
      this.hash := hash;
      state := shards;
      table := map[];
    }

    /** The GET arm: the stored value, Null when the key is absent. */
    function Get(key: Key): (r: Outcome)
      reads this, state
      requires Valid()
      ensures state.Length == 0 ==> r == Panic(RemainderByZero)
      ensures state.Length > 0 ==> r == Reply(if key in table then Bulk(table[key]) else Null)
    {
      Refinement.LookupRefines(state[..], hash, table, key);
      Lookup(state[..], hash, key)
    }

    /** The SET arm: insert or overwrite the key in its shard, in place. */
    method Set(key: Key, value: Bytes) returns (r: Outcome)
      requires Valid()
      modifies this, state
      ensures Valid()
      ensures state.Length == 0 ==> r == Panic(RemainderByZero) && unchanged(this, state)
      ensures state.Length > 0 ==> && r == Reply(Simple(OK))
                                   && state[..] == Store(old(state[..]), hash, key, value)
                                   && table == old(table)[key := value]
    {
      if state.Length == 0 {
        return Panic(RemainderByZero);
      }
      var i := Route(hash, key, state.Length);
      Refinement.StoreRefines(state[..], hash, table, key, value);
      state[i] := state[i][key := value];
      table := table[key := value];
      r := Reply(Simple(OK));
    }

    /**
     * apply_command: GET and SET go to the table; the publish/subscribe
     * commands and unknown commands abort.
     */
    method ApplyCommand(cmd: Command) returns (r: Outcome)
      requires Valid()
      modifies this, state
      ensures Valid()
      ensures var step := Sharding.Apply(old(state[..]), hash, cmd);
        r == step.outcome && state[..] == step.shards
      ensures state.Length > 0 ==> var step := SingleMap.Apply(old(table), cmd);
        r == step.outcome && table == step.table
      ensures state.Length == 0 ==> table == old(table)
    {
      match cmd
      case Get(key) =>
        r := Get(key);
      case Set(key, value) =>
        r := Set(key, value);
      case Publish(_, _) =>
        r := Panic(NotImplemented);
      case Subscribe(_) =>
        r := Panic(NotImplemented);
      case Unsubscribe(_) =>
        r := Panic(NotImplemented);
      case Unknown(_) =>
        r := Panic(UnknownCommand);
    }
  }

  /**
   * The scenarios clients rely on, run against one store: a GET of a key
   * never set answers Null; SET answers OK; GET after SET answers the value;
   * a second SET overwrites; PUBLISH aborts and changes nothing; a store
   * built with no shards aborts every SET.
   */
  method Scenarios(hash: Hasher, foo: Key, bar: Bytes, baz: Bytes, other: Key)
    requires foo != other
  {
    var db := new Db(8, hash);
    var r := db.ApplyCommand(Command.Get(foo));
    assert r == Reply(Null);
    r := db.ApplyCommand(Command.Set(foo, bar));
    assert r == Reply(Simple(OK));
    r := db.ApplyCommand(Command.Get(foo));
    assert r == Reply(Bulk(bar));
    r := db.ApplyCommand(Command.Set(other, baz));
    r := db.ApplyCommand(Command.Get(foo));
    assert r == Reply(Bulk(bar));
    r := db.ApplyCommand(Command.Set(foo, baz));
    r := db.ApplyCommand(Command.Get(foo));
    assert r == Reply(Bulk(baz));
    r := db.ApplyCommand(Command.Publish("news", bar));
    assert r == Panic(NotImplemented);
    r := db.ApplyCommand(Command.Get(foo));
    assert r == Reply(Bulk(baz));

    var empty := new Db(0, hash);
    r := empty.ApplyCommand(Command.Set(foo, bar));
    assert r == Panic(RemainderByZero);
  }
}
