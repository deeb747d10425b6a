/**
 * The store as clients see it: one dictionary from keys to values, and no
 * shards. When the sharded table has at least one shard, it gives the same
 * answers and the same aborts as apply_command, and the sharded table is
 * indistinguishable from it (see module Refinement). A sharded table with
 * zero shards instead aborts every GET and SET.
 */
module SingleMap {
  import opened Protocol

  type Table = map<Key, Bytes>

  /** The table after one command, and what the command answered. */
  datatype Step = Step(table: Table, outcome: Outcome)

  /** One command against a single dictionary. */
  function Apply(table: Table, cmd: Command): (r: Step)
    ensures r.outcome.Panic? <==> !cmd.IsData()
    ensures cmd.Set? ==> r.table.Keys == table.Keys + {cmd.key}
    ensures !cmd.Set? ==> r.table == table
  {
    match cmd
    case Get(key) => Step(table, Reply(if key in table then Bulk(table[key]) else Null))
    case Set(key, value) => Step(table[key := value], Reply(Simple(OK)))
    case Publish(_, _) => Step(table, Panic(NotImplemented))
    case Subscribe(_) => Step(table, Panic(NotImplemented))
    case Unsubscribe(_) => Step(table, Panic(NotImplemented))
    case Unknown(_) => Step(table, Panic(UnknownCommand))
  }

  /** The table after a history of commands, and the answer to each one. */
  datatype Trace = Trace(table: Table, replies: seq<Outcome>)

  /** A history of commands against a single dictionary. */
  function Run(table: Table, cmds: seq<Command>): (t: Trace)
    ensures |t.replies| == |cmds|
    decreases |cmds|
  {
    if cmds == [] then Trace(table, [])
    else
      var step := Apply(table, cmds[0]);
      var rest := Run(step.table, cmds[1..]);
      Trace(rest.table, [step.outcome] + rest.replies)
  }
}
