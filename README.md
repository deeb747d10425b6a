# Sharded key-value table of a mini Redis server

The server keeps its data in a table split into a fixed number of shards.
Each shard is a map from text keys to byte values. A key always goes to
shard `hash(key) % shard_count`, where `hash` is the process's deterministic
default hasher. `apply_command` answers GET with `Bulk(value)` or `Null`
and answers SET with `Simple("OK")` after inserting or overwriting the key.
PUBLISH, SUBSCRIBE and UNSUBSCRIBE hit `todo!()`, and an unknown command
hits `panic!`.

The model has five modules:

- `Protocol` (`protocol.dfy`): commands, response frames, and the `Outcome`
  of one command. An `Outcome` is either `Reply(frame)` or `Panic(reason)`,
  where the reason is one of `RemainderByZero`, `NotImplemented` and
  `UnknownCommand`.
- `Sharding` (`sharding.dfy`): the data path over a snapshot of the shards.
  It has routing (`Route`), the GET arm (`Lookup`), the SET arm (`Store`),
  `apply_command` (`Apply`), and a history of atomic steps (`Run`). Any run
  of the server is such a history, because each GET or SET holds its
  shard's lock for the whole step.
- `SingleMap` (`single_map.dfy`): the reference store, one dictionary
  (`Apply` for one command, `Run` for a history). When the sharded store has
  at least one shard, the reference gives the same answers and the same
  aborts. A store with zero shards aborts every GET and SET on the `% 0`,
  which the reference answers.
- `Refinement` (`refinement.dfy`): shard `i` holds exactly the entries of
  the dictionary whose keys route to `i`. `Part` is the helper that picks
  those entries. When the store has at least one shard, every command, and
  so every history, gets the same answers from both stores.
- `KvServer` (`db.dfy`): the `Db` class. It holds a `const` array of shards,
  so the length is fixed at construction like the `Arc<Vec<..>>`. SET
  updates one shard in place. A ghost field `table` holds the contents as
  clients see them, and `Valid()` ties the shards to it. The method
  `Scenarios` is a client of `Db`. It checks that the contracts of `Db` are
  enough for a client to work out the outcomes of a run of GET, SET and
  PUBLISH commands, and of a SET on a store with zero shards.

The hash is a value of type `Hasher = Key -> Usize`, given to the
constructor. It is deterministic and nothing else is assumed about it.

The code guards against neither of the following two cases, and the model follows the code:

- `Db::new(0)` is accepted. Every GET and SET on such a store then aborts
  with `RemainderByZero`.
- PUBLISH, SUBSCRIBE, UNSUBSCRIBE and unknown commands abort the
  connection's task. They do not answer with an error frame.

## Model

| member | source | states |
|---|---|---|
| `Sharding.Route` | main.rs:57-61 | the routed index is always below the shard count, so the `expect` on the shard lookup can never fire when there is at least one shard |
| `Sharding.Lookup` | main.rs:56-67 | GET aborts exactly when there are no shards (remainder by zero); otherwise it answers only `Bulk` or `Null` |
| `Sharding.Store` | main.rs:68-79 | SET keeps the shard count; every other shard is unchanged; the routed shard gains the key, holds the new value for it, and keeps every other key's value |
| `Sharding.Apply` | main.rs:54-94 | keeps the shard count; aborts exactly for a store with no shards or a command other than GET/SET; an aborting command and every command other than SET leave the shards unchanged |
| `Sharding.Run` | main.rs:54-94 | a history of steps keeps the shard count, gives one answer per command, and every non-data command aborts |
| `Sharding.RouteIsStable` | main.rs:15-18 | since no history resizes the shard vector, a key routes to the same shard before and after any history |
| `Sharding.ReadAfterWrite` | main.rs:56-78 | GET after SET of the same key answers `Bulk` of the value written |
| `Sharding.OverwriteWins` | main.rs:74-77 | a second SET of a key makes the store equal to one where only the second SET happened, and GET then answers the second value |
| `Sharding.StoreLeavesOtherKeys` | main.rs:68-78 | SET of one key does not change GET's answer for any other key |
| `Sharding.RunAppend` | main.rs:54-94 | running two histories one after the other equals running their concatenation |
| `Sharding.RunKeepsKey` | main.rs:54-94 | a history with no SET of a key does not change GET's answer for that key |
| `Sharding.LastWriteWins` | main.rs:56-78 | after SET of a key, GET answers the written value after any later history that does not SET that key again |
| `SingleMap.Apply` | main.rs:54-94 | the reference store aborts exactly for commands other than GET/SET; SET adds the key and GET leaves the table unchanged |
| `SingleMap.Run` | main.rs:54-94 | the reference store gives one answer per command of a history |
| `Refinement.KeysLiveInTheirShard` | main.rs:57-60 | in a well-formed store every key a shard holds routes to that shard |
| `Refinement.EmptyShardsRepresentEmpty` | main.rs:27-35 | the empty shards built by `Db::new` hold the empty dictionary |
| `Refinement.LookupRefines` | main.rs:56-67 | GET on the shards answers `Bulk(v)` exactly when the dictionary maps the key to `v` and `Null` when the key is absent; it aborts only when there are no shards |
| `Refinement.StoreRefines` | main.rs:68-79 | SET on the shards keeps them a split of the dictionary updated with that key and value |
| `Refinement.ApplyRefines` | main.rs:54-94 | with at least one shard, every command gets the same answer from the shards as from the dictionary and leaves both holding the same contents |
| `Refinement.RunRefines` | main.rs:54-94 | with at least one shard, every history of commands gets the same answers from the sharded table as from a single dictionary |
| `Refinement.NoShardsAbortsData` | main.rs:57-73 | a store built with zero shards aborts every command of every history and never changes |
| `KvServer.Db.constructor` | main.rs:27-36 | `Db::new(n)` builds exactly `n` shards, each empty, holding the empty dictionary |
| `KvServer.Db.Get` | main.rs:56-67 | GET answers `Bulk` of the stored value, or `Null` if the key is absent, and aborts with no shards |
| `KvServer.Db.Set` | main.rs:68-79 | SET updates the routed shard in place to match `Sharding.Store`, adds the pair to the contents, answers OK, and aborts with no change when there are no shards |
| `KvServer.Db.ApplyCommand` | main.rs:54-94 | each command changes the shards and answers as `Sharding.Apply` says, and with at least one shard it changes the contents and answers as the single dictionary does |

## Left out

- `Db::handle_connection` (main.rs:38-52) is left out because it is network I/O: the loop that reads frames, decodes them and writes replies over a TCP stream. Only its effect on the store, one `apply_command` after another, is modelled, by `Sharding.Run`.
- `main` (main.rs:97-111) is left out: binding, the accept loop, spawning a task per connection, and logging.
- The per-shard `tokio::sync::Mutex` and the `.await` points are not modelled. Each GET or SET is one atomic step, so lock contention and interleavings are not modelled.
- The internals of `DefaultHasher` are not modelled. `calculate_hash` is an arbitrary deterministic function from keys to `usize`.
- `Sharding.Usize` is 64 bits wide. The `as usize` cast of the 64-bit hash truncates on 32-bit targets, and that truncation is not modelled.
- `Command::from_frame` and the wire encoding of `Frame` belong to the `mini_redis` library and are not part of this model. `Command` and `Frame` carry only the cases the data path uses.
- What a panic does to the rest of the process is not modelled. A panic ends that connection's task, and the model records it as a `Panic` outcome that leaves the store unchanged.
- bot.rs is not part of this model. It is a separate trading-bot skeleton of HTTP calls and empty stubs.
