/**
 * The vocabulary of the key-value server: decoded client commands, the
 * response frames the store produces, and the outcome of applying one
 * command, which is either a reply or an abort of the connection's task.
 */
module Protocol {

  /** Values are opaque bytes, stored and returned verbatim. */
  type Bytes = seq<bv8>

  /** Keys are text, compared exactly (case-sensitive, no length limit). */
  type Key = string

  /** A decoded client request. Only Get and Set have a meaning in the store. */
  datatype Command =
    | Get(key: Key)
    | Set(key: Key, value: Bytes)
    | Publish(channel: string, message: Bytes)
    | Subscribe(channels: seq<string>)
    | Unsubscribe(channels: seq<string>)
    | Unknown(name: string)
  {
    /** The commands the store answers with a frame. */
    predicate IsData() {
      Get? || Set?
    }
  }

  /** The response frames the data path produces. */
  datatype Frame = Simple(status: string) | Bulk(data: Bytes) | Null

  /** Why applying a command aborts instead of answering. */
  datatype Abort =
    | RemainderByZero  // `hash % 0` on a store built with no shards
    | NotImplemented   // the `todo!()` arms: Publish, Subscribe, Unsubscribe
    | UnknownCommand   // the `panic!` arm for Unknown

  /** The result of one apply_command: a frame to write back, or a panic. */
  datatype Outcome = Reply(frame: Frame) | Panic(reason: Abort)

  /** The status string of a successful SET. */
  const OK: string := "OK"
}
