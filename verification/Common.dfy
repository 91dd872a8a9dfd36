/** Nullable columns, Python's truth test on them, the length limit of stored texts, and how Redis commands end. */
module Common {

  datatype Option<+T> = None | Some(value: T)

  /** `if column:` for a nullable text column: neither NULL nor empty. */
  predicate Truthy(column: Option<string>) {
    column.Some? && column.value != ""
  }

  /** `message[:8000]` */
  function Truncated(message: string): string {
    if |message| <= 8000 then message else message[..8000]
  }

  /** How a Redis command ends: with its reply, or with an exception before or after Redis ran it. */
  datatype Fate = Replied | Unsent | ReplyLost
}
