/** Names shared by the stores and the protocol. Identifiers are opaque random tokens in the
    original; times are integers on one clock. */
module Common {
  datatype Option<+T> = None | Some(value: T)

  type Id = nat
  type Time = int

  const MINUTE: Time := 60_000
  const DAY: Time := 1440 * MINUTE
}
