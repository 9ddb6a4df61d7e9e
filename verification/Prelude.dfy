/** Shared vocabulary: optional values, bytes, and the clock's unit. */
module Prelude {
  datatype Option<+T> = None | Some(value: T)

  newtype byte = x: int | 0 <= x < 256

  /** Seconds since some epoch. */
  type Time = int

  const DAY: int := 86400

  /** An arbitrary member of a nonempty set. */
  ghost function AnyOf<T>(s: set<T>): (m: T)
    requires s != {}
    ensures m in s
  {
    var m :| m in s;
    m
  }
}
