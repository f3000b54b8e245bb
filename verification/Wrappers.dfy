/** The optional value: SQL's NULL and Python's None. */
module Wrappers {
  datatype Option<+T> = None | Some(value: T)
}

/** Instants and durations in microseconds, the resolution of the source's timestamps. */
module Clock {
  type Time = int
  const SECOND: Time := 1_000_000
  const HOUR: Time := 3_600_000_000
}
