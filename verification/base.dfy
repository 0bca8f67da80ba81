// Shared vocabulary: identifiers, time in nanoseconds, and the outcome of a database transaction.
module Base {
  type Id = nat
  type Time = int

  const MICROSECOND: Time := 1_000
  const SECOND: Time := 1_000_000_000
  const MINUTE: Time := 60_000_000_000
  const HOUR: Time := 3_600_000_000_000

  datatype Option<+T> = None | Some(value: T)

  // A keyed fingerprint is ideal: equal fingerprints come from equal values.
  datatype Fingerprint = Fingerprint(of: string)

  // A transaction commits a new state, or an error rolls it back and the old state stays.
  datatype Tx<S> = Commit(state: S) | Rollback {
    function After(before: S): S {
      if Commit? then state else before
    }
  }

  // timestamptz columns keep microseconds; the part below is cut off.
  function TruncateToMicros(t: Time): (r: Time)
    ensures t - MICROSECOND < r <= t
  {
    t - t % MICROSECOND
  }

  function Min(a: int, b: int): int { if a <= b then a else b }
}
