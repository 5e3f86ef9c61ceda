// All instants are microseconds since the epoch.
module Clock {
  const SECOND := 1_000_000
}
