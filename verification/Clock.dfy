/** Durations, in milliseconds. */
module Clock {

  /** The time since an instant; since a later one it is zero. */
  function Since(now: nat, instant: nat): nat {
    if now < instant then 0 else now - instant
  }
}
