/** The steady clock: instants in nanoseconds and the microsecond views the code takes. */
module Clock {
  import opened Wire

  type Time = t: int | 0 <= t < 0x8000_0000_0000_0000

  const NS_PER_US := 1000

  function SteadyUs(t: Time): uint64 { t / NS_PER_US }

  /** `b - a` cast to microseconds, truncating toward zero. */
  function UsBetween(a: Time, b: Time): int {
    if a <= b then (b - a) / NS_PER_US else -((a - b) / NS_PER_US)
  }
}
