/** The delay `Scheduler.runDaily` waits before its next run, from the time of day now and the
    configured run time, both as nanoseconds since midnight (`LocalTime`'s resolution). The
    surrounding endless loop and the wait itself are not modelled. */
module Scheduler {

  /** One day, in nanoseconds. */
  const Day: int := 86_400_000_000_000

  /** A `LocalTime`: a time of day. */
  type TimeOfDay = t: int | 0 <= t < Day

  /** `Duration.between(now, target)`, plus 24 hours unless now is strictly before the target. */
  function Delay(now: TimeOfDay, target: TimeOfDay): (d: int)
    ensures 0 < d <= Day
    ensures (now + d) % Day == target
  {
    if now < target then target - now else target - now + Day
  }

  /** Before the run time the wait ends exactly on it; at or after it, the wait ends on it the
      next day, so a scheduler woken exactly at the run time waits a full day. */
  lemma DelayCases(now: TimeOfDay, target: TimeOfDay)
    ensures now < target ==> Delay(now, target) == target - now
    ensures now >= target ==> Delay(now, target) == target - now + Day
    ensures Delay(target, target) == Day
  {
  }

  /** The delay is the first moment after now at which the clock shows the run time. */
  lemma DelayIsFirst(now: TimeOfDay, target: TimeOfDay, k: int)
    requires 0 < k < Delay(now, target)
    ensures (now + k) % Day != target
  {
  }
}
