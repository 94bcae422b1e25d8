/** A day's optional clock-in / clock-out pair and its length in minutes.
    Instants are `Date`s, modelled by their millisecond time value. */
module Schedules {
  import opened Wrappers

  /** Milliseconds in one minute. */
  const MS_PER_MINUTE: int := 60000

  /** `new Schedule(clockInTime, clockOutTime)` stores both arguments as given. */
  datatype Schedule = Schedule(clockInTime: Option<int>, clockOutTime: Option<int>)

  /** `new Schedule(undefined, undefined)`. */
  const EMPTY_SCHEDULE: Schedule := Schedule(None, None)

  /** Minutes from clock-in to clock-out; 0 when either is missing. Signed and
      not clamped: negative when clock-out comes before clock-in. */
  function CalculateDifference(s: Schedule): (minutes: real)
    ensures s.clockInTime.None? || s.clockOutTime.None? ==> minutes == 0.0
    ensures s.clockInTime.Some? && s.clockOutTime.Some? ==>
              minutes * MS_PER_MINUTE as real == (s.clockOutTime.value - s.clockInTime.value) as real
  {
    if s.clockInTime.None? || s.clockOutTime.None? then 0.0
    else (s.clockOutTime.value - s.clockInTime.value) as real / MS_PER_MINUTE as real
  }

  /** The sign of the difference follows the order of the two instants. */
  lemma DifferenceSign(s: Schedule)
    requires s.clockInTime.Some? && s.clockOutTime.Some?
    ensures CalculateDifference(s) < 0.0 <==> s.clockOutTime.value < s.clockInTime.value
    ensures CalculateDifference(s) == 0.0 <==> s.clockOutTime.value == s.clockInTime.value
  {
  }

  /** Swapping clock-in and clock-out negates the difference. */
  lemma SwapNegates(s: Schedule)
    ensures CalculateDifference(Schedule(s.clockOutTime, s.clockInTime)) == -CalculateDifference(s)
  {
  }

  /** Differences add up across a shared instant. This holds of the exact
      quotient; the source divides doubles, whose rounded quotients need not
      add up exactly. */
  lemma DifferenceAdditive(a: int, b: int, c: int)
    ensures CalculateDifference(Schedule(Some(a), Some(b))) + CalculateDifference(Schedule(Some(b), Some(c)))
         == CalculateDifference(Schedule(Some(a), Some(c)))
  {
  }

  /** A 08:00 to 17:00 day on any date lasts 540 minutes. */
  lemma NineHourDay(start: int)
    ensures CalculateDifference(Schedule(Some(start), Some(start + 9 * 60 * MS_PER_MINUTE))) == 540.0
  {
  }
}
