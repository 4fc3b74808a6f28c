/**
 * The timer service: the local clock, a "server" clock that is the local
 * clock shifted by a whole number of hours, and the time left until a
 * scheduled start. The reading of `DateTime.Now` is passed in as `now`.
 */
module Timer {
  import opened Wrappers
  import opened Models

  /** `DateTime.AddHours` throws when the result leaves the range of `DateTime`. */
  datatype TimeError = ArgumentOutOfRange

  /** True when `now` shifted by `hours` is still a `DateTime`. */
  predicate ShiftInRange(now: DateTime, hours: int) {
    0 <= now + hours * TicksPerHour <= MaxTicks
  }

  /**
   * `AddHours` also rejects an hour count above `MaxHours` before adding; that
   * check never decides the outcome, because such a shift always leaves the range.
   */
  const MaxHours: int := 87_649_416

  lemma MaxHoursCheckSubsumed(now: DateTime, hours: int)
    ensures hours > MaxHours || hours < -MaxHours ==> !ShiftInRange(now, hours)
  {
  }

  class TimerService {
    /** Hours the server clock is ahead of the local clock (a C# `int`). */
    var serverTimeOffsetHours: int

    constructor ()
      ensures serverTimeOffsetHours == 0
    {
      serverTimeOffsetHours := 0;
    }

    /** The `ServerTimeOffsetHours` getter. */
    function ServerTimeOffsetHours(): (h: int)
      reads this
      ensures h == serverTimeOffsetHours
    {
      serverTimeOffsetHours
    }

    /** The `ServerTimeOffsetHours` setter. */
    method SetServerTimeOffsetHours(value: int)
      requires -0x8000_0000 <= value < 0x8000_0000
      modifies this
      ensures ServerTimeOffsetHours() == value
    {
      serverTimeOffsetHours := value;
    }

    /** The local clock, or the server clock when `useServerTime` is set. */
    function GetCurrentTime(now: DateTime, useServerTime: bool): (r: Result<DateTime, TimeError>)
      reads this
      ensures !useServerTime ==> r == Success(now)
      ensures useServerTime ==> (r.Success? <==> ShiftInRange(now, serverTimeOffsetHours))
      ensures useServerTime && r.Success? ==> r.value - now == serverTimeOffsetHours * TicksPerHour
    {
      if !useServerTime then Success(now)
      else if ShiftInRange(now, serverTimeOffsetHours) then Success(now + serverTimeOffsetHours * TicksPerHour)
      else Failure(ArgumentOutOfRange)
    }

    /** The `TimeSpan` (in ticks) from the current time to `scheduledTime`. */
    function GetTimeUntilStart(scheduledTime: DateTime, now: DateTime, useServerTime: bool): (r: Result<int, TimeError>)
      reads this
      ensures r.Success? <==> GetCurrentTime(now, useServerTime).Success?
      ensures r.Success? ==> r.value + GetCurrentTime(now, useServerTime).value == scheduledTime
    {
      match GetCurrentTime(now, useServerTime)
      case Success(current) => Success(scheduledTime - current)
      case Failure(e) => Failure(e)
    }

    /** The wait is over (not positive) exactly when the start is not after the current time. */
    lemma TimeUntilStartNonPositive(scheduledTime: DateTime, now: DateTime, useServerTime: bool)
      requires GetCurrentTime(now, useServerTime).Success?
      ensures GetTimeUntilStart(scheduledTime, now, useServerTime).value <= 0
          <==> scheduledTime <= GetCurrentTime(now, useServerTime).value
    {
    }

    /** For the same clock reading, the server wait is the local wait less the offset. */
    lemma ServerWaitIsLocalWaitLessOffset(scheduledTime: DateTime, now: DateTime)
      requires ShiftInRange(now, serverTimeOffsetHours)
      ensures GetTimeUntilStart(scheduledTime, now, true).value
           == GetTimeUntilStart(scheduledTime, now, false).value - serverTimeOffsetHours * TicksPerHour
    {
    }

    /** With a zero offset the server clock is the local clock. */
    lemma ZeroOffsetClocksAgree(now: DateTime)
      requires serverTimeOffsetHours == 0
      ensures GetCurrentTime(now, true) == GetCurrentTime(now, false)
    {
    }
  }
}
