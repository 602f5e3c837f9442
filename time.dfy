/**
 * Clock arithmetic of backend/src/utils/time.js. Instants are milliseconds
 * since the epoch; the clock reading `now` is a parameter.
 */
module Time {

  const MsPerMinute: int := 60 * 1000
  const MsPerDay: int := 24 * 60 * 60 * 1000

  /** `minutesFromNow(minutes)` read at instant `now`. */
  function MinutesFromNow(now: int, minutes: int): (t: int)
    ensures minutes == 0 ==> t == now
    ensures minutes > 0 ==> t > now
    ensures minutes < 0 ==> t < now
  {
    now + minutes * 60 * 1000
  }

  /** `daysFromNow(days)` read at instant `now`. */
  function DaysFromNow(now: int, days: int): (t: int)
    ensures days == 0 ==> t == now
    ensures days > 0 ==> t > now
    ensures days < 0 ==> t < now
  {
    now + days * 24 * 60 * 60 * 1000
  }

  /** A day is 1440 minutes: both helpers agree on the same clock reading. */
  lemma DaysAreMinutes(now: int, days: int)
    ensures DaysFromNow(now, days) == MinutesFromNow(now, 1440 * days)
  {
  }

  lemma MinutesFromNowMonotone(now: int, a: int, b: int)
    requires a <= b
    ensures MinutesFromNow(now, a) <= MinutesFromNow(now, b)
  {
  }

  lemma DaysFromNowMonotone(now: int, a: int, b: int)
    requires a <= b
    ensures DaysFromNow(now, a) <= DaysFromNow(now, b)
  {
  }
}
