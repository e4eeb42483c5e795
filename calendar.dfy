/**
 * Instants and the local calendar. An instant is a count of milliseconds
 * since 1970-01-01T00:00:00Z; the process's local time zone is a fixed
 * offset `tz` (milliseconds added to an instant to get local wall-clock
 * time). Daylight-saving transitions are not modelled, so adding a day is
 * adding 86 400 000 ms.
 */
module Calendar {
  const MINUTE_MS: int := 60 * 1000
  const HOUR_MS: int := 60 * MINUTE_MS
  const DAY_MS: int := 24 * HOUR_MS
  const WEEK_MS: int := 7 * DAY_MS

  /** The local calendar day an instant falls on (days since the epoch). */
  function LocalDay(t: int, tz: int): int
  {
    (t + tz) / DAY_MS
  }

  /** Milliseconds since local midnight. */
  function TimeOfDay(t: int, tz: int): (r: int)
    ensures 0 <= r < DAY_MS
  {
    (t + tz) % DAY_MS
  }

  /** `getDay()`: 0 is Sunday; the epoch fell on a Thursday. */
  function Weekday(t: int, tz: int): (r: int)
    ensures 0 <= r < 7
  {
    (LocalDay(t, tz) + 4) % 7
  }

  /** `getHours()` */
  function Hours(t: int, tz: int): (r: int)
    ensures 0 <= r < 24
  {
    TimeOfDay(t, tz) / HOUR_MS
  }

  /** `getMinutes()` */
  function Minutes(t: int, tz: int): (r: int)
    ensures 0 <= r < 60
  {
    TimeOfDay(t, tz) % HOUR_MS / MINUTE_MS
  }

  /** The instant of local wall-clock time `ms` on local day `day`. */
  function AtLocal(day: int, ms: int, tz: int): int
  {
    day * DAY_MS + ms - tz
  }

  lemma AtLocalFields(day: int, ms: int, tz: int)
    requires 0 <= ms < DAY_MS
    ensures LocalDay(AtLocal(day, ms, tz), tz) == day
    ensures TimeOfDay(AtLocal(day, ms, tz), tz) == ms
  {
    assert AtLocal(day, ms, tz) + tz == day * DAY_MS + ms;
  }

  /** `addDays(d, n)` (`setDate(getDate() + n)`) without daylight saving. */
  function AddDays(t: int, n: int): (r: int)
    ensures r - t == n * DAY_MS
  {
    t + n * DAY_MS
  }

  lemma AddDaysFields(t: int, n: int, tz: int)
    ensures LocalDay(AddDays(t, n), tz) == LocalDay(t, tz) + n
    ensures TimeOfDay(AddDays(t, n), tz) == TimeOfDay(t, tz)
    ensures Weekday(AddDays(t, n), tz) == (Weekday(t, tz) + n) % 7
  {
    var q := LocalDay(t, tz);
    var m := TimeOfDay(t, tz);
    assert t + tz == q * DAY_MS + m;
    assert AddDays(t, n) + tz == (q + n) * DAY_MS + m;
  }
}
