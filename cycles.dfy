/**
 * Weekly raid cycles (routes/cycles.js). A cycle opens on Wednesday at
 * 08:00 local time and lasts 6 days 21 hours, so it closes the following
 * Wednesday at 05:00; the three hours until the next opening belong to no
 * cycle. A raid date is allowed when it is not in the past and lies in the
 * current or the next cycle, both ends included.
 */
module Cycles {
  import opened Common
  import opened Calendar

  const CYCLE_LEN_MS: int := (6 * 24 + 21) * HOUR_MS
  const OPENING_MS: int := 8 * HOUR_MS
  const GAP_MS: int := WEEK_MS - CYCLE_LEN_MS

  datatype Cycle = Cycle(start: int, end: int)

  function CycleFromStart(start: int): (c: Cycle)
    ensures c.start == start && c.end - c.start == CYCLE_LEN_MS
  {
    Cycle(start, start + CYCLE_LEN_MS)
  }

  /** A cycle moved by whole days (`addDays` on both ends). */
  function Shift(c: Cycle, days: int): (r: Cycle)
    ensures r.start - c.start == days * DAY_MS && r.end - c.end == days * DAY_MS
  {
    Cycle(AddDays(c.start, days), AddDays(c.end, days))
  }

  /** `getPrevWednesday0800`: the latest Wednesday 08:00 not after `base`. */
  function PrevWednesday0800(base: int, tz: int): int
  {
    var dow := Weekday(base, tz);
    var diffToWed := (dow - 3 + 7) % 7;
    var wed := AtLocal(LocalDay(base, tz) - diffToWed, OPENING_MS, tz);
    if base < wed then AddDays(wed, -7) else wed
  }

  lemma {:induction false} PrevWednesdayIsLatestOpening(base: int, tz: int)
    ensures Weekday(PrevWednesday0800(base, tz), tz) == 3
    ensures TimeOfDay(PrevWednesday0800(base, tz), tz) == OPENING_MS
    ensures PrevWednesday0800(base, tz) <= base < PrevWednesday0800(base, tz) + WEEK_MS
  {
    var d := LocalDay(base, tz);
    var dow := Weekday(base, tz);
    var diff := (dow - 3 + 7) % 7;
    var wed := AtLocal(d - diff, OPENING_MS, tz);
    AtLocalFields(d - diff, OPENING_MS, tz);
    WednesdayOnOrBefore(d);
    assert base + tz == d * DAY_MS + TimeOfDay(base, tz);
    assert base - wed == diff * DAY_MS + TimeOfDay(base, tz) - OPENING_MS;
    if base < wed {
      assert diff == 0;
      AddDaysFields(wed, -7, tz);
    }
  }

  /** Going back `(dow - 3 + 7) % 7` days from day `d` lands on a Wednesday. */
  lemma WednesdayOnOrBefore(d: int)
    ensures var diff := ((d + 4) % 7 - 3 + 7) % 7;
      0 <= diff < 7 && (d - diff + 4) % 7 == 3
  {
    var dow := (d + 4) % 7;
    var diff := (dow - 3 + 7) % 7;
    assert d + 4 == 7 * ((d + 4) / 7) + dow;
    if dow + 4 < 7 {
      assert d - diff + 4 == 7 * ((d + 4) / 7 - 1) + 3;
    } else {
      assert d - diff + 4 == 7 * ((d + 4) / 7) + 3;
    }
  }

  /** `getCurrentCycle` */
  function CurrentCycle(now: int, tz: int): (c: Cycle)
    ensures c.end - c.start == CYCLE_LEN_MS
    ensures now <= c.end
  {
    PrevWednesdayIsLatestOpening(now, tz);
    var cur := CycleFromStart(PrevWednesday0800(now, tz));
    if now > cur.end then Shift(cur, 7) else cur
  }

  /** `getNextCycle`: the current cycle one week later. */
  function NextCycle(now: int, tz: int): (c: Cycle)
    ensures c.start == CurrentCycle(now, tz).start + WEEK_MS && c.end - c.start == CYCLE_LEN_MS
  {
    Shift(CurrentCycle(now, tz), 7)
  }

  /** `within`: both ends included. */
  predicate Within(c: Cycle, d: int)
  {
    c.start <= d <= c.end
  }

  /**
   * The current cycle opens on a Wednesday at 08:00, lasts CYCLE_LEN_MS,
   * has not closed yet at `now`, and opens at most the three-hour gap
   * after `now`; it has opened unless `now` falls in that gap.
   */
  lemma {:induction false} CurrentCycleShape(now: int, tz: int)
    ensures var c := CurrentCycle(now, tz);
      && c.end - c.start == CYCLE_LEN_MS
      && Weekday(c.start, tz) == 3 && TimeOfDay(c.start, tz) == OPENING_MS
      && now <= c.end
      && c.start - now < GAP_MS
      && (now < c.start ==> c.start - WEEK_MS + CYCLE_LEN_MS < now)
  {
    PrevWednesdayIsLatestOpening(now, tz);
    var w := PrevWednesday0800(now, tz);
    if now > w + CYCLE_LEN_MS {
      AddDaysFields(w, 7, tz);
    }
  }

  /** The next cycle opens one gap after the current one closes. */
  lemma NextFollowsCurrent(now: int, tz: int)
    ensures NextCycle(now, tz).start == CurrentCycle(now, tz).end + GAP_MS
    ensures NextCycle(now, tz).end - NextCycle(now, tz).start == CYCLE_LEN_MS
    ensures GAP_MS == 3 * HOUR_MS
  {
  }

  // -----------------------------------------------------------------------
  // GET /validate?date=

  /** The `date` query parameter: missing or empty, unparseable, or an instant. */
  datatype DateQuery = NoDate | BadDate | DateAt(t: int)

  datatype Verdict = Verdict(
    allowed: bool, inPast: bool, inCurrent: bool, inNext: bool,
    current: Cycle, next: Cycle)

  /** `GET /validate`; `now` is the clock reading. */
  function Validate(q: DateQuery, now: int, tz: int): (r: Result<Verdict, string>)
    ensures r.Err? <==> !q.DateAt?
    ensures r.Err? ==> r.error == "BAD_DATE"
    ensures r.Ok? ==> r.value.current == CurrentCycle(now, tz) && r.value.next == NextCycle(now, tz)
  {
    match q
    case DateAt(d) =>
      var current := CurrentCycle(now, tz);
      var next := NextCycle(now, tz);
      var inPast := d < now;
      var inCurrent := Within(current, d);
      var inNext := Within(next, d);
      Ok(Verdict(!inPast && (inCurrent || inNext), inPast, inCurrent, inNext, current, next))
    case _ => Err("BAD_DATE")
  }

  /**
   * A date is allowed exactly when it is not before `now`, lies between the
   * opening of the current cycle and the close of the next one, and does
   * not fall in the gap between the two.
   */
  lemma {:induction false} ValidateAllowedWindow(d: int, now: int, tz: int)
    ensures Validate(DateAt(d), now, tz).Ok?
    ensures var cur := CurrentCycle(now, tz);
      (Validate(DateAt(d), now, tz).value.allowed
       <==> (now <= d && cur.start <= d <= cur.end + WEEK_MS && !(cur.end < d < cur.end + GAP_MS)))
  {
    CurrentCycleShape(now, tz);
  }

  // -----------------------------------------------------------------------
  // GET /

  /** The `at` query parameter: absent or empty, unparseable, or an instant. */
  datatype AtQuery = AtAbsent | AtInvalid | AtValid(t: int)

  datatype Overview = Overview(current: Cycle, next: Cycle, previous: Cycle, window: Cycle)

  /** The instant `GET /` describes: `at` when given, otherwise the clock. */
  function ReferenceInstant(at: AtQuery, now: int): int
  {
    match at
    case AtValid(t) => t
    case _ => now
  }

  /** `GET /`: the cycles around `at` (or the clock reading `now`). */
  function CyclesOverview(at: AtQuery, now: int, tz: int): (r: Result<Overview, string>)
    ensures r.Err? <==> at.AtInvalid?
    ensures r.Err? ==> r.error == "BAD_AT_PARAM"
  {
    if at.AtInvalid? then Err("BAD_AT_PARAM")
    else
      var t := ReferenceInstant(at, now);
      var current := CurrentCycle(t, tz);
      var next := NextCycle(t, tz);
      Ok(Overview(current, next, Shift(current, -7), Cycle(current.start, next.end)))
  }

  /**
   * Previous, current and next cycles are consecutive weeks, the allowed
   * window runs from the opening of the current cycle to the close of the
   * next, and the current cycle has not closed at the reference instant.
   */
  lemma {:induction false} OverviewWeeks(at: AtQuery, now: int, tz: int)
    requires !at.AtInvalid?
    ensures var o := CyclesOverview(at, now, tz).value;
      var t := ReferenceInstant(at, now);
      && o.current == CurrentCycle(t, tz)
      && o.previous.start == o.current.start - WEEK_MS
      && o.previous.end == o.current.end - WEEK_MS
      && o.next.start == o.current.start + WEEK_MS
      && o.window.start == o.current.start
      && o.window.end == o.current.end + WEEK_MS
      && o.previous.end < t <= o.current.end
  {
    CurrentCycleShape(ReferenceInstant(at, now), tz);
  }
}
