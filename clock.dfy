/**
 * Local wall-clock instants, as the application uses JavaScript `Date`
 * values: a calendar day and a time of day, with the two `Date` mutators
 * the code calls (`setHours` and `setDate`) and the weekday (`getDay`).
 */
module Clock {
  import opened Wrappers

  const MinuteMs := 60_000
  const HourMs := 3_600_000
  const DayMs := 86_400_000

  /**
   * `day` numbers local calendar days (day 0 is Thursday 1 January 1970);
   * `ms` counts milliseconds since that day's local midnight.
   */
  datatype Instant = Instant(day: int, ms: int)

  predicate Valid(t: Instant) {
    0 <= t.ms < DayMs
  }

  /** Milliseconds since the local epoch: what `getTime()` orders by. */
  function Millis(t: Instant): int {
    t.day * DayMs + t.ms
  }

  /**
   * `t.setHours(h, m, 0, 0)`: keeps the calendar day and sets the time of
   * day; hours past 23 and minutes past 59 roll over into later days.
   */
  function SetHours(t: Instant, h: int, m: int): (r: Instant)
    ensures Valid(r)
    ensures Millis(r) == t.day * DayMs + h * HourMs + m * MinuteMs
    ensures 0 <= h < 24 && 0 <= m < 60 ==> r.day == t.day && r.ms == h * HourMs + m * MinuteMs
  {
    var total := h * HourMs + m * MinuteMs;
    Instant(t.day + total / DayMs, total % DayMs)
  }

  /** `t.setDate(t.getDate() + n)`: the same time of day, `n` days later. */
  function AddDays(t: Instant, n: int): (r: Instant)
    ensures Valid(t) ==> Valid(r)
    ensures Millis(r) == Millis(t) + n * DayMs
  {
    Instant(t.day + n, t.ms)
  }

  /** The weekday of a day number: 0 is Sunday, 6 is Saturday. */
  function DayOfWeek(day: int): (r: int)
    ensures 0 <= r < 7
  {
    (day + 4) % 7
  }

  /** `t.getDay()` */
  function Weekday(t: Instant): (r: int)
    ensures 0 <= r < 7
  {
    DayOfWeek(t.day)
  }

  /** `n` days later is `n` weekdays further round the week. */
  lemma WeekdayAddDays(t: Instant, n: int)
    ensures Weekday(AddDays(t, n)) == (Weekday(t) + n) % 7
  {
    DayOfWeekAhead(t.day, n);
  }

  lemma DayOfWeekAhead(day: int, n: int)
    ensures DayOfWeek(day + n) == (DayOfWeek(day) + n) % 7
  {
  }

  function HourOf(t: Instant): int {
    t.ms / HourMs
  }

  function MinuteOf(t: Instant): int {
    t.ms % HourMs / MinuteMs
  }

  /** An in-range `setHours` is read back by `getHours` and `getMinutes`. */
  lemma SetHoursReadBack(t: Instant, h: int, m: int)
    requires 0 <= h < 24 && 0 <= m < 60
    ensures HourOf(SetHours(t, h, m)) == h && MinuteOf(SetHours(t, h, m)) == m
  {
    var r := SetHours(t, h, m);
    assert r.ms == h * HourMs + m * MinuteMs;
    assert r.ms / HourMs == h;
    assert r.ms % HourMs == m * MinuteMs;
  }

  // ---------------------------------------------------------------------
  // The 12-hour clock suffix, as both time scanners apply it
  // ---------------------------------------------------------------------

  datatype Meridiem = AM | PM

  /**
   * The hour a scanner hands to `setHours`: "pm" adds 12 to an hour below
   * 12, "am" turns 12 into 0, and every other hour (and an hour with no
   * suffix) is kept as written.
   */
  function To24Hour(h: nat, suffix: Option<Meridiem>): (r: nat)
    ensures suffix.None? ==> r == h
    ensures 1 <= h <= 12 && suffix.Some? ==> r < 24
    ensures 1 <= h <= 12 && suffix == Some(AM) ==> r < 12
    ensures 1 <= h <= 12 && suffix == Some(PM) ==> r >= 12
  {
    if suffix == Some(PM) && h < 12 then h + 12
    else if suffix == Some(AM) && h == 12 then 0
    else h
  }

  /** The clock-face reading of an hour of the day: the inverse of `To24Hour`. */
  function From24Hour(t: nat): (r: (nat, Meridiem))
    requires t < 24
    ensures 1 <= r.0 <= 12
  {
    if t == 0 then (12, AM)
    else if t < 12 then (t, AM)
    else if t == 12 then (12, PM)
    else (t - 12, PM)
  }

  /**
   * On clock-face hours 1..12 with a suffix the rule is a bijection onto
   * the hours of the day 0..23.
   */
  lemma To24HourBijection(h: nat, m: Meridiem, t: nat)
    requires 1 <= h <= 12 && t < 24
    ensures From24Hour(To24Hour(h, Some(m))) == (h, m)
    ensures To24Hour(From24Hour(t).0, Some(From24Hour(t).1)) == t
  {
  }

  lemma To24HourExamples()
    ensures To24Hour(2, Some(PM)) == 14
    ensures To24Hour(9, Some(AM)) == 9
    ensures To24Hour(12, Some(AM)) == 0
    ensures To24Hour(12, Some(PM)) == 12
    ensures To24Hour(13, Some(PM)) == 13
  {
  }
}
