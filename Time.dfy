/**
 * Instants are integer minutes since an epoch that falls on a Monday 00:00 UTC.
 * A datetime's wall clock in some zone is the instant plus that zone's offset. A naive
 * datetime stands for the instant its wall clock has in UTC; where the source compares a naive
 * datetime with an aware one it raises, and the model says so where that can happen.
 */
module Time {

  const MinutesPerHour: int := 60
  const MinutesPerDay: int := 1440
  const DaysPerWeek: int := 7
  /** IST is UTC+05:30. */
  const IstOffset: int := 330
  /** Candidate start times advance by `timedelta(minutes=30)`. */
  const Step: int := 30
  /** Business hours are [09:00, 17:00). */
  const OpenHour: int := 9
  const CloseHour: int := 17

  /** A candidate or chosen meeting slot `{start_time, end_time}`. */
  datatype Slot = Slot(start: int, end: int)

  /** A search window `[time_min, time_max]`. */
  datatype Window = Window(timeMin: int, timeMax: int)

  /**
   * A busy interval of one participant, already parsed to instants. `startAware` and `endAware`
   * say whether `fromisoformat` gives an offset-aware datetime for that endpoint's text.
   */
  datatype Busy = Busy(start: int, end: int, startAware: bool, endAware: bool)

  function Day(t: int): int { t / MinutesPerDay }

  function MinuteOfDay(t: int): (m: int)
    ensures 0 <= m < MinutesPerDay
  {
    t % MinutesPerDay
  }

  /** `t.replace(hour=0, minute=0, second=0, microsecond=0)` */
  function StartOfDay(t: int): (d: int)
    ensures d <= t < d + MinutesPerDay
    ensures d == Day(t) * MinutesPerDay
  {
    t - t % MinutesPerDay
  }

  /** `t.hour` */
  function Hour(t: int): (h: int)
    ensures 0 <= h < 24
  {
    MinuteOfDay(t) / MinutesPerHour
  }

  /** `t.weekday()`: Monday is 0 and Sunday is 6. */
  function Weekday(t: int): (w: int)
    ensures 0 <= w < DaysPerWeek
  {
    Day(t) % DaysPerWeek
  }

  /** `t.replace(hour=h, minute=0, second=0, microsecond=0)` */
  function AtHour(t: int, h: int): int
  {
    StartOfDay(t) + h * MinutesPerHour
  }

  /** `t.weekday() < 5` */
  predicate IsWeekday(t: int) { Weekday(t) < 5 }

  /** Half-open overlap of `[s, e)` with `[bs, be)`. */
  predicate Overlaps(s: int, e: int, bs: int, be: int) { s < be && e > bs }

  /** Every instant is a whole day count plus a minute of that day. */
  lemma Decompose(t: int)
    ensures t == Day(t) * MinutesPerDay + MinuteOfDay(t)
  {
  }

  /** Day and minute of day are determined by any decomposition. */
  lemma DayOfParts(t: int, d: int, m: int)
    requires t == d * MinutesPerDay + m && 0 <= m < MinutesPerDay
    ensures Day(t) == d && MinuteOfDay(t) == m && StartOfDay(t) == d * MinutesPerDay
  {
  }

  /** Adding whole days moves the day count and keeps the time of day. */
  lemma {:induction false} ShiftDays(t: int, k: int)
    ensures Day(t + k * MinutesPerDay) == Day(t) + k
    ensures MinuteOfDay(t + k * MinutesPerDay) == MinuteOfDay(t)
    ensures StartOfDay(t + k * MinutesPerDay) == StartOfDay(t) + k * MinutesPerDay
    ensures Hour(t + k * MinutesPerDay) == Hour(t)
    ensures Weekday(t + k * MinutesPerDay) == (Weekday(t) + k) % DaysPerWeek
  {
    Decompose(t);
    DayOfParts(t + k * MinutesPerDay, Day(t) + k, MinuteOfDay(t));
  }

  /** A time of day `m` on the day of `t`. */
  lemma {:induction false} OnDayOf(t: int, m: int)
    requires 0 <= m < MinutesPerDay
    ensures Day(StartOfDay(t) + m) == Day(t)
    ensures MinuteOfDay(StartOfDay(t) + m) == m
    ensures StartOfDay(StartOfDay(t) + m) == StartOfDay(t)
    ensures Hour(StartOfDay(t) + m) == m / MinutesPerHour
    ensures Weekday(StartOfDay(t) + m) == Weekday(t)
  {
    DayOfParts(StartOfDay(t) + m, Day(t), m);
  }

  /** Instants compare as (day, minute of day) pairs. */
  lemma {:induction false} CompareByDay(a: int, b: int)
    ensures Day(a) < Day(b) ==> a < b
    ensures a <= b ==> Day(a) <= Day(b)
    ensures Day(a) == Day(b) ==> (a < b <==> MinuteOfDay(a) < MinuteOfDay(b))
  {
    Decompose(a);
    Decompose(b);
  }
}
