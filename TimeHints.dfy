/**
 * `MeetingScheduler._parse_time_constraints`: a free-text hint ("Thursday", "next week",
 * "this week", ...) becomes a search window. Day arithmetic is done on the India Standard Time
 * wall clock (`now + IstOffset`) and the window is returned in UTC.
 */
module TimeHints {
  import opened Wrappers
  import opened Time
  import opened Text
  import opened Json

  /** Day names in the order the lookup table is scanned; the index is `weekday()`. */
  const DayNames: seq<string> := ["monday", "tuesday", "wednesday", "thursday", "friday", "saturday", "sunday"]
  const Thursday: int := 3
  const Friday: int := 4
  /** Windows of a named day open at 10:00 IST. */
  const HintStartHour: int := 10

  /** Which branch of the parser a hint takes. */
  datatype HintRule = OnWeekday(day: int) | NextWeek | ThisWeek | NoHint

  /** The first day name, from index `i` on, that occurs in `low`. */
  function FirstDayFrom(low: string, i: nat): (r: Option<int>)
    requires i <= |DayNames|
    ensures r.Some? ==> i <= r.value < |DayNames| && Contains(low, DayNames[r.value])
    ensures r.Some? ==> forall j :: i <= j < r.value ==> !Contains(low, DayNames[j])
    ensures r.None? ==> forall j :: i <= j < |DayNames| ==> !Contains(low, DayNames[j])
    decreases |DayNames| - i
  {
    if i == |DayNames| then None
    else if Contains(low, DayNames[i]) then Some(i)
    else FirstDayFrom(low, i + 1)
  }

  /** The hint names no day: neither "thurs" nor any full day name. */
  predicate NoDayMention(low: string)
  {
    !Contains(low, "thurs") && forall j :: 0 <= j < |DayNames| ==> !Contains(low, DayNames[j])
  }

  /**
   * The branch taken: "thurs" first, then the first full day name in table order, then
   * "next week", then "this week"; the match is on the lower-cased hint.
   */
  function SelectRule(text: string): (r: HintRule)
    ensures var low := Lower(text);
      && (r.OnWeekday? ==> 0 <= r.day < |DayNames|)
      && (r == OnWeekday(Thursday) <==> Contains(low, "thurs"))
      && (r.OnWeekday? && r.day != Thursday ==>
            Contains(low, DayNames[r.day]) && forall j :: 0 <= j < r.day ==> !Contains(low, DayNames[j]))
      && (r.OnWeekday? <==> !NoDayMention(low))
      && (r == NextWeek <==> NoDayMention(low) && Contains(low, "next week"))
      && (r == ThisWeek <==> NoDayMention(low) && !Contains(low, "next week") && Contains(low, "this week"))
      && (r == NoHint <==> NoDayMention(low) && !Contains(low, "next week") && !Contains(low, "this week"))
  {
    var low := Lower(text);
    ThursdayHasThurs(low);
    if Contains(low, "thursday") || Contains(low, "thurs") then OnWeekday(Thursday)
    else match FirstDayFrom(low, 0)
      case Some(d) => OnWeekday(d)
      case None =>
        if Contains(low, "next week") then NextWeek
        else if Contains(low, "this week") then ThisWeek
        else NoHint
  }

  /** A text that contains "thursday" contains "thurs". */
  lemma ThursdayHasThurs(s: string)
    ensures Contains(s, "thursday") ==> Contains(s, "thurs")
  {
    if Contains(s, "thursday") {
      var i :| 0 <= i <= |s| - 8 && MatchAt(s, "thursday", i);
      assert s[i..i + 5] == s[i..i + 8][..5];
      assert MatchAt(s, "thurs", i);
    }
  }

  /** `days_ahead` for a named day: 0..6 days on, or 7 when it is that day already past 17:00 IST. */
  function DaysAhead(day: int, nowIst: int): int
  {
    var d := (day - Weekday(nowIst)) % DaysPerWeek;
    if d == 0 && Hour(nowIst) >= CloseHour then DaysPerWeek else d
  }

  /** From wall-clock IST back to UTC. */
  function ToUtc(ist: int): int { ist - IstOffset }

  /** A named day: 10:00 to 17:00 IST on its next occurrence. */
  function WeekdayWindow(day: int, now: int): Window
  {
    var nowIst := now + IstOffset;
    var target := nowIst + DaysAhead(day, nowIst) * MinutesPerDay;
    Window(ToUtc(AtHour(target, HintStartHour)), ToUtc(AtHour(target, CloseHour)))
  }

  /** "next week": Monday 10:00 IST to Friday 17:00 IST of the coming week. */
  function NextWeekWindow(now: int): Window
  {
    var nowIst := now + IstOffset;
    var d := (0 - Weekday(nowIst)) % DaysPerWeek;
    var ahead := if d == 0 then DaysPerWeek else d;
    var monday := nowIst + ahead * MinutesPerDay;
    Window(ToUtc(AtHour(monday, HintStartHour)), ToUtc(AtHour(monday + 4 * MinutesPerDay, CloseHour)))
  }

  /** Where a "this week" window opens: the current IST hour, or 10:00 IST tomorrow after 17:00. */
  function ThisWeekStart(nowIst: int): int
  {
    if Hour(nowIst) >= CloseHour then AtHour(nowIst + MinutesPerDay, HintStartHour)
    else AtHour(nowIst, Hour(nowIst))
  }

  /**
   * "this week" as written: outside the Friday-evening case the window ends at 17:00 IST today,
   * whatever the computed days to Friday.
   */
  function ThisWeekWindowAsWritten(now: int): Window
  {
    var nowIst := now + IstOffset;
    var toFriday := (Friday - Weekday(nowIst)) % DaysPerWeek;
    if toFriday == 0 && Hour(nowIst) >= CloseHour then
      Window(ToUtc(AtHour(nowIst + 3 * MinutesPerDay, HintStartHour)), ToUtc(AtHour(nowIst + 7 * MinutesPerDay, CloseHour)))
    else
      Window(ToUtc(ThisWeekStart(nowIst)), ToUtc(AtHour(nowIst, CloseHour)))
  }

  /** 17:00 IST on the coming Friday, today included. */
  function FridayClose(nowIst: int): int
  {
    AtHour(nowIst + (Friday - Weekday(nowIst)) % DaysPerWeek * MinutesPerDay, CloseHour)
  }

  /** "this week" as its comments describe it: the window ends on Friday at 17:00 IST. */
  function ThisWeekWindow(now: int): Window
  {
    var nowIst := now + IstOffset;
    var toFriday := (Friday - Weekday(nowIst)) % DaysPerWeek;
    if toFriday == 0 && Hour(nowIst) >= CloseHour then
      Window(ToUtc(AtHour(nowIst + 3 * MinutesPerDay, HintStartHour)), ToUtc(AtHour(nowIst + 7 * MinutesPerDay, CloseHour)))
    else
      Window(ToUtc(ThisWeekStart(nowIst)), ToUtc(FridayClose(nowIst)))
  }

  /** No hint: the next seven days from now. */
  function DefaultWindow(now: int): Window
  {
    Window(now, now + 7 * MinutesPerDay)
  }

  /** The message of the `AttributeError` a non-string hint raises on `.lower()`. */
  const NotAString: string := "object has no attribute 'lower'"

  /**
   * `_parse_time_constraints(time_constraints)` at instant `now` (UTC), as written: "this week"
   * takes the window the code builds, which ends at 17:00 IST today outside the Friday-evening
   * case. Anything but a string fails on `.lower()`.
   */
  function ParseTimeConstraints(hint: Json, now: int): (r: Result<Window>)
    ensures r.Ok? <==> hint.JStr?
    ensures !hint.JStr? ==> r == Err(NotAString)
    ensures r.Ok? && SelectRule(hint.s).OnWeekday? ==> r.value == WeekdayWindow(SelectRule(hint.s).day, now)
    ensures r.Ok? && SelectRule(hint.s) == NextWeek ==> r.value == NextWeekWindow(now)
    ensures r.Ok? && SelectRule(hint.s) == ThisWeek ==> r.value == ThisWeekWindowAsWritten(now)
    ensures r.Ok? && SelectRule(hint.s) == NoHint ==> r.value == DefaultWindow(now)
  {
    if !hint.JStr? then Err(NotAString)
    else match SelectRule(hint.s)
      case OnWeekday(d) => Ok(WeekdayWindow(d, now))
      case NextWeek => Ok(NextWeekWindow(now))
      case ThisWeek => Ok(ThisWeekWindowAsWritten(now))
      case NoHint => Ok(DefaultWindow(now))
  }

  /** The parser as its comments intend it: the same but for "this week", which ends on Friday. */
  function ParseTimeConstraintsIntended(hint: Json, now: int): (r: Result<Window>)
    ensures hint.JStr? && SelectRule(hint.s) == ThisWeek ==> r == Ok(ThisWeekWindow(now))
    ensures !(hint.JStr? && SelectRule(hint.s) == ThisWeek) ==> r == ParseTimeConstraints(hint, now)
  {
    if hint.JStr? && SelectRule(hint.s) == ThisWeek then Ok(ThisWeekWindow(now))
    else ParseTimeConstraints(hint, now)
  }

  /** `(day - wd) % 7` moves `wd` forward onto `day`. */
  lemma WeekdayArith(day: int, wd: int)
    requires 0 <= day < DaysPerWeek && 0 <= wd < DaysPerWeek
    ensures 0 <= (day - wd) % DaysPerWeek < DaysPerWeek
    ensures (wd + (day - wd) % DaysPerWeek) % DaysPerWeek == day
  {
    var q := (day - wd) / DaysPerWeek;
    assert day - wd == DaysPerWeek * q + (day - wd) % DaysPerWeek;
  }

  /** Counting days on from `a` moves the weekday along. */
  lemma ModShift(a: int, i: int)
    ensures (a + i) % DaysPerWeek == (a % DaysPerWeek + i) % DaysPerWeek
  {
    var q := a / DaysPerWeek;
    assert a == DaysPerWeek * q + a % DaysPerWeek;
  }

  /** `days_ahead` lands on the named weekday; it is 7 only on that day after 17:00. */
  lemma DaysAheadSpec(day: int, nowIst: int)
    requires 0 <= day < DaysPerWeek
    ensures var ahead := DaysAhead(day, nowIst);
      var wd := Weekday(nowIst);
      && 0 <= ahead <= DaysPerWeek
      && (wd + ahead) % DaysPerWeek == day
      && (ahead == 0 ==> Hour(nowIst) < CloseHour)
      && (ahead == DaysPerWeek ==> wd == day && Hour(nowIst) >= CloseHour)
      && (ahead < DaysPerWeek ==> ahead == (day - wd) % DaysPerWeek)
  {
    WeekdayArith(day, Weekday(nowIst));
  }

  /** Before 17:00 the day's 17:00 is still ahead. */
  lemma BeforeClose(t: int)
    requires Hour(t) < CloseHour
    ensures t < AtHour(t, CloseHour)
  {
    Decompose(t);
  }

  /**
   * A named day's window is 10:00 to 17:00 IST on that weekday, not over yet, and on the first
   * such day from today: every day skipped is another weekday, or today after 17:00.
   */
  lemma {:induction false} WeekdayWindowSpec(day: int, now: int)
    requires 0 <= day < DaysPerWeek
    ensures var w := WeekdayWindow(day, now);
      var nowIst := now + IstOffset;
      var startIst := w.timeMin + IstOffset;
      && Weekday(startIst) == day
      && MinuteOfDay(startIst) == HintStartHour * MinutesPerHour
      && w.timeMax == w.timeMin + (CloseHour - HintStartHour) * MinutesPerHour
      && now < w.timeMax
      && Day(nowIst) <= Day(startIst) <= Day(nowIst) + DaysPerWeek
      && forall k :: Day(nowIst) <= k < Day(startIst) ==>
           k % DaysPerWeek != day || (k == Day(nowIst) && Hour(nowIst) >= CloseHour)
  {
    var nowIst := now + IstOffset;
    var ahead := DaysAhead(day, nowIst);
    var target := nowIst + ahead * MinutesPerDay;
    var w := WeekdayWindow(day, now);
    DaysAheadSpec(day, nowIst);
    ShiftDays(nowIst, ahead);
    OnDayOf(target, HintStartHour * MinutesPerHour);
    assert w.timeMin + IstOffset == StartOfDay(target) + HintStartHour * MinutesPerHour;
    ModShift(Day(nowIst), ahead);
    if ahead == 0 {
      BeforeClose(nowIst);
    } else {
      assert nowIst < StartOfDay(nowIst) + MinutesPerDay;
    }
    forall k | Day(nowIst) <= k < Day(nowIst) + ahead
      ensures k % DaysPerWeek != day || (k == Day(nowIst) && Hour(nowIst) >= CloseHour)
    {
      ModShift(Day(nowIst), k - Day(nowIst));
    }
  }

  /** "next week" runs from Monday 10:00 IST after today to the Friday 17:00 IST four days later. */
  lemma {:induction false} NextWeekWindowSpec(now: int)
    ensures var w := NextWeekWindow(now);
      var nowIst := now + IstOffset;
      && Weekday(w.timeMin + IstOffset) == 0
      && MinuteOfDay(w.timeMin + IstOffset) == HintStartHour * MinutesPerHour
      && Day(nowIst) < Day(w.timeMin + IstOffset) <= Day(nowIst) + DaysPerWeek
      && Weekday(w.timeMax + IstOffset) == Friday
      && MinuteOfDay(w.timeMax + IstOffset) == CloseHour * MinutesPerHour
      && Day(w.timeMax + IstOffset) == Day(w.timeMin + IstOffset) + 4
      && now < w.timeMin < w.timeMax
  {
    var nowIst := now + IstOffset;
    var d := (0 - Weekday(nowIst)) % DaysPerWeek;
    var ahead := if d == 0 then DaysPerWeek else d;
    var monday := nowIst + ahead * MinutesPerDay;
    WeekdayArith(0, Weekday(nowIst));
    ShiftDays(nowIst, ahead);
    ShiftDays(nowIst, ahead + 4);
    assert monday + 4 * MinutesPerDay == nowIst + (ahead + 4) * MinutesPerDay;
    OnDayOf(monday, HintStartHour * MinutesPerHour);
    OnDayOf(monday + 4 * MinutesPerDay, CloseHour * MinutesPerHour);
    ModShift(Day(nowIst), ahead);
    ModShift(Day(nowIst), ahead + 4);
    assert nowIst < StartOfDay(nowIst) + MinutesPerDay;
  }

  /**
   * "this week" as written, in IST: on Friday from 17:00 it is next Monday 10:00 to next Friday
   * 17:00; otherwise it ends at 17:00 today and opens at the current hour, or tomorrow at 10:00
   * once it is 17:00 or later.
   */
  lemma {:induction false} ThisWeekAsWrittenSpec(now: int)
    ensures var w := ThisWeekWindowAsWritten(now);
      var nowIst := now + IstOffset;
      var lo := w.timeMin + IstOffset;
      var hi := w.timeMax + IstOffset;
      && (Weekday(nowIst) == Friday && Hour(nowIst) >= CloseHour ==>
           && Day(lo) == Day(nowIst) + 3 && Weekday(lo) == 0 && MinuteOfDay(lo) == HintStartHour * MinutesPerHour
           && Day(hi) == Day(nowIst) + DaysPerWeek && Weekday(hi) == Friday && MinuteOfDay(hi) == CloseHour * MinutesPerHour)
      && (!(Weekday(nowIst) == Friday && Hour(nowIst) >= CloseHour) ==>
           && Day(hi) == Day(nowIst) && MinuteOfDay(hi) == CloseHour * MinutesPerHour
           && (Hour(nowIst) < CloseHour ==> Day(lo) == Day(nowIst) && MinuteOfDay(lo) == Hour(nowIst) * MinutesPerHour)
           && (Hour(nowIst) >= CloseHour ==> Day(lo) == Day(nowIst) + 1 && MinuteOfDay(lo) == HintStartHour * MinutesPerHour))
  {
    var nowIst := now + IstOffset;
    WeekdayArith(Friday, Weekday(nowIst));
    Decompose(nowIst);
    ShiftDays(nowIst, 1);
    ShiftDays(nowIst, 3);
    ShiftDays(nowIst, 7);
    OnDayOf(nowIst, Hour(nowIst) * MinutesPerHour);
    OnDayOf(nowIst, CloseHour * MinutesPerHour);
    OnDayOf(nowIst + MinutesPerDay, HintStartHour * MinutesPerHour);
    OnDayOf(nowIst + 3 * MinutesPerDay, HintStartHour * MinutesPerHour);
    OnDayOf(nowIst + 7 * MinutesPerDay, CloseHour * MinutesPerHour);
  }

  /**
   * As written, "this week" yields a window that ends before it starts exactly when it is asked
   * at or after 17:00 IST on a day other than Friday (17:00 today against 10:00 tomorrow).
   */
  lemma ThisWeekInvertedAsWritten(now: int)
    ensures var w := ThisWeekWindowAsWritten(now);
      w.timeMax < w.timeMin <==> Hour(now + IstOffset) >= CloseHour && Weekday(now + IstOffset) != Friday
  {
    var nowIst := now + IstOffset;
    ThisWeekAsWrittenSpec(now);
    var w := ThisWeekWindowAsWritten(now);
    CompareByDay(w.timeMin + IstOffset, w.timeMax + IstOffset);
    CompareByDay(w.timeMax + IstOffset, w.timeMin + IstOffset);
  }

  /** A concrete case: Monday 18:00 IST of the epoch week. */
  lemma ThisWeekInvertedExample()
    ensures ThisWeekWindowAsWritten(18 * MinutesPerHour - IstOffset) == Window(1440 + 600 - 330, 1020 - 330)
  {
    var n := 18 * MinutesPerHour;
    DayOfParts(n, 0, n);
    DayOfParts(n + MinutesPerDay, 1, n);
  }

  /**
   * Corrected "this week": the window ends on a Friday at 17:00 IST at most a week away, is never
   * inverted, is not over yet, and opens within the current IST hour (or, after 17:00, later).
   */
  predicate EndsOnFriday(now: int, w: Window)
  {
    var nowIst := now + IstOffset;
    && Weekday(w.timeMax + IstOffset) == Friday
    && MinuteOfDay(w.timeMax + IstOffset) == CloseHour * MinutesPerHour
    && Day(nowIst) <= Day(w.timeMax + IstOffset) <= Day(nowIst) + DaysPerWeek
    && w.timeMin < w.timeMax
    && now < w.timeMax
    && (Hour(nowIst) < CloseHour ==> w.timeMin <= now < w.timeMin + MinutesPerHour)
    && (Hour(nowIst) >= CloseHour ==> now < w.timeMin)
  }

  /** On Friday from 17:00 both versions roll to the next Monday-to-Friday. */
  lemma FridayEveningWindow(now: int)
    requires Weekday(now + IstOffset) == Friday && Hour(now + IstOffset) >= CloseHour
    ensures EndsOnFriday(now, ThisWeekWindow(now))
  {
    var nowIst := now + IstOffset;
    ThisWeekAsWrittenSpec(now);
    var w := ThisWeekWindow(now);
    assert w == ThisWeekWindowAsWritten(now);
    CompareByDay(nowIst, w.timeMin + IstOffset);
    CompareByDay(w.timeMin + IstOffset, w.timeMax + IstOffset);
  }

  lemma FridayCloseSpec(nowIst: int)
    ensures var hi := FridayClose(nowIst);
      && Weekday(hi) == Friday && MinuteOfDay(hi) == CloseHour * MinutesPerHour
      && Day(nowIst) <= Day(hi) < Day(nowIst) + DaysPerWeek
      && (Day(hi) == Day(nowIst) <==> Weekday(nowIst) == Friday)
  {
    var toFriday := (Friday - Weekday(nowIst)) % DaysPerWeek;
    WeekdayArith(Friday, Weekday(nowIst));
    ShiftDays(nowIst, toFriday);
    OnDayOf(nowIst + toFriday * MinutesPerDay, CloseHour * MinutesPerHour);
    ModShift(Day(nowIst), toFriday);
  }

  /** Otherwise the corrected window runs up to the coming Friday, today included. */
  lemma UpToFridayWindow(now: int)
    requires !(Weekday(now + IstOffset) == Friday && Hour(now + IstOffset) >= CloseHour)
    ensures EndsOnFriday(now, ThisWeekWindow(now))
  {
    var nowIst := now + IstOffset;
    var w := ThisWeekWindow(now);
    var lo := w.timeMin + IstOffset;
    var hi := w.timeMax + IstOffset;
    assert hi == FridayClose(nowIst);
    FridayCloseSpec(nowIst);
    if Hour(nowIst) < CloseHour {
      OnDayOf(nowIst, Hour(nowIst) * MinutesPerHour);
      Decompose(nowIst);
      BeforeClose(nowIst);
      assert nowIst < StartOfDay(nowIst) + CloseHour * MinutesPerHour;
      CompareByDay(lo, hi);
      CompareByDay(nowIst, hi);
    } else {
      ShiftDays(nowIst, 1);
      OnDayOf(nowIst + MinutesPerDay, HintStartHour * MinutesPerHour);
      CompareByDay(lo, hi);
      CompareByDay(nowIst, lo);
    }
  }

  lemma ThisWeekWindowSpec(now: int)
    ensures EndsOnFriday(now, ThisWeekWindow(now))
  {
    if Weekday(now + IstOffset) == Friday && Hour(now + IstOffset) >= CloseHour {
      FridayEveningWindow(now);
    } else {
      UpToFridayWindow(now);
    }
  }

  /**
   * As written, a window the parser returns is non-empty and not over yet except exactly for
   * "this week" asked at or after 17:00 IST on a day other than Friday, when it is inverted.
   */
  lemma ParsedWindowAhead(hint: Json, now: int)
    requires hint.JStr?
    ensures var w := ParseTimeConstraints(hint, now).value;
      var nowIst := now + IstOffset;
      var inverted := SelectRule(hint.s) == ThisWeek && Hour(nowIst) >= CloseHour && Weekday(nowIst) != Friday;
      && (!inverted ==> w.timeMin < w.timeMax && now < w.timeMax)
      && (inverted ==> w.timeMax < w.timeMin && w.timeMax <= now)
  {
    match SelectRule(hint.s)
      case OnWeekday(d) => WeekdayWindowSpec(d, now);
      case NextWeek => NextWeekWindowSpec(now);
      case ThisWeek =>
        var nowIst := now + IstOffset;
        ThisWeekAsWrittenSpec(now);
        ThisWeekInvertedAsWritten(now);
        if Hour(nowIst) < CloseHour {
          BeforeClose(nowIst);
          OnDayOf(nowIst, CloseHour * MinutesPerHour);
        } else if Weekday(nowIst) != Friday {
          Decompose(nowIst);
          OnDayOf(nowIst, CloseHour * MinutesPerHour);
        } else {
          FridayEveningWindow(now);
        }
      case NoHint =>
  }

  /** With the intended "this week", every window the parser returns is non-empty and not over yet. */
  lemma ParsedWindowAheadIntended(hint: Json, now: int)
    requires hint.JStr?
    ensures var w := ParseTimeConstraintsIntended(hint, now).value;
      w.timeMin < w.timeMax && now < w.timeMax
  {
    match SelectRule(hint.s)
      case OnWeekday(d) => WeekdayWindowSpec(d, now);
      case NextWeek => NextWeekWindowSpec(now);
      case ThisWeek => ThisWeekWindowSpec(now);
      case NoHint =>
  }
}
