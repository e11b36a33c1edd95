/**
 * The two `find_available_slots` of the calendar manager. The later definition rebinds the
 * name, so it is the live one; the earlier, per-day one is shadowed but modelled too.
 * Busy intervals are the attendees' events, already parsed to instants, one list per attendee,
 * each endpoint marked naive or aware: the overlap test raises where it compares across the two.
 */
module CalendarSlots {
  import opened Wrappers
  import opened Time

  /** At most this many slots are returned (`slots[:10]`). */
  const MaxSlots: int := 10
  /** Default slots are offered on this many consecutive days. */
  const FallbackDayCount: int := 3
  /** Default slots start at 10:00. */
  const FallbackHour: int := 10
  const WeekMinutes: int := 7 * MinutesPerDay

  /** No event of any attendee overlaps `[s, e)`. */
  predicate FreeForAll(s: int, e: int, events: seq<seq<Busy>>)
  {
    forall i, j :: 0 <= i < |events| && 0 <= j < |events[i]| ==>
      !Overlaps(s, e, events[i][j].start, events[i][j].end)
  }

  /** The message of the `TypeError` a comparison of a naive with an aware datetime raises. */
  const MixedCompare: string := "can't compare offset-naive and offset-aware datetimes"

  /**
   * `slot_start < event_end and slot_end > event_start` for one event, the slot's datetimes being
   * aware exactly when `aware`. A comparison across naive and aware raises; the second comparison
   * is made only when the first holds. `Ok(true)` means the two overlap.
   */
  function Overlap(s: int, e: int, b: Busy, aware: bool): (r: Result<bool>)
    ensures r.Ok? ==> r.value == Overlaps(s, e, b.start, b.end)
    ensures r.Err? ==> r.msg == MixedCompare
    ensures b.startAware == aware && b.endAware == aware ==> r.Ok?
    ensures b.endAware != aware ==> r.Err?
  {
    if b.endAware != aware then Err(MixedCompare)
    else if !(s < b.end) then Ok(false)
    else if b.startAware != aware then Err(MixedCompare)
    else Ok(e > b.start)
  }

  /** Every endpoint of every event is aware exactly when `aware`, so no comparison raises. */
  predicate SameAwareness(events: seq<seq<Busy>>, aware: bool)
  {
    forall i, j :: 0 <= i < |events| && 0 <= j < |events[i]| ==>
      events[i][j].startAware == aware && events[i][j].endAware == aware
  }

  /** One attendee's events in order: `Ok(false)` at the first overlap, `Err` at the first mixed comparison. */
  function ProbeEvents(s: int, e: int, bs: seq<Busy>, aware: bool): (r: Result<bool>)
    ensures r.Ok? ==> (r.value <==> forall k :: 0 <= k < |bs| ==> !Overlaps(s, e, bs[k].start, bs[k].end))
    ensures r.Err? ==> r.msg == MixedCompare
    ensures (forall k :: 0 <= k < |bs| ==> bs[k].startAware == aware && bs[k].endAware == aware) ==> r.Ok?
    decreases |bs|
  {
    if bs == [] then Ok(true)
    else
      assert forall k :: 1 <= k < |bs| ==> bs[k] == bs[1..][k - 1];
      match Overlap(s, e, bs[0], aware)
      case Err(m) => Err(m)
      case Ok(hit) => if hit then Ok(false) else ProbeEvents(s, e, bs[1..], aware)
  }

  /**
   * The conflict check both searches run: the attendees in turn, stopping at the first overlap.
   * It answers whether `[s, e)` is free for everyone, unless a comparison raises first.
   */
  function Probe(s: int, e: int, events: seq<seq<Busy>>, aware: bool): (r: Result<bool>)
    ensures r.Ok? ==> r.value == FreeForAll(s, e, events)
    ensures r.Err? ==> r.msg == MixedCompare
    ensures SameAwareness(events, aware) ==> r.Ok?
    decreases |events|
  {
    if events == [] then Ok(true)
    else
      assert forall k :: 1 <= k < |events| ==> events[k] == events[1..][k - 1];
      match ProbeEvents(s, e, events[0], aware)
      case Err(m) => Err(m)
      case Ok(free) => if !free then Ok(false) else Probe(s, e, events[1..], aware)
  }

  /** The first event of the first attendee that has events ends in a datetime of the other kind. */
  predicate FirstEndMixed(events: seq<seq<Busy>>, aware: bool)
    decreases |events|
  {
    events != [] && (if events[0] == [] then FirstEndMixed(events[1..], aware) else events[0][0].endAware != aware)
  }

  /** Then the very first comparison raises, whatever the slot. */
  lemma {:induction false} FirstEndMixedRaises(s: int, e: int, events: seq<seq<Busy>>, aware: bool)
    requires FirstEndMixed(events, aware)
    ensures Probe(s, e, events, aware) == Err(MixedCompare)
    decreases |events|
  {
    if events[0] != [] {
      assert ProbeEvents(s, e, events[0], aware) == Err(MixedCompare);
    } else {
      FirstEndMixedRaises(s, e, events[1..], aware);
    }
  }

  /** The nested loops of the conflict check. */
  method IsFree(events: seq<seq<Busy>>, s: int, e: int, aware: bool) returns (free: Result<bool>)
    ensures free == Probe(s, e, events, aware)
  {
    var i := 0;
    while i < |events|
      invariant 0 <= i <= |events|
      invariant Probe(s, e, events, aware) == Probe(s, e, events[i..], aware)
    {
      var j := 0;
      while j < |events[i]|
        invariant 0 <= j <= |events[i]|
        invariant ProbeEvents(s, e, events[i], aware) == ProbeEvents(s, e, events[i][j..], aware)
      {
        var hit := Overlap(s, e, events[i][j], aware);
        if hit.Err? {
          return Err(hit.msg);
        }
        if hit.value {
          return Ok(false);
        }
        assert events[i][j..][1..] == events[i][j + 1..];
        j := j + 1;
      }
      assert events[i][j..] == [];
      assert events[i..][1..] == events[i + 1..];
      i := i + 1;
    }
    assert events[i..] == [];
    return Ok(true);
  }

  function Take(xs: seq<Slot>, n: nat): (r: seq<Slot>)
    ensures |r| == if |xs| <= n then |xs| else n
    ensures r == xs[..|r|]
    ensures |xs| <= n ==> r == xs
  {
    if |xs| <= n then xs else xs[..n]
  }

  // ---------------------------------------------------------------------------------------
  // The live search (calendar_manager.py:476-568)
  // ---------------------------------------------------------------------------------------

  /** The candidate after `c`: 30 minutes on, or 09:00 the next day once the hour reaches 17. */
  function NextCandidate(c: int): (r: int)
    ensures r >= c + Step
    ensures Hour(c + Step) < CloseHour ==> r == c + Step
    ensures Hour(c + Step) >= CloseHour ==>
      Day(r) == Day(c + Step) + 1 && MinuteOfDay(r) == OpenHour * MinutesPerHour
  {
    var n := c + Step;
    ShiftDays(n, 1);
    OnDayOf(n + MinutesPerDay, OpenHour * MinutesPerHour);
    if Hour(n) >= CloseHour then AtHour(n + MinutesPerDay, OpenHour) else n
  }

  /** The slots the scan loop collects from candidate `c` on, in scan order. */
  function Scan(c: int, timeMax: int, duration: int, events: seq<seq<Busy>>): seq<Slot>
    decreases timeMax - c
  {
    if c >= timeMax then []
    else
      var rest := Scan(NextCandidate(c), timeMax, duration, events);
      if IsWeekday(c) && OpenHour <= Hour(c) < CloseHour && FreeForAll(c, c + duration, events)
      then [Slot(c, c + duration)] + rest
      else rest
  }

  /** Where the default slots begin: 10:00 of the window's first day, or 10:00 tomorrow if that has passed. */
  function FallbackStart(timeMin: int, now: int): int
  {
    var d := AtHour(timeMin, FallbackHour);
    if d < now then AtHour(now + MinutesPerDay, FallbackHour) else d
  }

  /** The default slots on the first `n` of the days from `d` on, weekdays only. */
  function FallbackDays(d: int, n: nat, duration: int): seq<Slot>
  {
    if n == 0 then []
    else
      var day := d + (n - 1) * MinutesPerDay;
      FallbackDays(d, n - 1, duration) + (if IsWeekday(day) then [Slot(day, day + duration)] else [])
  }

  /** What the live `find_available_slots` returns when no comparison raises. */
  function LiveSlots(events: seq<seq<Busy>>, duration: int, timeMin: Option<int>, timeMax: Option<int>, now: int): seq<Slot>
  {
    var tmin := timeMin.GetOr(now);
    var tmax := timeMax.GetOr(tmin + WeekMinutes);
    var scanned := Scan(AtHour(tmin, OpenHour), tmax, duration, events);
    var all := if scanned == [] then FallbackDays(FallbackStart(tmin, now), FallbackDayCount, duration) else scanned;
    Take(all, MaxSlots)
  }

  /**
   * Some candidate the scan from `c` checks makes a comparison across naive and aware. The
   * candidates are naive: both callers pass `utcnow()` values.
   */
  predicate ScanRaises(c: int, timeMax: int, duration: int, events: seq<seq<Busy>>)
    decreases timeMax - c
  {
    c < timeMax &&
    ((IsWeekday(c) && OpenHour <= Hour(c) < CloseHour && Probe(c, c + duration, events, false).Err?)
     || ScanRaises(NextCandidate(c), timeMax, duration, events))
  }

  /** The live `find_available_slots` over a naive window: it raises, or returns `LiveSlots`. */
  function LiveSearch(events: seq<seq<Busy>>, duration: int, timeMin: Option<int>, timeMax: Option<int>, now: int): Result<seq<Slot>>
  {
    var tmin := timeMin.GetOr(now);
    var tmax := timeMax.GetOr(tmin + WeekMinutes);
    if ScanRaises(AtHour(tmin, OpenHour), tmax, duration, events) then Err(MixedCompare)
    else Ok(LiveSlots(events, duration, timeMin, timeMax, now))
  }

  /**
   * The live `find_available_slots`. `events[i]` are the events of the i-th attendee, as
   * `get_events` or the fixture gave them; `now` is `datetime.utcnow()`.
   */
  method FindAvailableSlots(events: seq<seq<Busy>>, duration: int, timeMin: Option<int>, timeMax: Option<int>, now: int)
    returns (slots: Result<seq<Slot>>)
    ensures slots == LiveSearch(events, duration, timeMin, timeMax, now)
  {
    var tmin := if timeMin.Some? then timeMin.value else now;
    var tmax := if timeMax.Some? then timeMax.value else tmin + WeekMinutes;
    var scanned := ScanLoop(events, duration, tmin, tmax);
    if scanned.Err? {
      return Err(scanned.msg);
    }
    var found := scanned.value;
    if found == [] {
      var start := AtHour(tmin, FallbackHour);
      if start < now {
        start := AtHour(now + MinutesPerDay, FallbackHour);
      }
      found := FallbackLoop(start, duration);
    }
    slots := Ok(if |found| <= MaxSlots then found else found[..MaxSlots]);
  }

  /** The candidate loop: every half-hour from 09:00 of the first day up to the window's end. */
  method ScanLoop(events: seq<seq<Busy>>, duration: int, timeMin: int, timeMax: int) returns (found: Result<seq<Slot>>)
    ensures ScanRaises(AtHour(timeMin, OpenHour), timeMax, duration, events) ==> found == Err(MixedCompare)
    ensures !ScanRaises(AtHour(timeMin, OpenHour), timeMax, duration, events) ==>
      found == Ok(Scan(AtHour(timeMin, OpenHour), timeMax, duration, events))
  {
    var acc := [];
    var current := AtHour(timeMin, OpenHour);
    OnDayOf(timeMin, OpenHour * MinutesPerHour);
    if Hour(current) >= CloseHour {
      current := AtHour(current + MinutesPerDay, OpenHour);
    }
    ghost var start := current;
    while current < timeMax
      invariant acc + Scan(current, timeMax, duration, events) == Scan(start, timeMax, duration, events)
      invariant ScanRaises(current, timeMax, duration, events) == ScanRaises(start, timeMax, duration, events)
      decreases timeMax - current
    {
      ghost var prev := current;
      if IsWeekday(current) && OpenHour <= Hour(current) < CloseHour {
        var end := current + duration;
        var free := IsFree(events, current, end, false);
        if free.Err? {
          return Err(free.msg);
        }
        if free.value {
          acc := acc + [Slot(current, end)];
        }
      }
      current := current + Step;
      if Hour(current) >= CloseHour {
        current := AtHour(current + MinutesPerDay, OpenHour);
      }
      assert current == NextCandidate(prev);
    }
    assert Scan(current, timeMax, duration, events) == [];
    assert acc == Scan(start, timeMax, duration, events);
    return Ok(acc);
  }

  /** The default slots: 10:00 on each weekday among three days from `start`. */
  method FallbackLoop(start: int, duration: int) returns (found: seq<Slot>)
    ensures found == FallbackDays(start, FallbackDayCount, duration)
  {
    found := [];
    for i := 0 to FallbackDayCount
      invariant found == FallbackDays(start, i, duration)
    {
      var day := start + i * MinutesPerDay;
      if IsWeekday(day) {
        found := found + [Slot(day, day + duration)];
      }
    }
  }

  /** One step of the scan, by index: either `c` is kept in front of the rest or it is skipped. */
  lemma ScanUnfold(c: int, timeMax: int, duration: int, events: seq<seq<Busy>>)
    requires c < timeMax
    ensures var r := Scan(c, timeMax, duration, events);
      var rest := Scan(NextCandidate(c), timeMax, duration, events);
      || (r == rest)
      || (|r| == |rest| + 1 && r[0].start == c && forall k :: 0 < k < |r| ==> r[k] == rest[k - 1])
  {
  }

  /** Every slot the scan collects from `c` starts at `c` or later. */
  lemma {:induction false} ScanFrom(c: int, timeMax: int, duration: int, events: seq<seq<Busy>>)
    ensures var r := Scan(c, timeMax, duration, events);
      forall k :: 0 <= k < |r| ==> c <= r[k].start
    decreases timeMax - c
  {
    if c < timeMax {
      ScanFrom(NextCandidate(c), timeMax, duration, events);
      ScanUnfold(c, timeMax, duration, events);
    }
  }

  /** Every slot the scan collects starts on a weekday in business hours inside the window, and is free. */
  lemma {:induction false} ScanSound(c: int, timeMax: int, duration: int, events: seq<seq<Busy>>)
    ensures forall s :: s in Scan(c, timeMax, duration, events) ==>
      && IsWeekday(s.start) && OpenHour <= Hour(s.start) < CloseHour
      && c <= s.start < timeMax
      && s.end == s.start + duration
      && FreeForAll(s.start, s.end, events)
    decreases timeMax - c
  {
    if c < timeMax {
      ScanSound(NextCandidate(c), timeMax, duration, events);
    }
  }

  /** The scan collects slots in strictly increasing start order. */
  lemma {:induction false} ScanSorted(c: int, timeMax: int, duration: int, events: seq<seq<Busy>>)
    ensures var r := Scan(c, timeMax, duration, events);
      forall k, l :: 0 <= k < l < |r| ==> r[k].start < r[l].start
    decreases timeMax - c
  {
    if c < timeMax {
      ScanSorted(NextCandidate(c), timeMax, duration, events);
      ScanFrom(NextCandidate(c), timeMax, duration, events);
      ScanUnfold(c, timeMax, duration, events);
    }
  }

  /** A start the scan can reach: a half-hour in business hours. */
  predicate OnGrid(t: int)
  {
    OpenHour <= Hour(t) < CloseHour && MinuteOfDay(t) % Step == 0
  }

  lemma {:induction false} GridStep(c: int)
    requires OnGrid(c)
    ensures OnGrid(NextCandidate(c))
  {
    var m := MinuteOfDay(c);
    Decompose(c);
    if m + Step < CloseHour * MinutesPerHour {
      OnDayOf(c, m + Step);
      assert c + Step == StartOfDay(c) + (m + Step);
    } else {
      assert m == 990;
      OnDayOf(c, m + Step);
      assert c + Step == StartOfDay(c) + (m + Step);
      OnDayOf(c + Step + MinutesPerDay, OpenHour * MinutesPerHour);
    }
  }

  /** No grid start lies strictly between a grid start and its successor. */
  lemma {:induction false} GridNext(c: int, t: int)
    requires OnGrid(c) && OnGrid(t) && c < t
    ensures NextCandidate(c) <= t
  {
    var mc, mt := MinuteOfDay(c), MinuteOfDay(t);
    Decompose(c);
    Decompose(t);
    CompareByDay(c, t);
    var a, b := mc / Step, mt / Step;
    assert mc == Step * a && mt == Step * b;
    OnDayOf(c, mc);
    if mc + Step < CloseHour * MinutesPerHour {
      OnDayOf(c, mc + Step);
      assert c + Step == StartOfDay(c) + (mc + Step);
    } else {
      OnDayOf(c, mc + Step);
      assert c + Step == StartOfDay(c) + (mc + Step);
      var n := c + Step;
      ShiftDays(n, 1);
      OnDayOf(n + MinutesPerDay, OpenHour * MinutesPerHour);
      assert Day(t) > Day(c);
    }
  }

  /** The scan misses no free weekday grid start in the window: it is earliest-first and complete. */
  lemma {:induction false} ScanComplete(c: int, t: int, timeMax: int, duration: int, events: seq<seq<Busy>>)
    requires OnGrid(c) && OnGrid(t) && c <= t < timeMax
    requires IsWeekday(t) && FreeForAll(t, t + duration, events)
    ensures Slot(t, t + duration) in Scan(c, timeMax, duration, events)
    decreases timeMax - c
  {
    if c < t {
      GridNext(c, t);
      GridStep(c);
      ScanComplete(NextCandidate(c), t, timeMax, duration, events);
    }
  }

  /** The live scan starts at 09:00 of the window's first day, a grid start. */
  lemma ScanStartOnGrid(timeMin: int)
    ensures OnGrid(AtHour(timeMin, OpenHour)) && Day(AtHour(timeMin, OpenHour)) == Day(timeMin)
  {
    OnDayOf(timeMin, OpenHour * MinutesPerHour);
  }

  /** Each default slot is at 10:00 of a weekday among the `n` days from `d`. */
  lemma {:induction false} FallbackDaysShape(d: int, n: nat, duration: int)
    requires MinuteOfDay(d) == FallbackHour * MinutesPerHour
    ensures var r := FallbackDays(d, n, duration);
      && |r| <= n
      && forall k :: 0 <= k < |r| ==>
        && MinuteOfDay(r[k].start) == FallbackHour * MinutesPerHour
        && IsWeekday(r[k].start)
        && d <= r[k].start < d + n * MinutesPerDay
        && r[k].end == r[k].start + duration
        && (k > 0 ==> r[k - 1].start < r[k].start)
  {
    if n > 0 {
      FallbackDaysShape(d, n - 1, duration);
      ShiftDays(d, n - 1);
    }
  }

  /** Three consecutive days always include a weekday, so the default slots are never empty. */
  lemma FallbackNonEmpty(d: int, duration: int)
    ensures |FallbackDays(d, FallbackDayCount, duration)| >= 1
  {
    ShiftDays(d, 1);
    ShiftDays(d, 2);
    assert FallbackDays(d, 3, duration) == FallbackDays(d, 2, duration) +
      (if IsWeekday(d + 2 * MinutesPerDay) then [Slot(d + 2 * MinutesPerDay, d + 2 * MinutesPerDay + duration)] else []);
    assert FallbackDays(d, 2, duration) == FallbackDays(d, 1, duration) +
      (if IsWeekday(d + MinutesPerDay) then [Slot(d + MinutesPerDay, d + MinutesPerDay + duration)] else []);
  }

  /**
   * The live search returns between 1 and 10 slots, each lasting the duration. The empty
   * answer cannot happen: without a free slot there are default ones.
   */
  lemma LiveSlotsCount(events: seq<seq<Busy>>, duration: int, timeMin: Option<int>, timeMax: Option<int>, now: int)
    ensures var r := LiveSlots(events, duration, timeMin, timeMax, now);
      && 1 <= |r| <= MaxSlots
      && forall s :: s in r ==> s.end == s.start + duration
  {
    var tmin := timeMin.GetOr(now);
    var tmax := timeMax.GetOr(tmin + WeekMinutes);
    var scanned := Scan(AtHour(tmin, OpenHour), tmax, duration, events);
    var start := FallbackStart(tmin, now);
    ScanSound(AtHour(tmin, OpenHour), tmax, duration, events);
    OnDayOf(tmin, FallbackHour * MinutesPerHour);
    OnDayOf(now + MinutesPerDay, FallbackHour * MinutesPerHour);
    FallbackDaysShape(start, FallbackDayCount, duration);
    FallbackNonEmpty(start, duration);
    var r := LiveSlots(events, duration, timeMin, timeMax, now);
    forall s | s in r ensures s.end == s.start + duration {
      var k :| 0 <= k < |r| && r[k] == s;
      if scanned != [] {
        assert s in scanned;
      }
    }
  }

  /**
   * When the scan finds anything, the result is its first (at most 10) slots: each on a weekday,
   * starting in business hours no earlier than 09:00 of the window's first day and before the
   * window's end, free for every attendee, in strictly increasing order.
   */
  lemma LiveSlotsScanned(events: seq<seq<Busy>>, duration: int, timeMin: Option<int>, timeMax: Option<int>, now: int)
    requires Scan(AtHour(timeMin.GetOr(now), OpenHour), timeMax.GetOr(timeMin.GetOr(now) + WeekMinutes), duration, events) != []
    ensures var r := LiveSlots(events, duration, timeMin, timeMax, now);
      var tmin := timeMin.GetOr(now);
      var tmax := timeMax.GetOr(tmin + WeekMinutes);
      && r == Take(Scan(AtHour(tmin, OpenHour), tmax, duration, events), MaxSlots)
      && (forall s :: s in r ==>
        && IsWeekday(s.start) && OpenHour <= Hour(s.start) < CloseHour
        && AtHour(tmin, OpenHour) <= s.start < tmax
        && FreeForAll(s.start, s.end, events))
      && (forall k, l :: 0 <= k < l < |r| ==> r[k].start < r[l].start)
  {
    var tmin := timeMin.GetOr(now);
    var tmax := timeMax.GetOr(tmin + WeekMinutes);
    var scanned := Scan(AtHour(tmin, OpenHour), tmax, duration, events);
    ScanSound(AtHour(tmin, OpenHour), tmax, duration, events);
    ScanSorted(AtHour(tmin, OpenHour), tmax, duration, events);
    var r := LiveSlots(events, duration, timeMin, timeMax, now);
    assert forall k :: 0 <= k < |r| ==> r[k] == scanned[k];
    forall s | s in r ensures s in scanned {
      var k :| 0 <= k < |r| && r[k] == s;
    }
  }

  /**
   * Only when the scan finds nothing does the search fall back: to at most three slots, each at
   * 10:00 of a weekday among the three days from `FallbackStart`.
   */
  lemma LiveSlotsFallback(events: seq<seq<Busy>>, duration: int, timeMin: Option<int>, timeMax: Option<int>, now: int)
    requires Scan(AtHour(timeMin.GetOr(now), OpenHour), timeMax.GetOr(timeMin.GetOr(now) + WeekMinutes), duration, events) == []
    ensures var r := LiveSlots(events, duration, timeMin, timeMax, now);
      var d := FallbackStart(timeMin.GetOr(now), now);
      && 1 <= |r| <= FallbackDayCount
      && forall k :: 0 <= k < |r| ==>
        && MinuteOfDay(r[k].start) == FallbackHour * MinutesPerHour && IsWeekday(r[k].start)
        && d <= r[k].start < d + FallbackDayCount * MinutesPerDay
        && (k > 0 ==> r[k - 1].start < r[k].start)
  {
    var tmin := timeMin.GetOr(now);
    var d := FallbackStart(tmin, now);
    OnDayOf(tmin, FallbackHour * MinutesPerHour);
    OnDayOf(now + MinutesPerDay, FallbackHour * MinutesPerHour);
    FallbackDaysShape(d, FallbackDayCount, duration);
    FallbackNonEmpty(d, duration);
  }

  /** Without mixed comparisons, the scan never raises. */
  lemma {:induction false} ScanNeverRaises(c: int, timeMax: int, duration: int, events: seq<seq<Busy>>)
    requires SameAwareness(events, false)
    ensures !ScanRaises(c, timeMax, duration, events)
    decreases timeMax - c
  {
    if c < timeMax {
      ScanNeverRaises(NextCandidate(c), timeMax, duration, events);
    }
  }

  /** A weekday grid start in the window whose check raises makes the whole scan raise. */
  lemma {:induction false} ScanRaisesAt(c: int, t: int, timeMax: int, duration: int, events: seq<seq<Busy>>)
    requires OnGrid(c) && OnGrid(t) && c <= t < timeMax
    requires IsWeekday(t) && Probe(t, t + duration, events, false).Err?
    ensures ScanRaises(c, timeMax, duration, events)
    decreases timeMax - c
  {
    if c < t {
      GridNext(c, t);
      GridStep(c);
      ScanRaisesAt(NextCandidate(c), t, timeMax, duration, events);
    }
  }

  /** With only naive event times (or none), the live search answers `LiveSlots`. */
  lemma LiveSearchNaive(events: seq<seq<Busy>>, duration: int, timeMin: Option<int>, timeMax: Option<int>, now: int)
    requires SameAwareness(events, false)
    ensures LiveSearch(events, duration, timeMin, timeMax, now) == Ok(LiveSlots(events, duration, timeMin, timeMax, now))
  {
    var tmin := timeMin.GetOr(now);
    ScanNeverRaises(AtHour(tmin, OpenHour), timeMax.GetOr(tmin + WeekMinutes), duration, events);
  }

  /**
   * When the first event met ends in an aware datetime (the fixture's "+05:30" texts, an API
   * `dateTime`), the live search raises, as soon as its window holds three days of candidates.
   */
  lemma LiveSearchRaises(events: seq<seq<Busy>>, duration: int, timeMin: int, timeMax: int, now: int)
    requires FirstEndMixed(events, false)
    requires AtHour(timeMin, OpenHour) + 2 * MinutesPerDay < timeMax
    ensures LiveSearch(events, duration, Some(timeMin), Some(timeMax), now) == Err(MixedCompare)
  {
    var c := AtHour(timeMin, OpenHour);
    ScanStartOnGrid(timeMin);
    ShiftDays(c, 1);
    ShiftDays(c, 2);
    var t := if IsWeekday(c) then c else if IsWeekday(c + MinutesPerDay) then c + MinutesPerDay else c + 2 * MinutesPerDay;
    FirstEndMixedRaises(t, t + duration, events, false);
    ScanRaisesAt(c, t, timeMax, duration, events);
  }

  // ---------------------------------------------------------------------------------------
  // The shadowed per-day search (calendar_manager.py:197-270)
  // ---------------------------------------------------------------------------------------

  /** The free slots of one business day, every 30 minutes from `s` while the meeting still ends by `dayEnd`. */
  function DaySlots(s: int, dayEnd: int, duration: int, events: seq<seq<Busy>>): seq<Slot>
    decreases dayEnd - duration - s
  {
    if s + duration > dayEnd then []
    else
      (if FreeForAll(s, s + duration, events) then [Slot(s, s + duration)] else [])
      + DaySlots(s + Step, dayEnd, duration, events)
  }

  /** The slots of the days from midnight `day` up to midnight `endDay`, weekends skipped. */
  function PerDay(day: int, endDay: int, duration: int, events: seq<seq<Busy>>): seq<Slot>
    decreases endDay - day
  {
    if day > endDay then []
    else
      (if !IsWeekday(day) then [] else DaySlots(AtHour(day, OpenHour), AtHour(day, CloseHour), duration, events))
      + PerDay(day + MinutesPerDay, endDay, duration, events)
  }

  /** What the per-day `find_available_slots` returns when no comparison raises. */
  function PerDaySlots(events: seq<seq<Busy>>, duration: int, timeMin: int, timeMax: int): seq<Slot>
  {
    PerDay(StartOfDay(timeMin), StartOfDay(timeMax), duration, events)
  }

  /** Some start of the day's scan from `s`, aware exactly when `aware`, makes a mixed comparison. */
  predicate DayRaises(s: int, dayEnd: int, duration: int, events: seq<seq<Busy>>, aware: bool)
    decreases dayEnd - duration - s
  {
    s + duration <= dayEnd &&
    (Probe(s, s + duration, events, aware).Err? || DayRaises(s + Step, dayEnd, duration, events, aware))
  }

  /** Some weekday from midnight `day` to midnight `endDay` has a start whose check raises. */
  predicate PerDayRaises(day: int, endDay: int, duration: int, events: seq<seq<Busy>>, aware: bool)
    decreases endDay - day
  {
    day <= endDay &&
    ((IsWeekday(day) && DayRaises(AtHour(day, OpenHour), AtHour(day, CloseHour), duration, events, aware))
     || PerDayRaises(day + MinutesPerDay, endDay, duration, events, aware))
  }

  /** The per-day `find_available_slots` over a window whose datetimes are aware exactly when `aware`. */
  function PerDaySearch(events: seq<seq<Busy>>, duration: int, timeMin: int, timeMax: int, aware: bool): Result<seq<Slot>>
  {
    if PerDayRaises(StartOfDay(timeMin), StartOfDay(timeMax), duration, events, aware) then Err(MixedCompare)
    else Ok(PerDaySlots(events, duration, timeMin, timeMax))
  }

  /** The per-day `find_available_slots`. */
  method FindSlotsPerDay(events: seq<seq<Busy>>, duration: int, timeMin: int, timeMax: int, aware: bool)
    returns (slots: Result<seq<Slot>>)
    ensures slots == PerDaySearch(events, duration, timeMin, timeMax, aware)
  {
    var acc := [];
    var currentDay := StartOfDay(timeMin);
    var endDay := StartOfDay(timeMax);
    while currentDay <= endDay
      invariant acc + PerDay(currentDay, endDay, duration, events) == PerDaySlots(events, duration, timeMin, timeMax)
      invariant PerDayRaises(currentDay, endDay, duration, events, aware) == PerDayRaises(StartOfDay(timeMin), endDay, duration, events, aware)
      decreases endDay - currentDay
    {
      if Weekday(currentDay) >= 5 {
        currentDay := currentDay + MinutesPerDay;
        continue;
      }
      var daySlots := DayLoop(events, duration, AtHour(currentDay, OpenHour), AtHour(currentDay, CloseHour), aware);
      if daySlots.Err? {
        return Err(daySlots.msg);
      }
      acc := acc + daySlots.value;
      currentDay := currentDay + MinutesPerDay;
    }
    assert PerDay(currentDay, endDay, duration, events) == [];
    assert !PerDayRaises(currentDay, endDay, duration, events, aware);
    assert acc == PerDaySlots(events, duration, timeMin, timeMax);
    return Ok(acc);
  }

  /** The inner loop of the per-day search: one business day's half-hour starts. */
  method DayLoop(events: seq<seq<Busy>>, duration: int, dayStart: int, dayEnd: int, aware: bool) returns (found: Result<seq<Slot>>)
    ensures DayRaises(dayStart, dayEnd, duration, events, aware) ==> found == Err(MixedCompare)
    ensures !DayRaises(dayStart, dayEnd, duration, events, aware) ==> found == Ok(DaySlots(dayStart, dayEnd, duration, events))
  {
    var acc := [];
    var slotStart := dayStart;
    while slotStart + duration <= dayEnd
      invariant acc + DaySlots(slotStart, dayEnd, duration, events) == DaySlots(dayStart, dayEnd, duration, events)
      invariant DayRaises(slotStart, dayEnd, duration, events, aware) == DayRaises(dayStart, dayEnd, duration, events, aware)
      decreases dayEnd - duration - slotStart
    {
      var slotEnd := slotStart + duration;
      var free := IsFree(events, slotStart, slotEnd, aware);
      DayStep(acc, slotStart, dayEnd, duration, events, aware);
      if free.Err? {
        return Err(free.msg);
      }
      acc := acc + (if free.value then [Slot(slotStart, slotEnd)] else []);
      slotStart := slotStart + Step;
    }
    assert DaySlots(slotStart, dayEnd, duration, events) == [];
    assert !DayRaises(slotStart, dayEnd, duration, events, aware);
    assert acc == DaySlots(dayStart, dayEnd, duration, events);
    return Ok(acc);
  }

  /** One start of a day's scan: its probe either raises, or adds its slot when free. */
  lemma DayStep(acc: seq<Slot>, s: int, dayEnd: int, duration: int, events: seq<seq<Busy>>, aware: bool)
    requires s + duration <= dayEnd
    ensures var free := Probe(s, s + duration, events, aware);
      && DayRaises(s, dayEnd, duration, events, aware) == (free.Err? || DayRaises(s + Step, dayEnd, duration, events, aware))
      && (free.Ok? ==>
            acc + DaySlots(s, dayEnd, duration, events)
            == (acc + (if free.value then [Slot(s, s + duration)] else [])) + DaySlots(s + Step, dayEnd, duration, events))
  {
    var free := Probe(s, s + duration, events, aware);
    if free.Ok? {
      var here := if free.value then [Slot(s, s + duration)] else [];
      assert DaySlots(s, dayEnd, duration, events) == here + DaySlots(s + Step, dayEnd, duration, events);
    }
  }

  /** A day's scan with no mixed comparison never raises. */
  lemma {:induction false} DayNeverRaises(s: int, dayEnd: int, duration: int, events: seq<seq<Busy>>, aware: bool)
    requires SameAwareness(events, aware)
    ensures !DayRaises(s, dayEnd, duration, events, aware)
    decreases dayEnd - duration - s
  {
    if s + duration <= dayEnd {
      DayNeverRaises(s + Step, dayEnd, duration, events, aware);
    }
  }

  lemma {:induction false} PerDayNeverRaises(day: int, endDay: int, duration: int, events: seq<seq<Busy>>, aware: bool)
    requires SameAwareness(events, aware)
    ensures !PerDayRaises(day, endDay, duration, events, aware)
    decreases endDay - day
  {
    if day <= endDay {
      DayNeverRaises(AtHour(day, OpenHour), AtHour(day, CloseHour), duration, events, aware);
      PerDayNeverRaises(day + MinutesPerDay, endDay, duration, events, aware);
    }
  }

  /** When the window and every event time are of one kind, the per-day search answers `PerDaySlots`. */
  lemma PerDaySearchUniform(events: seq<seq<Busy>>, duration: int, timeMin: int, timeMax: int, aware: bool)
    requires SameAwareness(events, aware)
    ensures PerDaySearch(events, duration, timeMin, timeMax, aware) == Ok(PerDaySlots(events, duration, timeMin, timeMax))
  {
    PerDayNeverRaises(StartOfDay(timeMin), StartOfDay(timeMax), duration, events, aware);
  }

  /** One step of a day's slots, by index. */
  lemma DaySlotsUnfold(s: int, dayEnd: int, duration: int, events: seq<seq<Busy>>)
    requires s + duration <= dayEnd
    ensures var r := DaySlots(s, dayEnd, duration, events);
      var rest := DaySlots(s + Step, dayEnd, duration, events);
      || (r == rest)
      || (|r| == |rest| + 1 && r[0] == Slot(s, s + duration) && FreeForAll(s, s + duration, events)
          && forall k :: 0 < k < |r| ==> r[k] == rest[k - 1])
  {
  }

  /** `s` lies within business hours of the weekday starting at midnight `d`. */
  predicate InBusinessDay(s: Slot, d: int)
  {
    StartOfDay(d) == d && IsWeekday(d)
    && AtHour(d, OpenHour) <= s.start && s.end <= AtHour(d, CloseHour)
  }

  /** A slot the day's scan from `s` may offer: on its grid, ending by `dayEnd`, free. */
  predicate DaySlotOk(x: Slot, s: int, dayEnd: int, duration: int, events: seq<seq<Busy>>)
  {
    && s <= x.start && (x.start - s) % Step == 0
    && x.end == x.start + duration && x.end <= dayEnd
    && FreeForAll(x.start, x.end, events)
  }

  lemma GridShift(x: int, s: int)
    requires (x - (s + Step)) % Step == 0
    ensures (x - s) % Step == 0
  {
    var q := (x - (s + Step)) / Step;
    assert x - (s + Step) == Step * q;
    assert x - s == Step * (q + 1);
  }

  /** Each slot of one day starts on the 30-minute grid from `s`, ends by `dayEnd`, and is free. */
  lemma {:induction false} DaySlotsSound(s: int, dayEnd: int, duration: int, events: seq<seq<Busy>>)
    ensures forall x :: x in DaySlots(s, dayEnd, duration, events) ==> DaySlotOk(x, s, dayEnd, duration, events)
    decreases dayEnd - duration - s
  {
    if s + duration <= dayEnd {
      DaySlotsSound(s + Step, dayEnd, duration, events);
      DaySlotsUnfold(s, dayEnd, duration, events);
      var r := DaySlots(s, dayEnd, duration, events);
      var rest := DaySlots(s + Step, dayEnd, duration, events);
      forall x | x in r ensures DaySlotOk(x, s, dayEnd, duration, events) {
        var k :| 0 <= k < |r| && r[k] == x;
        if r == rest {
          GridShift(x.start, s);
        } else if k > 0 {
          assert rest[k - 1] in rest;
          GridShift(x.start, s);
        }
      }
    }
  }

  /** One day's slots come in strictly increasing start order. */
  lemma {:induction false} DaySlotsSorted(s: int, dayEnd: int, duration: int, events: seq<seq<Busy>>)
    ensures var r := DaySlots(s, dayEnd, duration, events);
      forall k, l :: 0 <= k < l < |r| ==> r[k].start < r[l].start
    decreases dayEnd - duration - s
  {
    if s + duration <= dayEnd {
      DaySlotsSorted(s + Step, dayEnd, duration, events);
      DaySlotsSound(s + Step, dayEnd, duration, events);
      DaySlotsUnfold(s, dayEnd, duration, events);
      var rest := DaySlots(s + Step, dayEnd, duration, events);
      forall l | 0 <= l < |rest| ensures s < rest[l].start {
        assert rest[l] in rest;
      }
    }
  }

  /** Every free grid start of the day whose meeting ends by `dayEnd` is offered. */
  lemma {:induction false} DaySlotsComplete(s: int, t: int, dayEnd: int, duration: int, events: seq<seq<Busy>>)
    requires s <= t && (t - s) % Step == 0 && t + duration <= dayEnd
    requires FreeForAll(t, t + duration, events)
    ensures Slot(t, t + duration) in DaySlots(s, dayEnd, duration, events)
    decreases dayEnd - duration - s
  {
    if s < t {
      DaySlotsComplete(s + Step, t, dayEnd, duration, events);
    }
  }

  /** Each per-day slot is free, lasts the duration and lies in business hours of a weekday in the range. */
  lemma {:induction false} PerDaySound(day: int, endDay: int, duration: int, events: seq<seq<Busy>>)
    requires StartOfDay(day) == day
    ensures forall s :: s in PerDay(day, endDay, duration, events) ==>
      && s.end == s.start + duration
      && FreeForAll(s.start, s.end, events)
      && exists d :: day <= d <= endDay && InBusinessDay(s, d)
    decreases endDay - day
  {
    if day <= endDay {
      ShiftDays(day, 1);
      PerDaySound(day + MinutesPerDay, endDay, duration, events);
      if IsWeekday(day) {
        var r := DaySlots(AtHour(day, OpenHour), AtHour(day, CloseHour), duration, events);
        DaySlotsSound(AtHour(day, OpenHour), AtHour(day, CloseHour), duration, events);
        forall s | s in r ensures InBusinessDay(s, day) && s.end == s.start + duration && FreeForAll(s.start, s.end, events) {
          assert DaySlotOk(s, AtHour(day, OpenHour), AtHour(day, CloseHour), duration, events);
        }
      }
    }
  }

  /** The per-day search offers every free half-hour start of business hours on a weekday in the range. */
  lemma {:induction false} PerDayComplete(day: int, endDay: int, d: int, k: nat, duration: int, events: seq<seq<Busy>>)
    requires StartOfDay(day) == day && StartOfDay(d) == d && day <= d <= endDay && IsWeekday(d)
    requires var t := AtHour(d, OpenHour) + k * Step; t + duration <= AtHour(d, CloseHour)
    requires FreeForAll(AtHour(d, OpenHour) + k * Step, AtHour(d, OpenHour) + k * Step + duration, events)
    ensures var t := AtHour(d, OpenHour) + k * Step;
      Slot(t, t + duration) in PerDay(day, endDay, duration, events)
    decreases endDay - day
  {
    var t := AtHour(d, OpenHour) + k * Step;
    if day == d {
      assert (t - AtHour(d, OpenHour)) % Step == 0;
      DaySlotsComplete(AtHour(d, OpenHour), t, AtHour(d, CloseHour), duration, events);
    } else {
      CompareByDay(day, d);
      ShiftDays(day, 1);
      PerDayComplete(day + MinutesPerDay, endDay, d, k, duration, events);
    }
  }

  /**
   * The per-day search yields free slots of the requested duration, on weekdays between 09:00 and
   * 17:00 of a day from `time_min`'s to `time_max`'s. A slot may reach past `time_max` itself:
   * only whole days bound this search.
   */
  lemma PerDaySlotsSound(events: seq<seq<Busy>>, duration: int, timeMin: int, timeMax: int)
    ensures forall s :: s in PerDaySlots(events, duration, timeMin, timeMax) ==>
      && s.end == s.start + duration
      && FreeForAll(s.start, s.end, events)
      && exists d :: StartOfDay(timeMin) <= d <= StartOfDay(timeMax) && InBusinessDay(s, d)
  {
    OnDayOf(timeMin, 0);
    PerDaySound(StartOfDay(timeMin), StartOfDay(timeMax), duration, events);
  }

  /** The per-day search is complete over the half-hour grid of business hours in its day range. */
  lemma PerDaySlotsComplete(events: seq<seq<Busy>>, duration: int, timeMin: int, timeMax: int, d: int, k: nat)
    requires StartOfDay(d) == d && StartOfDay(timeMin) <= d <= StartOfDay(timeMax) && IsWeekday(d)
    requires AtHour(d, OpenHour) + k * Step + duration <= AtHour(d, CloseHour)
    requires FreeForAll(AtHour(d, OpenHour) + k * Step, AtHour(d, OpenHour) + k * Step + duration, events)
    ensures var t := AtHour(d, OpenHour) + k * Step;
      Slot(t, t + duration) in PerDaySlots(events, duration, timeMin, timeMax)
  {
    OnDayOf(timeMin, 0);
    PerDayComplete(StartOfDay(timeMin), StartOfDay(timeMax), d, k, duration, events);
  }
}
