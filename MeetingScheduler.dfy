/**
 * `MeetingScheduler`: the overlap test and datetime parser, the first-fit slot search, the
 * duration and attendee derivation, the response assembly, and `schedule_meeting` itself.
 * Request and event dictionaries are `Json` values; calendar lookups are inputs.
 */
module MeetingScheduler {
  import opened Wrappers
  import opened Time
  import opened Text
  import opened Json
  import Calendar
  import TimeHints

  // ---------------------------------------------------------------------------------------
  // _parse_datetime and _is_time_in_event (meeting_scheduler.py:87-122)
  // ---------------------------------------------------------------------------------------

  /** A parsed datetime: its wall clock in minutes and its UTC offset, `None` when naive. */
  datatype Parsed = Parsed(wall: int, offset: Option<int>)

  /** The instant an offset-aware datetime denotes. */
  function Instant(p: Parsed): int
    requires p.offset.Some?
  {
    p.wall - p.offset.value
  }

  /** `datetime.fromisoformat` and `datetime.strptime(_, '%Y-%m-%d')` (midnight, in minutes), `None` when they raise. */
  datatype Parsers = Parsers(iso: string -> Option<Parsed>, ymd: string -> Option<int>)

  const Utc: Option<int> := Some(0)

  predicate EndsWithZ(s: string) { |s| > 0 && s[|s| - 1] == 'Z' }

  /** The format dispatch of `_parse_datetime` on a string. */
  function ParseText(s: string, P: Parsers): (r: Option<Parsed>)
    ensures (Contains(s, "T") && (Contains(s, "+") || Contains(s, "Z"))) ==>
      r == P.iso(if EndsWithZ(s) then s[..|s| - 1] + "+00:00" else s)
    ensures !Contains(s, "T") ==> r == (if P.ymd(s).Some? then Some(Parsed(P.ymd(s).value, Utc)) else None)
    ensures Contains(s, "T") && !Contains(s, "+") && !Contains(s, "Z") ==>
      r == (if P.iso(s).Some? then Some(Parsed(P.iso(s).value.wall, Utc)) else None)
  {
    if Contains(s, "T") && (Contains(s, "+") || Contains(s, "Z")) then
      P.iso(if EndsWithZ(s) then s[..|s| - 1] + "+00:00" else s)
    else if !Contains(s, "T") then
      match P.ymd(s)
      case Some(d) => Some(Parsed(d, Utc))
      case None => None
    else
      match P.iso(s)
      case Some(p) => Some(Parsed(p.wall, Utc))
      case None => None
  }

  /**
   * `_parse_datetime(v)`. Falsy values and non-strings give `None`. An isoformat text
   * (`JTime`, always a string here, never a datetime object) carries `+` exactly when its
   * offset is non-negative; otherwise it takes the "local datetime" branch and its wall clock
   * is relabelled as UTC.
   */
  function ParseDatetime(v: Json, P: Parsers): (r: Option<Parsed>)
    ensures !Truthy(v) || !(v.JStr? || v.JTime?) ==> r.None?
    ensures v.JStr? && v.s != "" ==> r == ParseText(v.s, P)
    ensures v.JTime? && r.Some? ==> r.value.offset.Some?
    ensures v.JTime? && v.offset.Some? && v.offset.value >= 0 ==> r.Some? && r.value.offset.Some? && Instant(r.value) == v.at
  {
    if !Truthy(v) then None
    else match v
      case JStr(s) => ParseText(s, P)
      case JTime(at, off) =>
        if off.Some? && off.value >= 0 then Some(Parsed(at + off.value, off))
        else Some(Parsed(at + off.GetOr(0), Utc))
      case _ => None
  }

  /** `event.get(key, {}).get('dateTime') or event.get(key, {}).get('date')`; `Err` where `.get` is called on a non-dict. */
  function EndpointValue(event: Json, key: string): Result<Json>
  {
    var o :- Get(event, key, JObj(map[]));
    var a :- Get(o, "dateTime", JNull);
    if Truthy(a) then Ok(a) else Get(o, "date", JNull)
  }

  /** The event's span as instants, when both endpoints are present, parse and are offset-aware. */
  function EventSpan(event: Json, P: Parsers): Option<(int, int)>
  {
    var s := EndpointValue(event, "start");
    var e := EndpointValue(event, "end");
    if s.Err? || e.Err? then None
    else
      var ps := ParseDatetime(s.value, P);
      var pe := ParseDatetime(e.value, P);
      if ps.Some? && pe.Some? && ps.value.offset.Some? && pe.value.offset.Some?
      then Some((Instant(ps.value), Instant(pe.value)))
      else None
  }

  /**
   * `_is_time_in_event(start, end, event)` for an offset-aware `[start, end)`. Comparing with a
   * naive datetime raises; every exception is caught and gives `False`.
   */
  function IsTimeInEvent(start: int, end: int, event: Json, P: Parsers): (r: bool)
    ensures r <==> EventSpan(event, P).Some? && Overlaps(start, end, EventSpan(event, P).value.0, EventSpan(event, P).value.1)
  {
    var s := EndpointValue(event, "start");
    var e := EndpointValue(event, "end");
    if s.Err? || e.Err? then false
    else
      var ps := ParseDatetime(s.value, P);
      var pe := ParseDatetime(e.value, P);
      if ps.None? || pe.None? then false
      else if pe.value.offset.None? then false
      else if !(start < Instant(pe.value)) then false
      else if ps.value.offset.None? then false
      else end > Instant(ps.value)
  }

  /**
   * The events `get_events` returns carry `StartTime`/`EndTime`, not `start`/`end`: for such an
   * event both endpoints are missing and it never blocks a slot.
   */
  lemma CalendarEntryNeverBlocks(start: int, end: int, event: Json, P: Parsers)
    requires Calendar.IsCalendarEntry(event)
    ensures !IsTimeInEvent(start, end, event, P)
  {
    assert "start" !in event.fields;
    assert EndpointValue(event, "start") == Ok(JNull);
  }

  /** An event that blocks a slot has both endpoints as keys. */
  lemma BlockingNeedsEndpoints(start: int, end: int, event: Json, P: Parsers)
    requires IsTimeInEvent(start, end, event, P)
    ensures event.JObj? && "start" in event.fields && "end" in event.fields
  {
  }

  /** The all-day text `_parse_event_datetime` builds takes the offset-aware branch. */
  lemma AllDayTextIsAware(date: string, P: Parsers)
    ensures ParseDatetime(JStr(date + Calendar.AllDaySuffix), P) == P.iso(date + Calendar.AllDaySuffix)
  {
    var s := date + Calendar.AllDaySuffix;
    assert s[|date|..|date| + 1] == "T";
    assert MatchAt(s, "T", |date|);
    assert s[|date| + 9..|date| + 10] == "+";
    assert MatchAt(s, "+", |date| + 9);
    assert !EndsWithZ(s);
  }

  /** A negative-offset isoformat text is misread: its wall clock is taken as UTC, shifting the instant. */
  lemma NegativeOffsetShifted(at: int, offset: int, P: Parsers)
    requires offset < 0
    ensures var r := ParseDatetime(JTime(at, Some(offset)), P);
      r.Some? && Instant(r.value) == at + offset && Instant(r.value) != at
  {
  }

  // ---------------------------------------------------------------------------------------
  // _find_available_slot (meeting_scheduler.py:29-85)
  // ---------------------------------------------------------------------------------------

  /** After 17:00 the first-fit search moves to 10:00 the next day. */
  const RetryHour: int := 10

  /** No event in `events` overlaps `[c, e)`. */
  predicate EventsFree(c: int, e: int, events: seq<Json>, P: Parsers)
  {
    forall i :: 0 <= i < |events| ==> !IsTimeInEvent(c, e, events[i], P)
  }

  /** No attendee's event overlaps `[c, e)`. */
  predicate AttendeesFree(c: int, e: int, attendees: map<Json, seq<Json>>, P: Parsers)
  {
    forall a :: a in attendees ==> EventsFree(c, e, attendees[a], P)
  }

  predicate SlotFree(c: int, e: int, requester: seq<Json>, attendees: map<Json, seq<Json>>, P: Parsers)
  {
    EventsFree(c, e, requester, P) && AttendeesFree(c, e, attendees, P)
  }

  /** The candidate after `c`: 30 minutes on, or 10:00 the next day once the (UTC) hour reaches 17. */
  function NextTry(c: int): (r: int)
    ensures r >= c + Step
    ensures Hour(r) < CloseHour
    ensures Hour(c + Step) < CloseHour ==> r == c + Step
    ensures Hour(c + Step) >= CloseHour ==>
      Day(r) == Day(c + Step) + 1 && MinuteOfDay(r) == RetryHour * MinutesPerHour
  {
    var n := c + Step;
    ShiftDays(n, 1);
    OnDayOf(n + MinutesPerDay, RetryHour * MinutesPerHour);
    if Hour(n) >= CloseHour then AtHour(n + MinutesPerDay, RetryHour) else n
  }

  /** The first candidate from `c` whose meeting fits by `timeMax` and is free for everyone. */
  function FirstFit(c: int, timeMax: int, duration: int, requester: seq<Json>, attendees: map<Json, seq<Json>>, P: Parsers): Option<Slot>
    decreases timeMax - duration - c
  {
    if c + duration > timeMax then None
    else if SlotFree(c, c + duration, requester, attendees, P) then Some(Slot(c, c + duration))
    else FirstFit(NextTry(c), timeMax, duration, requester, attendees, P)
  }

  /** `t` is a candidate the search from `c` reaches while the meeting still fits by `timeMax`. */
  predicate InScan(c: int, t: int, timeMax: int, duration: int)
    decreases timeMax - duration - c
  {
    c + duration <= timeMax && (t == c || InScan(NextTry(c), t, timeMax, duration))
  }

  method AnyBusy(c: int, e: int, events: seq<Json>, P: Parsers) returns (busy: bool)
    ensures busy == !EventsFree(c, e, events, P)
  {
    for i := 0 to |events|
      invariant forall j :: 0 <= j < i ==> !IsTimeInEvent(c, e, events[j], P)
    {
      if IsTimeInEvent(c, e, events[i], P) {
        return true;
      }
    }
    return false;
  }

  method AllAttendeesFree(c: int, e: int, attendees: map<Json, seq<Json>>, P: Parsers) returns (free: bool)
    ensures free == AttendeesFree(c, e, attendees, P)
  {
    var pending := attendees.Keys;
    while pending != {}
      invariant pending <= attendees.Keys
      invariant forall a :: a in attendees && a !in pending ==> EventsFree(c, e, attendees[a], P)
      decreases |pending|
    {
      var a :| a in pending;
      var busy := AnyBusy(c, e, attendees[a], P);
      if busy {
        return false;
      }
      pending := pending - {a};
    }
    return true;
  }

  /** `_find_available_slot`: the window arrives in UTC, so the 17:00 test is on UTC hours. */
  method FindAvailableSlot(requester: seq<Json>, attendees: map<Json, seq<Json>>, timeMin: int, timeMax: int, duration: int, P: Parsers)
    returns (r: Option<Slot>)
    ensures r == FirstFit(timeMin, timeMax, duration, requester, attendees, P)
  {
    var current := timeMin;
    while current + duration <= timeMax
      invariant FirstFit(current, timeMax, duration, requester, attendees, P) == FirstFit(timeMin, timeMax, duration, requester, attendees, P)
      decreases timeMax - duration - current
    {
      var slotEnd := current + duration;
      var requesterBusy := AnyBusy(current, slotEnd, requester, P);
      var allFree := AllAttendeesFree(current, slotEnd, attendees, P);
      if !requesterBusy && allFree {
        return Some(Slot(current, slotEnd));
      }
      assert !SlotFree(current, slotEnd, requester, attendees, P);
      assert FirstFit(current, timeMax, duration, requester, attendees, P)
        == FirstFit(NextTry(current), timeMax, duration, requester, attendees, P);
      current := Advance(current);
    }
    return None;
  }

  /** The step at the end of each try: 30 minutes on, then 10:00 the next day once it is 17:00 or later. */
  method Advance(c: int) returns (next: int)
    ensures next == NextTry(c)
  {
    next := c + Step;
    if Hour(next) >= CloseHour {
      next := AtHour(next + MinutesPerDay, RetryHour);
    }
  }

  /**
   * The first fit is a reachable candidate, lasts the duration, ends by `time_max`, is free for
   * the requester and every attendee, and every earlier candidate is busy.
   */
  lemma {:induction false} FirstFitSound(c: int, timeMax: int, duration: int, requester: seq<Json>, attendees: map<Json, seq<Json>>, P: Parsers)
    requires FirstFit(c, timeMax, duration, requester, attendees, P).Some?
    ensures var s := FirstFit(c, timeMax, duration, requester, attendees, P).value;
      && InScan(c, s.start, timeMax, duration)
      && s.end == s.start + duration && s.end <= timeMax
      && SlotFree(s.start, s.end, requester, attendees, P)
      && forall t :: InScan(c, t, timeMax, duration) && t < s.start ==> !SlotFree(t, t + duration, requester, attendees, P)
    decreases timeMax - duration - c
  {
    if !SlotFree(c, c + duration, requester, attendees, P) {
      FirstFitSound(NextTry(c), timeMax, duration, requester, attendees, P);
      var s := FirstFit(c, timeMax, duration, requester, attendees, P).value;
      forall t | InScan(c, t, timeMax, duration) && t < s.start
        ensures !SlotFree(t, t + duration, requester, attendees, P)
      {
        if t != c {
          InScanBounds(NextTry(c), t, timeMax, duration);
        }
      }
    } else {
      forall t | InScan(c, t, timeMax, duration) ensures c <= t {
        InScanBounds(c, t, timeMax, duration);
      }
    }
  }

  /** The search gives `None` only when no candidate it reaches is free. */
  lemma {:induction false} FirstFitNone(c: int, timeMax: int, duration: int, requester: seq<Json>, attendees: map<Json, seq<Json>>, P: Parsers)
    requires FirstFit(c, timeMax, duration, requester, attendees, P).None?
    ensures forall t :: InScan(c, t, timeMax, duration) ==> !SlotFree(t, t + duration, requester, attendees, P)
    decreases timeMax - duration - c
  {
    if c + duration <= timeMax {
      FirstFitNone(NextTry(c), timeMax, duration, requester, attendees, P);
    }
  }

  /** Candidates lie in `[c, time_max - duration]`; after the first, their UTC hour is below 17. */
  lemma {:induction false} InScanBounds(c: int, t: int, timeMax: int, duration: int)
    requires InScan(c, t, timeMax, duration)
    ensures c <= t && t + duration <= timeMax
    ensures t != c ==> Hour(t) < CloseHour
    decreases timeMax - duration - c
  {
    if t != c {
      InScanBounds(NextTry(c), t, timeMax, duration);
    }
  }

  /**
   * With events shaped as `get_events` returns them, every candidate is free: the search takes
   * the window's first minute whenever the meeting fits at all.
   */
  lemma FirstFitIgnoresCalendarEntries(c: int, timeMax: int, duration: int, requester: seq<Json>, attendees: map<Json, seq<Json>>, P: Parsers)
    requires forall i :: 0 <= i < |requester| ==> Calendar.IsCalendarEntry(requester[i])
    requires forall a, i :: a in attendees && 0 <= i < |attendees[a]| ==> Calendar.IsCalendarEntry(attendees[a][i])
    requires c + duration <= timeMax
    ensures FirstFit(c, timeMax, duration, requester, attendees, P) == Some(Slot(c, c + duration))
  {
    forall i | 0 <= i < |requester| ensures !IsTimeInEvent(c, c + duration, requester[i], P) {
      CalendarEntryNeverBlocks(c, c + duration, requester[i], P);
    }
    forall a, i | a in attendees && 0 <= i < |attendees[a]| ensures !IsTimeInEvent(c, c + duration, attendees[a][i], P) {
      CalendarEntryNeverBlocks(c, c + duration, attendees[a][i], P);
    }
  }

  // ---------------------------------------------------------------------------------------
  // Duration and attendees in schedule_meeting (meeting_scheduler.py:139-152)
  // ---------------------------------------------------------------------------------------

  /** The meeting length read from the e-mail text. */
  function DurationFromContent(content: string): (d: int)
    ensures var low := Lower(content);
      && (d == 60 <==> !Contains(low, "30 minutes") && (Contains(low, "1 hour") || Contains(low, "60 minutes")))
      && (d == 30 <==> !(d == 60))
  {
    var low := Lower(content);
    if Contains(low, "30 minutes") then 30
    else if Contains(low, "1 hour") || Contains(low, "60 minutes") then 60
    else 30
  }

  /** `[a["email"] for a in xs]`. */
  function EmailsOf(xs: seq<Json>): (r: Result<seq<Json>>)
    ensures r.Ok? <==> forall i :: 0 <= i < |xs| ==> xs[i].JObj? && "email" in xs[i].fields
    ensures r.Ok? ==> |r.value| == |xs| && forall i :: 0 <= i < |xs| ==> r.value[i] == xs[i].fields["email"]
  {
    if forall i :: 0 <= i < |xs| ==> xs[i].JObj? && "email" in xs[i].fields
    then Ok(seq(|xs|, i requires 0 <= i < |xs| => xs[i].fields["email"]))
    else Err("'email'")
  }

  /**
   * `[a["email"] for a in v]`: a list of dicts with an `email` key each. Iterating an empty string
   * or dict yields nothing; anything else raises.
   */
  function AttendeeEmails(v: Json): (r: Result<seq<Json>>)
    ensures v.JList? ==> r == EmailsOf(v.items)
    ensures r.Ok? ==> v.JList? || v == JStr("") || v == JObj(map[])
  {
    match v
    case JList(xs) => EmailsOf(xs)
    case JStr(s) => if s == "" then Ok([]) else Err("string indices must be integers")
    case JObj(m) => if m == map[] then Ok([]) else Err("string indices must be integers")
    case _ => Err("object is not iterable")
  }

  /** The sender joins the attendees when truthy and absent. */
  function AddSender(attendees: seq<Json>, sender: Json): (r: seq<Json>)
    ensures |attendees| <= |r| <= |attendees| + 1 && r[..|attendees|] == attendees
    ensures |r| == |attendees| + 1 <==> Truthy(sender) && sender !in attendees
    ensures |r| == |attendees| + 1 ==> r[|attendees|] == sender
    ensures Truthy(sender) ==> sender in r
  {
    if Truthy(sender) && sender !in attendees then attendees + [sender] else attendees
  }

  lemma AddSenderIdempotent(attendees: seq<Json>, sender: Json)
    ensures AddSender(AddSender(attendees, sender), sender) == AddSender(attendees, sender)
  {
  }

  // ---------------------------------------------------------------------------------------
  // _create_response (meeting_scheduler.py:383-488)
  // ---------------------------------------------------------------------------------------

  /** A calendar lookup: the attendee has no service, it gave these events, or it raised. */
  datatype Lookup = NoService | Fetched(events: seq<Json>) | Raised

  /** The events a lookup contributes; nothing when it raised. */
  function EventsOf(l: Lookup): seq<Json>
  {
    if l.Fetched? then l.events else []
  }

  /** A selected slot as `_create_response` receives it: `start_time` and `end_time`. */
  datatype Picked = Picked(start: Json, end: Json)

  /** An attendee's events in the response: the lookup's, then the new event when there is a slot. */
  function EntryEvents(l: Lookup, scheduled: Json, hasSlot: bool): seq<Json>
  {
    EventsOf(l) + if hasSlot then [scheduled] else []
  }

  /** One entry of the response's `Attendees`. */
  function Entry(email: Json, events: seq<Json>): Json
  {
    JObj(map["email" := email, "events" := JList(events)])
  }

  function AttendeeEntry(email: Json, l: Lookup, scheduled: Json, hasSlot: bool): Json
  {
    Entry(email, EntryEvents(l, scheduled, hasSlot))
  }

  function AttendeeData(attendees: seq<Json>, lookup: Json -> Lookup, scheduled: Json, hasSlot: bool): (r: seq<Json>)
    ensures |r| == |attendees|
    ensures forall i :: 0 <= i < |attendees| ==> r[i] == AttendeeEntry(attendees[i], lookup(attendees[i]), scheduled, hasSlot)
  {
    seq(|attendees|, i requires 0 <= i < |attendees| => AttendeeEntry(attendees[i], lookup(attendees[i]), scheduled, hasSlot))
  }

  function Field(request: map<string, Json>, key: string, default: Json): Json
  {
    if key in request then request[key] else default
  }

  /** The event added to each attendee's list. */
  function ScheduledEvent(request: map<string, Json>, selected: Option<Picked>, attendees: seq<Json>): Json
  {
    Calendar.CalendarEntry(
      if selected.Some? then selected.value.start else JStr(""),
      if selected.Some? then selected.value.end else JStr(""),
      |attendees|, attendees, Field(request, "Subject", JStr("Meeting")))
  }

  /** The keys `_create_response` sets on the copied request. */
  const ResponseKeys: set<string> := {"Attendees", "EventStart", "EventEnd", "Duration_mins", "MetaData"}

  /** What `_create_response` returns; `message` is never used. */
  function ResponseFor(request: map<string, Json>, selected: Option<Picked>, attendees: seq<Json>, duration: nat, lookup: Json -> Lookup): map<string, Json>
  {
    var scheduled := ScheduledEvent(request, selected, attendees);
    var data := AttendeeData(attendees, lookup, scheduled, selected.Some?);
    var requester := Field(request, "From", JNull);
    var all := if Truthy(requester) && requester !in attendees
      then data + [AttendeeEntry(requester, lookup(requester), scheduled, selected.Some?)]
      else data;
    request["Attendees" := JList(all)]
      ["EventStart" := scheduled.fields["StartTime"]]
      ["EventEnd" := scheduled.fields["EndTime"]]
      ["Duration_mins" := JStr(IntText(duration))]
      ["MetaData" := JObj(map[])]
  }

  /** The loop over the attendees in `_create_response`. */
  method BuildAttendeeData(attendees: seq<Json>, lookup: Json -> Lookup, scheduled: Json, hasSlot: bool) returns (data: seq<Json>)
    ensures data == AttendeeData(attendees, lookup, scheduled, hasSlot)
  {
    data := [];
    for i := 0 to |attendees|
      invariant |data| == i
      invariant forall j :: 0 <= j < i ==> data[j] == AttendeeEntry(attendees[j], lookup(attendees[j]), scheduled, hasSlot)
    {
      var events := EventsOf(lookup(attendees[i]));
      if hasSlot {
        events := events + [scheduled];
      }
      assert events == EntryEvents(lookup(attendees[i]), scheduled, hasSlot);
      data := data + [Entry(attendees[i], events)];
    }
  }

  /** `_create_response(request_data, selected_slot, attendees, duration_mins, message)`. */
  method CreateResponse(request: map<string, Json>, selected: Option<Picked>, attendees: seq<Json>, duration: nat, lookup: Json -> Lookup)
    returns (response: map<string, Json>)
    ensures response == ResponseFor(request, selected, attendees, duration, lookup)
  {
    response := request;
    var scheduled := ScheduledEvent(request, selected, attendees);
    var eventStart := scheduled.fields["StartTime"];
    var eventEnd := scheduled.fields["EndTime"];
    var data := BuildAttendeeData(attendees, lookup, scheduled, selected.Some?);
    var requester := Field(request, "From", JNull);
    if Truthy(requester) && requester !in attendees {
      var events := EventsOf(lookup(requester));
      if selected.Some? {
        events := events + [scheduled];
      }
      assert events == EntryEvents(lookup(requester), scheduled, selected.Some?);
      data := data + [Entry(requester, events)];
    }
    response := response["Attendees" := JList(data)];
    response := response["EventStart" := eventStart]["EventEnd" := eventEnd]["Duration_mins" := JStr(IntText(duration))];
    response := response["MetaData" := JObj(map[])];
  }

  /**
   * The response keeps every other request key; its event fields are `""` exactly when no slot
   * was picked; `Duration_mins` is `str(duration)` and `MetaData` is `{}`.
   */
  lemma ResponseFields(request: map<string, Json>, selected: Option<Picked>, attendees: seq<Json>, duration: nat, lookup: Json -> Lookup)
    ensures var r := ResponseFor(request, selected, attendees, duration, lookup);
      && r.Keys == request.Keys + ResponseKeys
      && (forall k :: k in request && k !in ResponseKeys ==> r[k] == request[k])
      && (selected.None? ==> r["EventStart"] == JStr("") && r["EventEnd"] == JStr(""))
      && (selected.Some? ==> r["EventStart"] == selected.value.start && r["EventEnd"] == selected.value.end)
      && r["Duration_mins"] == JStr(IntText(duration))
      && r["MetaData"] == JObj(map[])
  {
  }

  /**
   * One entry per attendee, in order, then the requester when truthy and not an attendee. Each
   * entry's events are its lookup's events followed by the new event exactly when a slot was
   * picked, also when the lookup raised.
   */
  lemma ResponseAttendees(request: map<string, Json>, selected: Option<Picked>, attendees: seq<Json>, duration: nat, lookup: Json -> Lookup)
    ensures var r := ResponseFor(request, selected, attendees, duration, lookup);
      var scheduled := ScheduledEvent(request, selected, attendees);
      var requester := Field(request, "From", JNull);
      var extra := Truthy(requester) && requester !in attendees;
      && r["Attendees"].JList?
      && |r["Attendees"].items| == |attendees| + (if extra then 1 else 0)
      && (forall i :: 0 <= i < |r["Attendees"].items| ==>
            var entry := r["Attendees"].items[i];
            var email := if i < |attendees| then attendees[i] else requester;
            && entry.JObj? && entry.fields["email"] == email
            && entry.fields["events"].JList?
            && (var evs := entry.fields["events"].items;
                && (selected.Some? ==> |evs| >= 1 && evs[|evs| - 1] == scheduled && evs[..|evs| - 1] == EventsOf(lookup(email)))
                && (selected.None? ==> evs == EventsOf(lookup(email)))))
  {
    var scheduled := ScheduledEvent(request, selected, attendees);
    var r := ResponseFor(request, selected, attendees, duration, lookup);
    var items := r["Attendees"].items;
    forall i | 0 <= i < |items|
      ensures var email := if i < |attendees| then attendees[i] else Field(request, "From", JNull);
        var evs := items[i].fields["events"].items;
        selected.Some? ==> evs[..|evs| - 1] == EventsOf(lookup(email))
    {
      var email := if i < |attendees| then attendees[i] else Field(request, "From", JNull);
      var evs := items[i].fields["events"].items;
      if selected.Some? {
        assert evs == EventsOf(lookup(email)) + [scheduled];
      }
    }
  }

  /** The new event itself never blocks a later search: it is shaped like a `get_events` entry. */
  lemma ScheduledEventNeverBlocks(request: map<string, Json>, selected: Option<Picked>, attendees: seq<Json>, start: int, end: int, P: Parsers)
    ensures !IsTimeInEvent(start, end, ScheduledEvent(request, selected, attendees), P)
  {
    CalendarEntryNeverBlocks(start, end, ScheduledEvent(request, selected, attendees), P);
  }

  // ---------------------------------------------------------------------------------------
  // schedule_meeting (meeting_scheduler.py:124-288)
  // ---------------------------------------------------------------------------------------

  /** A slot instant as `start_ist.isoformat()` renders it. */
  function IstText(t: int): Json { JTime(t, Some(IstOffset)) }

  /** `time_constraints`: the `TimeConstraints` field, or the e-mail text when that is falsy. */
  function HintOf(request: map<string, Json>): Json
  {
    var hint := Field(request, "TimeConstraints", JStr(""));
    if !Truthy(hint) && "EmailContent" in request then request["EmailContent"] else hint
  }

  /** The events fetched for every attendee but the sender; a failed lookup counts as none. */
  function OthersEvents(attendees: seq<Json>, sender: Json, busy: Json -> Lookup): map<Json, seq<Json>>
  {
    map a | a in attendees && a != sender :: EventsOf(busy(a))
  }

  /** A list or a dict cannot be a dict key: `attendee_events[a] = …` raises `TypeError`. */
  predicate Unhashable(j: Json)
  {
    j.JList? || j.JObj?
  }

  /** Some attendee the loop does not skip as the sender cannot be a key of `attendee_events`. */
  predicate SomeUnhashable(attendees: seq<Json>, sender: Json)
  {
    exists i :: 0 <= i < |attendees| && attendees[i] != sender && Unhashable(attendees[i])
  }

  /** The message of the `TypeError` an unhashable key raises. */
  function UnhashableMessage(j: Json): string
  {
    if j.JList? then "unhashable type: 'list'" else "unhashable type: 'dict'"
  }

  /** The attendees `schedule_meeting` works with: the listed emails, the sender added. */
  function Participants(request: map<string, Json>): seq<Json>
    requires AttendeeEmails(Field(request, "Attendees", JList([]))).Ok?
  {
    AddSender(AttendeeEmails(Field(request, "Attendees", JList([]))).value, Field(request, "From", JNull))
  }

  /**
   * What `schedule_meeting(request_data)` returns at instant `now`. `busy` answers the lookups over
   * the parsed window, `lookup` those `_create_response` makes. Any exception returns the request.
   */
  function ScheduleOutcome(request: map<string, Json>, now: int, P: Parsers, busy: Json -> Lookup, lookup: Json -> Lookup): Json
  {
    var content := Field(request, "EmailContent", JStr(""));
    if !content.JStr? then JObj(request)
    else
      var duration := DurationFromContent(content.s);
      var emails := AttendeeEmails(Field(request, "Attendees", JList([])));
      if emails.Err? then JObj(request)
      else
        var sender := Field(request, "From", JNull);
        var attendees := AddSender(emails.value, sender);
        var window := TimeHints.ParseTimeConstraints(HintOf(request), now);
        if window.Err? then JObj(request)
        else if SomeUnhashable(attendees, sender) then JObj(request)
        else
          var slot := FirstFit(window.value.timeMin, window.value.timeMax, duration,
            EventsOf(busy(sender)), OthersEvents(attendees, sender, busy), P);
          JObj(ResponseFor(request, Selected(slot), attendees, duration, lookup))
  }

  /**
   * The loop over the attendees that fetches everyone's events but the sender's. Storing under an
   * unhashable attendee raises, and so does the handler's own `attendee_events[attendee] = []`.
   */
  method CollectOthers(attendees: seq<Json>, sender: Json, busy: Json -> Lookup) returns (others: Result<map<Json, seq<Json>>>)
    ensures others.Ok? <==> !SomeUnhashable(attendees, sender)
    ensures others.Ok? ==> others.value == OthersEvents(attendees, sender, busy)
    ensures others.Err? ==>
      exists i :: 0 <= i < |attendees| && attendees[i] != sender && Unhashable(attendees[i])
        && others.msg == UnhashableMessage(attendees[i])
        && forall j :: 0 <= j < i ==> attendees[j] == sender || !Unhashable(attendees[j])
  {
    var acc := map[];
    for i := 0 to |attendees|
      invariant acc == map a | a in attendees[..i] && a != sender :: EventsOf(busy(a))
      invariant forall j :: 0 <= j < i ==> attendees[j] == sender || !Unhashable(attendees[j])
    {
      assert attendees[..i + 1] == attendees[..i] + [attendees[i]];
      if attendees[i] == sender {
        continue;
      }
      if Unhashable(attendees[i]) {
        return Err(UnhashableMessage(attendees[i]));
      }
      acc := acc[attendees[i] := EventsOf(busy(attendees[i]))];
    }
    assert attendees[..|attendees|] == attendees;
    return Ok(acc);
  }

  /** The slot `schedule_meeting` passes on, shown in IST. */
  function Selected(slot: Option<Slot>): Option<Picked>
  {
    if slot.Some? then Some(Picked(IstText(slot.value.start), IstText(slot.value.end))) else None
  }

  /** Past the error paths, the outcome is the response for the first-fit slot. */
  lemma OutcomeOnSuccess(request: map<string, Json>, now: int, P: Parsers, busy: Json -> Lookup, lookup: Json -> Lookup)
    requires Field(request, "EmailContent", JStr("")).JStr?
    requires AttendeeEmails(Field(request, "Attendees", JList([]))).Ok?
    requires HintOf(request).JStr?
    requires !SomeUnhashable(Participants(request), Field(request, "From", JNull))
    ensures var duration := DurationFromContent(Field(request, "EmailContent", JStr("")).s);
      var w := TimeHints.ParseTimeConstraints(HintOf(request), now).value;
      var sender := Field(request, "From", JNull);
      var attendees := AddSender(AttendeeEmails(Field(request, "Attendees", JList([]))).value, sender);
      var slot := FirstFit(w.timeMin, w.timeMax, duration, EventsOf(busy(sender)), OthersEvents(attendees, sender, busy), P);
      ScheduleOutcome(request, now, P, busy, lookup) == JObj(ResponseFor(request, Selected(slot), attendees, duration, lookup))
  {
  }

  /** `schedule_meeting`; the handler at line 181 is read as `except Exception`. */
  method ScheduleMeeting(request: map<string, Json>, now: int, P: Parsers, busy: Json -> Lookup, lookup: Json -> Lookup)
    returns (response: Json)
    ensures response == ScheduleOutcome(request, now, P, busy, lookup)
  {
    var content := Field(request, "EmailContent", JStr(""));
    if !content.JStr? {
      return JObj(request);
    }
    var duration := DurationFromContent(content.s);
    var emails := AttendeeEmails(Field(request, "Attendees", JList([])));
    if emails.Err? {
      return JObj(request);
    }
    var attendees := emails.value;
    var sender := Field(request, "From", JNull);
    if Truthy(sender) && sender !in attendees {
      attendees := attendees + [sender];
    }
    var window := TimeHints.ParseTimeConstraints(HintOf(request), now);
    if window.Err? {
      return JObj(request);
    }
    assert attendees == AddSender(emails.value, sender);
    var requesterEvents := EventsOf(busy(sender));
    var others := CollectOthers(attendees, sender, busy);
    if others.Err? {
      return JObj(request);
    }
    var slot := FindAvailableSlot(requesterEvents, others.value, window.value.timeMin, window.value.timeMax, duration, P);
    var r := CreateResponse(request, Selected(slot), attendees, duration, lookup);
    return JObj(r);
  }

  /**
   * The request is returned unchanged when the text is not a string, the attendees are malformed,
   * the hint is not a string, or an attendee other than the sender is a list or a dict.
   */
  lemma ScheduleErrorPaths(request: map<string, Json>, now: int, P: Parsers, busy: Json -> Lookup, lookup: Json -> Lookup)
    requires || !Field(request, "EmailContent", JStr("")).JStr?
             || AttendeeEmails(Field(request, "Attendees", JList([]))).Err?
             || !HintOf(request).JStr?
             || (AttendeeEmails(Field(request, "Attendees", JList([]))).Ok?
                 && SomeUnhashable(Participants(request), Field(request, "From", JNull)))
    ensures ScheduleOutcome(request, now, P, busy, lookup) == JObj(request)
  {
  }

  /** An attendee whose email is a list: `schedule_meeting` hands the request back unchanged. */
  lemma ListEmailReturnsRequest(now: int, P: Parsers, busy: Json -> Lookup, lookup: Json -> Lookup)
    ensures var request := map["Attendees" := JList([JObj(map["email" := JList([JStr("b@x")])])]),
                               "From" := JStr("a@x"), "EmailContent" := JStr("meet")];
      ScheduleOutcome(request, now, P, busy, lookup) == JObj(request)
  {
    var request := map["Attendees" := JList([JObj(map["email" := JList([JStr("b@x")])])]),
                       "From" := JStr("a@x"), "EmailContent" := JStr("meet")];
    var attendees := Participants(request);
    assert attendees[0] == JList([JStr("b@x")]);
    ScheduleErrorPaths(request, now, P, busy, lookup);
  }

  /** A found slot lasts the duration. */
  lemma FirstFitEnd(c: int, timeMax: int, duration: int, requester: seq<Json>, attendees: map<Json, seq<Json>>, P: Parsers)
    ensures var s := FirstFit(c, timeMax, duration, requester, attendees, P);
      s.Some? ==> s.value.end == s.value.start + duration
  {
    if FirstFit(c, timeMax, duration, requester, attendees, P).Some? {
      FirstFitSound(c, timeMax, duration, requester, attendees, P);
    }
  }

  /**
   * Otherwise the response carries the derived duration and an event exactly when the first-fit
   * search over the parsed window finds a slot, shown in IST.
   */
  lemma ScheduleResponse(request: map<string, Json>, now: int, P: Parsers, busy: Json -> Lookup, lookup: Json -> Lookup)
    requires Field(request, "EmailContent", JStr("")).JStr?
    requires AttendeeEmails(Field(request, "Attendees", JList([]))).Ok?
    requires HintOf(request).JStr?
    requires !SomeUnhashable(Participants(request), Field(request, "From", JNull))
    ensures var r := ScheduleOutcome(request, now, P, busy, lookup);
      var duration := DurationFromContent(Field(request, "EmailContent", JStr("")).s);
      var w := TimeHints.ParseTimeConstraints(HintOf(request), now).value;
      var sender := Field(request, "From", JNull);
      var attendees := AddSender(AttendeeEmails(Field(request, "Attendees", JList([]))).value, sender);
      var slot := FirstFit(w.timeMin, w.timeMax, duration, EventsOf(busy(sender)), OthersEvents(attendees, sender, busy), P);
      && r.JObj? && r.fields.Keys == request.Keys + ResponseKeys
      && r.fields["Duration_mins"] == JStr(IntText(duration))
      && (r.fields["EventStart"] == JStr("") <==> slot.None?)
      && (slot.Some? ==> r.fields["EventStart"] == IstText(slot.value.start) && r.fields["EventEnd"] == IstText(slot.value.start + duration))
  {
    var duration := DurationFromContent(Field(request, "EmailContent", JStr("")).s);
    var w := TimeHints.ParseTimeConstraints(HintOf(request), now).value;
    var sender := Field(request, "From", JNull);
    var attendees := AddSender(AttendeeEmails(Field(request, "Attendees", JList([]))).value, sender);
    var slot := FirstFit(w.timeMin, w.timeMax, duration, EventsOf(busy(sender)), OthersEvents(attendees, sender, busy), P);
    OutcomeOnSuccess(request, now, P, busy, lookup);
    FirstFitEnd(w.timeMin, w.timeMax, duration, EventsOf(busy(sender)), OthersEvents(attendees, sender, busy), P);
    SelectedResponse(request, slot, attendees, duration, lookup);
  }

  /** The response fields for a slot the search found, or for none. */
  lemma SelectedResponse(request: map<string, Json>, slot: Option<Slot>, attendees: seq<Json>, duration: nat, lookup: Json -> Lookup)
    requires slot.Some? ==> slot.value.end == slot.value.start + duration
    ensures var r := ResponseFor(request, Selected(slot), attendees, duration, lookup);
      && r.Keys == request.Keys + ResponseKeys
      && r["Duration_mins"] == JStr(IntText(duration))
      && (r["EventStart"] == JStr("") <==> slot.None?)
      && (slot.Some? ==> r["EventStart"] == IstText(slot.value.start) && r["EventEnd"] == IstText(slot.value.start + duration))
  {
    ResponseFields(request, Selected(slot), attendees, duration, lookup);
  }

  /**
   * With the events `get_events` produces, nothing blocks: the meeting is booked at the very start
   * of the parsed window whenever it fits there.
   */
  lemma ScheduleWithCalendarEntries(request: map<string, Json>, now: int, P: Parsers, busy: Json -> Lookup, lookup: Json -> Lookup)
    requires Field(request, "EmailContent", JStr("")).JStr?
    requires AttendeeEmails(Field(request, "Attendees", JList([]))).Ok?
    requires HintOf(request).JStr?
    requires !SomeUnhashable(Participants(request), Field(request, "From", JNull))
    requires forall a, i :: 0 <= i < |EventsOf(busy(a))| ==> Calendar.IsCalendarEntry(EventsOf(busy(a))[i])
    requires var w := TimeHints.ParseTimeConstraints(HintOf(request), now).value;
      w.timeMin + DurationFromContent(Field(request, "EmailContent", JStr("")).s) <= w.timeMax
    ensures var w := TimeHints.ParseTimeConstraints(HintOf(request), now).value;
      ScheduleOutcome(request, now, P, busy, lookup).fields["EventStart"] == IstText(w.timeMin)
  {
    var duration := DurationFromContent(Field(request, "EmailContent", JStr("")).s);
    var w := TimeHints.ParseTimeConstraints(HintOf(request), now).value;
    var sender := Field(request, "From", JNull);
    var attendees := AddSender(AttendeeEmails(Field(request, "Attendees", JList([]))).value, sender);
    var others := OthersEvents(attendees, sender, busy);
    FirstFitIgnoresCalendarEntries(w.timeMin, w.timeMax, duration, EventsOf(busy(sender)), others, P);
    ScheduleResponse(request, now, P, busy, lookup);
  }

  /**
   * A "this week" request made at or after 17:00 IST on a day other than Friday gets an inverted
   * window, so nothing is booked: the response's event times are empty.
   */
  lemma ThisWeekEveningBooksNothing(request: map<string, Json>, now: int, P: Parsers, busy: Json -> Lookup, lookup: Json -> Lookup)
    requires Field(request, "EmailContent", JStr("")).JStr?
    requires AttendeeEmails(Field(request, "Attendees", JList([]))).Ok?
    requires HintOf(request).JStr? && TimeHints.SelectRule(HintOf(request).s) == TimeHints.ThisWeek
    requires !SomeUnhashable(Participants(request), Field(request, "From", JNull))
    requires Hour(now + IstOffset) >= CloseHour && Weekday(now + IstOffset) != TimeHints.Friday
    ensures var r := ScheduleOutcome(request, now, P, busy, lookup);
      r.fields["EventStart"] == JStr("") && r.fields["EventEnd"] == JStr("")
  {
    var duration := DurationFromContent(Field(request, "EmailContent", JStr("")).s);
    var w := TimeHints.ParseTimeConstraints(HintOf(request), now).value;
    var sender := Field(request, "From", JNull);
    var attendees := AddSender(AttendeeEmails(Field(request, "Attendees", JList([]))).value, sender);
    TimeHints.ParsedWindowAhead(HintOf(request), now);
    assert FirstFit(w.timeMin, w.timeMax, duration, EventsOf(busy(sender)), OthersEvents(attendees, sender, busy), P).None?;
    OutcomeOnSuccess(request, now, P, busy, lookup);
    ResponseFields(request, None, attendees, duration, lookup);
  }
}
