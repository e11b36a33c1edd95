/**
 * The calendar manager apart from its two slot searches: the window normalisation of
 * `get_events`, the lazily filled per-user session registry, the conversion helpers of
 * `create_event`, and `create_event` itself with the calendar API call as an input.
 */
module Calendar {
  import opened Wrappers
  import opened Time
  import opened Json

  /** `timedelta(days=7)` */
  const WeekMinutes: int := 7 * MinutesPerDay

  /**
   * The window `get_events` queries: a missing start is `now`, a missing end is
   * `now` + 7 days, and an end not after the start becomes the start + 1 hour.
   */
  function NormalizeWindow(timeMin: Option<int>, timeMax: Option<int>, now: int): (w: Window)
    ensures w.timeMin < w.timeMax
    ensures w.timeMin == (if timeMin.Some? then timeMin.value else now)
    ensures timeMax.Some? && timeMax.value > w.timeMin ==> w.timeMax == timeMax.value
    ensures timeMax.None? && now + WeekMinutes > w.timeMin ==> w.timeMax == now + WeekMinutes
    ensures w.timeMax == w.timeMin + MinutesPerHour || w.timeMax == timeMax.GetOr(now + WeekMinutes)
  {
    var lo := timeMin.GetOr(now);
    var hi := timeMax.GetOr(now + WeekMinutes);
    if hi <= lo then Window(lo, lo + MinutesPerHour) else Window(lo, hi)
  }

  /** Normalising an already normalised window changes nothing, whatever the clock says. */
  lemma NormalizeIdempotent(timeMin: Option<int>, timeMax: Option<int>, now: int, later: int)
    ensures var w := NormalizeWindow(timeMin, timeMax, now);
      NormalizeWindow(Some(w.timeMin), Some(w.timeMax), later) == w
  {
  }

  /** The flat event shape `get_events` and `create_event` produce. */
  function CalendarEntry(startTime: Json, endTime: Json, numAttendees: int, attendees: seq<Json>, summary: Json): (j: Json)
    ensures IsCalendarEntry(j)
  {
    JObj(map["StartTime" := startTime, "EndTime" := endTime, "NumAttendees" := JInt(numAttendees),
             "Attendees" := JList(attendees), "Summary" := summary])
  }

  predicate IsCalendarEntry(j: Json)
  {
    j.JObj? && j.fields.Keys == {"StartTime", "EndTime", "NumAttendees", "Attendees", "Summary"}
  }

  /** `_parse_event_datetime`: the text of an API start or end. */
  function ParseEventDatetime(d: map<string, string>, now: int): (r: Json)
    ensures "dateTime" in d ==> r == JStr(d["dateTime"])
    ensures "dateTime" !in d && "date" in d ==> r == JStr(d["date"] + AllDaySuffix)
    ensures "dateTime" !in d && "date" !in d ==> r == JTime(now, None)
  {
    if "dateTime" in d then JStr(d["dateTime"])
    else if "date" in d then JStr(d["date"] + AllDaySuffix)
    else JTime(now, None)
  }

  /** An all-day event starts at midnight UTC. */
  const AllDaySuffix: string := "T00:00:00+00:00"

  const SelfAttendee: string := "SELF"
  const UnknownAttendee: string := "unknown"

  function EmailOr(a: map<string, string>): string
  {
    if "email" in a then a["email"] else UnknownAttendee
  }

  /** `_parse_attendees`: no attendees means only the owner; otherwise one email per attendee, in order. */
  function ParseAttendees(attendees: seq<map<string, string>>): (r: seq<string>)
    ensures attendees == [] ==> r == ["SELF"]
    ensures attendees != [] ==> |r| == |attendees|
    ensures attendees != [] ==> forall i :: 0 <= i < |attendees| ==>
      ("email" in attendees[i] ==> r[i] == attendees[i]["email"]) &&
      ("email" !in attendees[i] ==> r[i] == "unknown")
  {
    if attendees == [] then [SelfAttendee]
    else seq(|attendees|, i requires 0 <= i < |attendees| => EmailOr(attendees[i]))
  }

  /** The event body `create_event` is given. */
  datatype EventDraft = EventDraft(
    summary: string,
    description: string,
    start: Json,
    end: Json,
    timeZone: string,
    attendees: seq<string>,
    location: string)

  /** The event the calendar API answers an insert with. */
  datatype ApiEvent = ApiEvent(
    summary: Option<string>,
    start: map<string, string>,
    end: map<string, string>,
    attendees: seq<map<string, string>>)

  function AtLeastOne(n: int): int { if n == 0 then 1 else n }

  /** The entry echoed from the draft when no session exists or the insert raised. */
  function EntryFromDraft(draft: EventDraft): Json
  {
    CalendarEntry(draft.start, draft.end, AtLeastOne(|draft.attendees|), Strings(draft.attendees), JStr(draft.summary))
  }

  /**
   * The live `create_event`. `inserted` is the API's answer to the insert, `None` when it raised.
   * It never fails: without a session, or when the insert raises, it echoes the draft.
   */
  function CreateEvent(user: string, draft: EventDraft, services: set<string>, inserted: Option<ApiEvent>, now: int): (r: Json)
    ensures IsCalendarEntry(r) && r.fields["NumAttendees"].JInt? && r.fields["NumAttendees"].i >= 1
    ensures user !in services || inserted.None? ==>
      && r.fields["StartTime"] == draft.start && r.fields["EndTime"] == draft.end && r.fields["Summary"] == JStr(draft.summary)
      && r.fields["Attendees"] == JList(Strings(draft.attendees))
      && r.fields["NumAttendees"] == JInt(if draft.attendees == [] then 1 else |draft.attendees|)
    ensures user in services && inserted.Some? ==>
      var ev := inserted.value;
      && r.fields["StartTime"] == ParseEventDatetime(ev.start, now) && r.fields["EndTime"] == ParseEventDatetime(ev.end, now)
      && r.fields["Summary"] == JStr(if ev.summary.Some? then ev.summary.value else "No Title")
      && r.fields["Attendees"] == JList(Strings(ParseAttendees(ev.attendees)))
      && r.fields["NumAttendees"] == JInt(if ev.attendees == [] then 1 else |ev.attendees|)
  {
    if user !in services || inserted.None? then EntryFromDraft(draft)
    else
      var ev := inserted.value;
      CalendarEntry(ParseEventDatetime(ev.start, now), ParseEventDatetime(ev.end, now),
                    AtLeastOne(|ev.attendees|), Strings(ParseAttendees(ev.attendees)),
                    JStr(ev.summary.GetOr("No Title")))
  }

  /** A user's calendar session (the authorised API client); how it is loaded is outside the model. */
  datatype Session = Session(tokenFile: string)

  /** Get-or-create in the registry: an unknown user gets the loaded session, when loading succeeded. */
  function Register(services: map<string, Session>, user: string, loaded: Option<Session>): (r: map<string, Session>)
    ensures forall u :: u in services ==> u in r && r[u] == services[u]
    ensures r.Keys == if user !in services && loaded.Some? then services.Keys + {user} else services.Keys
    ensures user !in services && loaded.Some? ==> r[user] == loaded.value
  {
    if user in services || loaded.None? then services else services[user := loaded.value]
  }

  /** A second get-or-create for the same user changes nothing, however the second load goes. */
  lemma RegisterIdempotent(services: map<string, Session>, user: string, loaded: Option<Session>, again: Option<Session>)
    requires loaded.Some?
    ensures Register(Register(services, user, loaded), user, again) == Register(services, user, loaded)
  {
  }

  class CalendarManager {
    /** `self.services`: user email to session. */
    var services: map<string, Session>

    /** `loaded` are the sessions `load_all_credentials` found. */
    constructor (loaded: map<string, Session>)
      ensures services == loaded
    {
      services := loaded;
    }

    /**
     * `get_events`. `loaded` is what loading the user's token gives (`None` when it raises),
     * `listed` the converted API listing (`None` when the call raises), `mock` the fixture events.
     * Returns the events and the window that was queried (`None` when no session could be had).
     */
    method GetEvents(user: string, timeMin: Option<int>, timeMax: Option<int>, now: int,
                     loaded: Option<Session>, listed: Option<seq<Json>>, mock: seq<Json>)
      returns (events: seq<Json>, window: Option<Window>)
      modifies this
      ensures services == Register(old(services), user, loaded)
      ensures var hasSession := user in old(services) || loaded.Some?;
        && (hasSession ==> window == Some(NormalizeWindow(timeMin, timeMax, now)))
        && (!hasSession ==> window == None)
        && events == if hasSession && listed.Some? then listed.value else mock
    {
      if user !in services {
        if loaded.None? {
          return mock, None;
        }
        services := services[user := loaded.value];
      }
      window := Some(NormalizeWindow(timeMin, timeMax, now));
      if listed.None? {
        return mock, window;
      }
      events := listed.value;
    }
  }
}
