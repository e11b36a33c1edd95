/**
 * `SchedulerAgent`: parse the request, check availability, then either schedule the first slot
 * or suggest alternatives, and respond; any exception becomes an error response. The graph of
 * nodes is an explicit transition function over `Stage`.
 */
module SchedulerAgent {
  import opened Wrappers
  import opened Time
  import opened Json
  import opened Schemas
  import Calendar
  import CalendarSlots

  /**
   * What the agent consults: each attendee's busy intervals over a window, the users with a
   * calendar session, and the API's answer to an event insert (`None` when it raises).
   */
  datatype World = World(busy: (string, Window) -> seq<Busy>, services: set<string>, inserted: Option<Calendar.ApiEvent>)

  /**
   * How the schedule and response nodes read a slot. The search returns dicts, and the agent as
   * written reads `slot.start_time`, which raises; `KeyAccess` reads `slot["start_time"]`.
   */
  datatype SlotAccess = AttributeAccess | KeyAccess

  const NoStartTime: string := "'dict' object has no attribute 'start_time'"
  const SuggestionCount: nat := 3

  /** Where the flow is: the input of the next node, or its end. */
  datatype Stage =
    | Received(state: SchedulingRequest)
    | Parsed(state: SchedulingRequest)
    | Checked(state: SchedulingRequest, slots: seq<Slot>, hasAvailability: bool)
    | Booked(state: SchedulingRequest, event: Json, slot: Slot)
    | Suggested(state: SchedulingRequest, suggestions: seq<Slot>)
    | Responded(response: SchedulingResponse)
    | Raised(msg: string)

  predicate AllHaveEmail(attendees: seq<map<string, string>>)
  {
    forall i :: 0 <= i < |attendees| ==> "email" in attendees[i]
  }

  /** `[a["email"] for a in attendees]` */
  function Emails(attendees: seq<map<string, string>>): (r: seq<string>)
    requires AllHaveEmail(attendees)
    ensures |r| == |attendees| && forall i :: 0 <= i < |r| ==> r[i] == attendees[i]["email"]
  {
    seq(|attendees|, i requires 0 <= i < |attendees| => attendees[i]["email"])
  }

  /** `_parse_request`: the requester joins the attendees when absent; a dict without `email` raises. */
  function ParseRequest(state: SchedulingRequest): (r: Result<SchedulingRequest>)
    ensures r.Ok? <==> AllHaveEmail(state.attendees)
    ensures r.Ok? ==> r.value == state.(attendees := r.value.attendees) && AllHaveEmail(r.value.attendees)
    ensures r.Ok? && state.fromEmail in Emails(state.attendees) ==> r.value.attendees == state.attendees
    ensures r.Ok? && state.fromEmail !in Emails(state.attendees) ==>
      r.value.attendees == state.attendees + [map["email" := state.fromEmail]]
    ensures r.Ok? ==> state.fromEmail in Emails(r.value.attendees)
  {
    if !AllHaveEmail(state.attendees) then Err("'email'")
    else
      var present := set i | 0 <= i < |state.attendees| :: state.attendees[i]["email"];
      if state.fromEmail !in present then
        var added := state.attendees + [map["email" := state.fromEmail]];
        assert Emails(added) == Emails(state.attendees) + [state.fromEmail];
        Ok(state.(attendees := added))
      else
        Ok(state)
  }

  /** Parsing twice is parsing once. */
  lemma ParseRequestIdempotent(state: SchedulingRequest)
    requires ParseRequest(state).Ok?
    ensures ParseRequest(ParseRequest(state).value) == ParseRequest(state)
  {
  }

  /** The busy lists `find_available_slots` sees, one per attendee. */
  function EventsFor(emails: seq<string>, busy: (string, Window) -> seq<Busy>, window: Window): (r: seq<seq<Busy>>)
    ensures |r| == |emails| && forall i :: 0 <= i < |r| ==> r[i] == busy(emails[i], window)
  {
    seq(|emails|, i requires 0 <= i < |emails| => busy(emails[i], window))
  }

  /** The busy lists the search over `[from, to]` sees for the state's attendees. */
  function Calendars(state: SchedulingRequest, world: World, from: int, to: int): seq<seq<Busy>>
    requires AllHaveEmail(state.attendees)
  {
    EventsFor(Emails(state.attendees), world.busy, Window(from, to))
  }

  /**
   * The live search over `[from, to]` for the state's attendees. Both bounds are naive
   * (`utcnow()` plus days), so it raises once it compares them with an aware event time.
   */
  function Search(state: SchedulingRequest, world: World, from: int, to: int, now: int): Result<seq<Slot>>
    requires AllHaveEmail(state.attendees)
  {
    CalendarSlots.LiveSearch(Calendars(state, world, from, to), state.durationMinutes, Some(from), Some(to), now)
  }

  /** `_check_availability_decision` */
  function Decision(hasAvailability: bool): (r: string)
    ensures r == "available" <==> hasAvailability
    ensures r == "conflict" <==> !hasAvailability
  {
    if hasAvailability then "available" else "conflict"
  }

  /** The event body `_schedule_event` sends, for a slot read by key. */
  function Draft(state: SchedulingRequest, slot: Slot): (d: Calendar.EventDraft)
    requires AllHaveEmail(state.attendees)
    ensures d.summary == state.subject && d.description == state.emailContent
    ensures d.start == JTime(slot.start, None) && d.end == JTime(slot.end, None) && d.timeZone == state.timezone
    ensures d.attendees == Emails(state.attendees)
    ensures d.location == (if state.location.Some? then state.location.value else "")
  {
    Calendar.EventDraft(state.subject, state.emailContent, JTime(slot.start, None), JTime(slot.end, None),
      state.timezone, Emails(state.attendees), state.location.GetOr(""))
  }

  /** The slot as `{"start_time": ..., "end_time": ...}` (naive: the searches start from `utcnow()`). */
  function SlotFields(slot: Slot): map<string, Json>
  {
    map["start_time" := JTime(slot.start, None), "end_time" := JTime(slot.end, None)]
  }

  function Suggestions(slots: seq<Slot>): (r: seq<Json>)
    ensures |r| == |slots| && forall i :: 0 <= i < |r| ==> r[i] == JObj(SlotFields(slots[i]))
  {
    seq(|slots|, i requires 0 <= i < |slots| => JObj(SlotFields(slots[i])))
  }

  /** `_generate_response` for a booked slot. */
  function ScheduledResponse(state: SchedulingRequest, slot: Slot): (r: SchedulingResponse)
    requires AllHaveEmail(state.attendees)
    ensures r.requestId == state.requestId && r.status == "scheduled" && r.message == Some("Meeting successfully scheduled")
    ensures r.scheduledEvents.Some? && |r.scheduledEvents.value| == 1
    ensures var ev := r.scheduledEvents.value[0];
      && ev.JObj? && ev.fields.Keys == {"start_time", "end_time", "attendees", "summary"}
      && ev.fields["start_time"] == JTime(slot.start, None) && ev.fields["end_time"] == JTime(slot.end, None)
      && ev.fields["attendees"] == JList(Strings(Emails(state.attendees)))
      && ev.fields["summary"] == JStr(state.subject)
    ensures r.suggestedTimes == None && r.errors == None
  {
    var ev := SlotFields(slot)["attendees" := JList(Strings(Emails(state.attendees)))]["summary" := JStr(state.subject)];
    SchedulingResponse(state.requestId, "scheduled", Some("Meeting successfully scheduled"), Some([JObj(ev)]), None, None)
  }

  /** `_generate_response` without a booking. */
  function ConflictResponse(state: SchedulingRequest, suggestions: seq<Slot>): (r: SchedulingResponse)
    ensures r.requestId == state.requestId && r.status == "conflict"
    ensures r.message == Some("No available slots found. Here are some suggested times:")
    ensures r.suggestedTimes.Some? && |r.suggestedTimes.value| == |suggestions|
    ensures forall i :: 0 <= i < |suggestions| ==>
      r.suggestedTimes.value[i] == JObj(map["start_time" := JTime(suggestions[i].start, None), "end_time" := JTime(suggestions[i].end, None)])
    ensures r.scheduledEvents == None && r.errors == None
  {
    SchedulingResponse(state.requestId, "conflict", Some("No available slots found. Here are some suggested times:"),
      None, Some(Suggestions(suggestions)), None)
  }

  /** One node of the flow. */
  function Step(s: Stage, world: World, now: int, access: SlotAccess): Stage
  {
    match s
    case Received(state) =>
      (match ParseRequest(state)
       case Ok(st) => Parsed(st)
       case Err(m) => Raised(m))
    case Parsed(state) =>
      if !AllHaveEmail(state.attendees) then Raised("'email'")
      else
        (match Search(state, world, now, now + 7 * MinutesPerDay, now)
         case Err(m) => Raised(m)
         case Ok(slots) => Checked(state, slots, slots != []))
    case Checked(state, slots, has) =>
      if Decision(has) == "available" then
        if slots == [] then Raised("list index out of range")
        else if access == AttributeAccess then Raised(NoStartTime)
        else if !AllHaveEmail(state.attendees) then Raised("'email'")
        else Booked(state, Calendar.CreateEvent(state.fromEmail, Draft(state, slots[0]), world.services, world.inserted, now), slots[0])
      else if !AllHaveEmail(state.attendees) then Raised("'email'")
      else
        (match Search(state, world, now + MinutesPerDay, now + 14 * MinutesPerDay, now)
         case Err(m) => Raised(m)
         case Ok(wider) => Suggested(state, CalendarSlots.Take(wider, SuggestionCount)))
    case Booked(state, _, slot) =>
      if access == AttributeAccess then Raised(NoStartTime)
      else if !AllHaveEmail(state.attendees) then Raised("'email'")
      else Responded(ScheduledResponse(state, slot))
    case Suggested(state, suggestions) =>
      if access == AttributeAccess && suggestions != [] then Raised(NoStartTime)
      else Responded(ConflictResponse(state, suggestions))
    case Responded(_) => s
    case Raised(_) => s
  }

  /** Each node hands on to the next one along the graph's edges, or raises. */
  lemma StepFollowsEdges(s: Stage, world: World, now: int, access: SlotAccess)
    ensures var r := Step(s, world, now, access);
      && (s.Received? ==> r.Parsed? || r.Raised?)
      && (s.Received? && r.Parsed? ==> r.state.requestId == s.state.requestId)
      && (s.Parsed? ==> r.Checked? || r.Raised?)
      && (s.Parsed? && r.Checked? ==> r.state == s.state && r.hasAvailability == (r.slots != []))
      && (s.Checked? ==> r.Booked? || r.Suggested? || r.Raised?)
      && (s.Checked? && r.Booked? ==> s.hasAvailability && access == KeyAccess && s.slots != [] && r.slot == s.slots[0])
      && (s.Checked? && r.Suggested? ==> !s.hasAvailability && |r.suggestions| <= SuggestionCount)
      && (s.Booked? || s.Suggested? ==> r.Responded? || r.Raised?)
      && (s.Responded? || s.Raised? ==> r == s)
  {
  }

  function Steps(s: Stage, n: nat, world: World, now: int, access: SlotAccess): Stage
    decreases n
  {
    if n == 0 then s else Steps(Step(s, world, now, access), n - 1, world, now, access)
  }

  /** The nodes on the longest path: parse, check, schedule or conflict, respond. */
  const PathLength: nat := 4

  /** The stage after four nodes, node by node. */
  lemma FourSteps(s: Stage, world: World, now: int, access: SlotAccess)
    ensures Steps(s, PathLength, world, now, access)
      == Step(Step(Step(Step(s, world, now, access), world, now, access), world, now, access), world, now, access)
  {
    var s1 := Step(s, world, now, access);
    var s2 := Step(s1, world, now, access);
    var s3 := Step(s2, world, now, access);
    assert Steps(s3, 1, world, now, access) == Steps(Step(s3, world, now, access), 0, world, now, access);
  }

  /** The error response; `request.get("request_id", "unknown")` must itself validate as a string. */
  function ErrorResponse(raw: map<string, Json>, msg: string): (r: Result<SchedulingResponse>)
    ensures r.Ok? <==> "request_id" !in raw || raw["request_id"].JStr?
    ensures r.Ok? ==> r.value.status == "error" && r.value.errors == Some([msg]) && r.value.message == Some(msg)
    ensures r.Ok? ==> r.value.requestId == (if "request_id" in raw then raw["request_id"].s else "unknown")
    ensures r.Ok? ==> r.value.scheduledEvents == None && r.value.suggestedTimes == None
  {
    var id := if "request_id" in raw then raw["request_id"] else JStr("unknown");
    if !id.JStr? then Err("request_id: str type expected")
    else Ok(SchedulingResponse(id.s, "error", Some(msg), None, None, Some([msg])))
  }

  /**
   * What every stage of one run keeps: the request's id, and, once responded, a "scheduled"
   * response with its one event (only when slots are read by key) or a "conflict" one.
   */
  predicate Keeps(s: Stage, id: string, access: SlotAccess)
  {
    match s
    case Responded(r) =>
      && r.requestId == id
      && (r.status == "scheduled" || r.status == "conflict")
      && (r.status == "scheduled" ==> access == KeyAccess && r.scheduledEvents.Some? && |r.scheduledEvents.value| == 1)
      && (r.status == "conflict" ==> r.suggestedTimes.Some?)
    case Raised(_) => true
    case _ => s.state.requestId == id
  }

  lemma StepKeeps(s: Stage, id: string, world: World, now: int, access: SlotAccess)
    requires Keeps(s, id, access)
    ensures Keeps(Step(s, world, now, access), id, access)
  {
  }

  lemma {:induction false} StepsKeep(s: Stage, n: nat, id: string, world: World, now: int, access: SlotAccess)
    requires Keeps(s, id, access)
    ensures Keeps(Steps(s, n, world, now, access), id, access)
    decreases n
  {
    if n > 0 {
      StepKeeps(s, id, world, now, access);
      StepsKeep(Step(s, world, now, access), n - 1, id, world, now, access);
    }
  }

  /** `schedule(request)` with the given slot access; `Err` where the error path itself raises. */
  function RunWith(raw: map<string, Json>, world: World, now: int, access: SlotAccess): (r: Result<SchedulingResponse>)
    ensures r.Err? <==> "request_id" in raw && !raw["request_id"].JStr?
    ensures r.Ok? ==> r.value.requestId == (if "request_id" in raw then raw["request_id"].s else "unknown")
    ensures r.Ok? ==> r.value.status == "scheduled" || r.value.status == "conflict" || r.value.status == "error"
    ensures r.Ok? && r.value.status != "error" ==> ParseSchedulingRequest(raw).Ok?
    ensures r.Ok? && r.value.status == "scheduled" ==>
      access == KeyAccess && r.value.scheduledEvents.Some? && |r.value.scheduledEvents.value| == 1
    ensures r.Ok? && r.value.status == "conflict" ==> r.value.suggestedTimes.Some?
  {
    match ParseSchedulingRequest(raw)
    case Err(m) => ErrorResponse(raw, m)
    case Ok(state) =>
      StepsKeep(Received(state), PathLength, state.requestId, world, now, access);
      (match Steps(Received(state), PathLength, world, now, access)
       case Responded(r) => Ok(r)
       case Raised(m) => ErrorResponse(raw, m)
       case _ => ErrorResponse(raw, "workflow did not finish"))
  }

  /** The agent as written. */
  function RunAsWritten(raw: map<string, Json>, world: World, now: int): (r: Result<SchedulingResponse>)
    ensures r.Ok? ==> r.value.status != "scheduled"
  {
    RunWith(raw, world, now, AttributeAccess)
  }

  /** The agent with slots read by key. */
  function Run(raw: map<string, Json>, world: World, now: int): (r: Result<SchedulingResponse>)
    ensures r.Ok? && r.value.status == "scheduled" ==> r.value.scheduledEvents.Some? && |r.value.scheduledEvents.value| == 1
    ensures r.Ok? && r.value.status == "conflict" ==> r.value.suggestedTimes.Some?
  {
    RunWith(raw, world, now, KeyAccess)
  }

  /** The end stages are fixed points. */
  lemma EndIsFixed(s: Stage, world: World, now: int, access: SlotAccess)
    requires s.Responded? || s.Raised?
    ensures forall n: nat :: Steps(s, n, world, now, access) == s
  {
    forall n: nat ensures Steps(s, n, world, now, access) == s {
      StepsFixed(s, n, world, now, access);
    }
  }

  lemma {:induction false} StepsFixed(s: Stage, n: nat, world: World, now: int, access: SlotAccess)
    requires s.Responded? || s.Raised?
    ensures Steps(s, n, world, now, access) == s
  {
    if n > 0 {
      StepsFixed(s, n - 1, world, now, access);
    }
  }

  /** The nodes left before the end, at most. */
  function Rank(s: Stage): (r: nat)
    ensures r == 0 <==> s.Responded? || s.Raised?
  {
    match s
    case Received(_) => 4
    case Parsed(_) => 3
    case Checked(_, _, _) => 2
    case Booked(_, _, _) => 1
    case Suggested(_, _) => 1
    case Responded(_) => 0
    case Raised(_) => 0
  }

  /** Every node moves the flow strictly closer to its end. */
  lemma StepAdvances(s: Stage, world: World, now: int, access: SlotAccess)
    requires !(s.Responded? || s.Raised?)
    ensures Rank(Step(s, world, now, access)) < Rank(s)
  {
  }

  /** From any stage the flow has ended after as many steps as its rank. */
  lemma {:induction false} StepsEnd(s: Stage, n: nat, world: World, now: int, access: SlotAccess)
    requires Rank(s) <= n
    ensures var e := Steps(s, n, world, now, access);
      e.Responded? || e.Raised?
    decreases n
  {
    if s.Responded? || s.Raised? {
      StepsFixed(s, n, world, now, access);
    } else {
      StepAdvances(s, world, now, access);
      StepsEnd(Step(s, world, now, access), n - 1, world, now, access);
    }
  }

  /** The flow always ends within four nodes, responding or raising. */
  lemma Terminates(state: SchedulingRequest, world: World, now: int, access: SlotAccess)
    ensures var e := Steps(Received(state), PathLength, world, now, access);
      e.Responded? || e.Raised?
  {
    StepsEnd(Received(state), PathLength, world, now, access);
  }

  /**
   * The availability check raises exactly when the search does; otherwise it always finds
   * availability, since `find_available_slots` never answers `[]`.
   */
  lemma AlwaysAvailable(state: SchedulingRequest, world: World, now: int, access: SlotAccess)
    requires AllHaveEmail(state.attendees)
    ensures var found := Search(state, world, now, now + 7 * MinutesPerDay, now);
      var s := Step(Parsed(state), world, now, access);
      && (found.Err? ==> s == Raised(CalendarSlots.MixedCompare))
      && (found.Ok? ==> s.Checked? && s.hasAvailability && s.slots == found.value && s.slots != [])
  {
    CalendarSlots.LiveSlotsCount(Calendars(state, world, now, now + 7 * MinutesPerDay),
      state.durationMinutes, Some(now), Some(now + 7 * MinutesPerDay), now);
  }

  /** With naive event times only (or none), the search does not raise. */
  lemma SearchNaive(state: SchedulingRequest, world: World, from: int, to: int, now: int)
    requires AllHaveEmail(state.attendees)
    requires CalendarSlots.SameAwareness(Calendars(state, world, from, to), false)
    ensures Search(state, world, from, to, now).Ok?
  {
    CalendarSlots.LiveSearchNaive(Calendars(state, world, from, to), state.durationMinutes, Some(from), Some(to), now);
  }

  /** When the first event met ends in an aware datetime, the week's search raises. */
  lemma SearchAware(state: SchedulingRequest, world: World, now: int)
    requires AllHaveEmail(state.attendees)
    requires CalendarSlots.FirstEndMixed(Calendars(state, world, now, now + 7 * MinutesPerDay), false)
    ensures Search(state, world, now, now + 7 * MinutesPerDay, now) == Err(CalendarSlots.MixedCompare)
  {
    CalendarSlots.LiveSearchRaises(Calendars(state, world, now, now + 7 * MinutesPerDay),
      state.durationMinutes, now, now + 7 * MinutesPerDay, now);
  }

  /**
   * The schedule node books exactly the first slot; without a session it echoes the draft, so the
   * event lists the state's attendees in order, and the location defaults to `""`.
   */
  lemma ScheduleUsesFirstSlot(state: SchedulingRequest, slots: seq<Slot>, world: World, now: int)
    requires AllHaveEmail(state.attendees) && slots != []
    ensures var s := Step(Checked(state, slots, true), world, now, KeyAccess);
      && s.Booked? && s.slot == slots[0]
      && (state.fromEmail !in world.services ==>
           s.event.fields["Attendees"] == JList(Strings(Emails(state.attendees)))
           && s.event.fields["StartTime"] == JTime(slots[0].start, None))
      && Draft(state, slots[0]).location == (if state.location.Some? then state.location.value else "")
  {
  }

  /**
   * The conflict node raises when the wider search does; otherwise it keeps one to three
   * suggestions, a prefix of the search over `[now + 1 day, now + 14 days]`.
   */
  lemma ConflictSuggestions(state: SchedulingRequest, slots: seq<Slot>, world: World, now: int, access: SlotAccess)
    requires AllHaveEmail(state.attendees)
    ensures var s := Step(Checked(state, slots, false), world, now, access);
      var wider := Search(state, world, now + MinutesPerDay, now + 14 * MinutesPerDay, now);
      && (wider.Err? ==> s == Raised(CalendarSlots.MixedCompare))
      && (wider.Ok? ==>
           && s.Suggested?
           && 1 <= |s.suggestions| <= SuggestionCount
           && s.suggestions == wider.value[..|s.suggestions|])
  {
    CalendarSlots.LiveSlotsCount(Calendars(state, world, now + MinutesPerDay, now + 14 * MinutesPerDay),
      state.durationMinutes, Some(now + MinutesPerDay), Some(now + 14 * MinutesPerDay), now);
  }

  /** The response is "scheduled" after a booking and "conflict" otherwise, carrying the request id. */
  lemma ResponseStatus(s: Stage, world: World, now: int)
    requires s.Booked? || s.Suggested?
    requires AllHaveEmail(s.state.attendees)
    ensures var r := Step(s, world, now, KeyAccess);
      && r.Responded? && r.response.requestId == s.state.requestId
      && (r.response.status == "scheduled" <==> s.Booked?)
      && (r.response.status == "conflict" <==> s.Suggested?)
      && (s.Booked? ==> r.response.scheduledEvents.Some? && |r.response.scheduledEvents.value| == 1)
      && (s.Suggested? ==> r.response.suggestedTimes == Some(Suggestions(s.suggestions)))
  {
  }

  /** A request the record type rejects gets the error response, or raises when its id is not a string. */
  lemma InvalidRequest(raw: map<string, Json>, world: World, now: int, access: SlotAccess)
    requires ParseSchedulingRequest(raw).Err?
    ensures var r := RunWith(raw, world, now, access);
      && (r.Ok? <==> "request_id" !in raw || raw["request_id"].JStr?)
      && (r.Ok? ==> r.value.status == "error" && r.value.errors == Some([ParseSchedulingRequest(raw).msg]))
      && (r.Ok? && "request_id" !in raw ==> r.value.requestId == "unknown")
  {
  }

  /** The error response for a message, with the request's id. */
  function Failure(raw: map<string, Json>, msg: string): SchedulingResponse
    requires "request_id" in raw && raw["request_id"].JStr?
  {
    SchedulingResponse(raw["request_id"].s, "error", Some(msg), None, None, Some([msg]))
  }

  /**
   * As written, every valid request ends in the error response: the week's search raises on an
   * aware event time, and otherwise it offers a slot, and reading `slot.start_time` raises. With
   * naive event times only (or none) the message is always the attribute error.
   */
  lemma RunAsWrittenAlwaysFails(raw: map<string, Json>, world: World, now: int)
    requires ParseSchedulingRequest(raw).Ok?
    requires AllHaveEmail(ParseSchedulingRequest(raw).value.attendees)
    ensures var state := ParseRequest(ParseSchedulingRequest(raw).value).value;
      var found := Search(state, world, now, now + 7 * MinutesPerDay, now);
      var msg := if found.Err? then CalendarSlots.MixedCompare else NoStartTime;
      && RunAsWritten(raw, world, now) == Ok(Failure(raw, msg))
      && (CalendarSlots.SameAwareness(Calendars(state, world, now, now + 7 * MinutesPerDay), false) ==> msg == NoStartTime)
  {
    var state := ParseSchedulingRequest(raw).value;
    var st := ParseRequest(state).value;
    AlwaysAvailable(st, world, now, AttributeAccess);
    FourSteps(Received(state), world, now, AttributeAccess);
    if CalendarSlots.SameAwareness(Calendars(st, world, now, now + 7 * MinutesPerDay), false) {
      SearchNaive(st, world, now, now + 7 * MinutesPerDay, now);
    }
  }

  /**
   * With slots read by key, a valid request whose attendees all carry an email is scheduled on
   * the first slot of the week's search, for the attendees including the requester, unless that
   * search raises on an aware event time, which gives the error response.
   */
  lemma RunSchedulesFirstSlot(raw: map<string, Json>, world: World, now: int)
    requires ParseSchedulingRequest(raw).Ok?
    requires AllHaveEmail(ParseSchedulingRequest(raw).value.attendees)
    ensures var state := ParseRequest(ParseSchedulingRequest(raw).value).value;
      var found := Search(state, world, now, now + 7 * MinutesPerDay, now);
      var r := Run(raw, world, now);
      && (found.Err? ==> r == Ok(Failure(raw, CalendarSlots.MixedCompare)))
      && (found.Ok? ==> found.value != [] && r == Ok(ScheduledResponse(state, found.value[0])))
      && (found.Ok? ==> r.value.status == "scheduled" && r.value.requestId == raw["request_id"].s)
      && state.fromEmail in Emails(state.attendees)
  {
    var state := ParseRequest(ParseSchedulingRequest(raw).value).value;
    AlwaysAvailable(state, world, now, KeyAccess);
    FourSteps(Received(ParseSchedulingRequest(raw).value), world, now, KeyAccess);
  }

  /** A request whose first event met ends in an aware datetime gets the comparison error, either way slots are read. */
  lemma RunRaisesOnAwareEvents(raw: map<string, Json>, world: World, now: int, access: SlotAccess)
    requires ParseSchedulingRequest(raw).Ok?
    requires AllHaveEmail(ParseSchedulingRequest(raw).value.attendees)
    requires var state := ParseRequest(ParseSchedulingRequest(raw).value).value;
      CalendarSlots.FirstEndMixed(Calendars(state, world, now, now + 7 * MinutesPerDay), false)
    ensures RunWith(raw, world, now, access) == Ok(Failure(raw, CalendarSlots.MixedCompare))
  {
    var state := ParseSchedulingRequest(raw).value;
    var st := ParseRequest(state).value;
    SearchAware(st, world, now);
    AlwaysAvailable(st, world, now, access);
    FourSteps(Received(state), world, now, access);
  }
}
