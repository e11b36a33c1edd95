/**
 * The scheduler's record types: values with defaults and one validator.
 * Constructing a record from keyword arguments is a function from the given fields
 * to the record or to the validation error.
 */
module Schemas {
  import opened Wrappers
  import opened Json

  /** A meeting attendee. */
  datatype Attendee = Attendee(email: string, responseStatus: Option<string>, isSelf: Option<bool>)

  /** `Attendee(email=...)` */
  function NewAttendee(email: string): (a: Attendee)
    ensures a.email == email && a.responseStatus == None && a.isSelf == None
  {
    Attendee(email, None, None)
  }

  /** A time slot; its validator rejects an end that is not after the start. */
  datatype TimeSlot = TimeSlot(startTime: int, endTime: int, timezone: string)

  const DefaultTimezone: string := "UTC"

  /** `TimeSlot(start_time=..., end_time=..., [timezone=...])` */
  function NewTimeSlot(startTime: int, endTime: int, timezone: Option<string>): (r: Result<TimeSlot>)
    ensures r.Ok? <==> startTime < endTime
    ensures r.Ok? ==> r.value.startTime == startTime && r.value.endTime == endTime
    ensures r.Ok? && timezone.None? ==> r.value.timezone == "UTC"
    ensures r.Ok? && timezone.Some? ==> r.value.timezone == timezone.value
  {
    if endTime <= startTime then Err("end_time must be after start_time")
    else Ok(TimeSlot(startTime, endTime, timezone.GetOr(DefaultTimezone)))
  }

  /** A calendar event. */
  datatype Event = Event(
    summary: string,
    description: Option<string>,
    start: map<string, string>,
    end: map<string, string>,
    attendees: seq<map<string, string>>,
    location: Option<string>,
    status: Option<string>)

  /** `Event(summary=..., start=..., end=...)` with every other field defaulted. */
  function NewEvent(summary: string, start: map<string, string>, end: map<string, string>): (e: Event)
    ensures e.summary == summary && e.start == start && e.end == end
    ensures e.description == None && e.attendees == [] && e.location == None
    ensures e.status == Some("confirmed")
  {
    Event(summary, None, start, end, [], None, Some("confirmed"))
  }

  /** Input of the scheduler agent. */
  datatype SchedulingRequest = SchedulingRequest(
    requestId: string,
    datetime: string,
    location: Option<string>,
    fromEmail: string,
    attendees: seq<map<string, string>>,
    subject: string,
    emailContent: string,
    durationMinutes: int,
    timezone: string)

  const DefaultDuration: int := 30

  function RequiredString(raw: map<string, Json>, key: string): (r: Result<string>)
    ensures r.Ok? <==> key in raw && raw[key].JStr?
    ensures r.Ok? ==> raw[key] == JStr(r.value)
  {
    if key !in raw then Err(key + ": field required")
    else if !raw[key].JStr? then Err(key + ": str type expected")
    else Ok(raw[key].s)
  }

  predicate IsStrDictList(j: Json)
  {
    j.JList? && forall i :: 0 <= i < |j.items| ==> IsStrDict(j.items[i])
  }

  /** Whether every optional field that is present has the declared type. */
  predicate OptionalFieldsTyped(raw: map<string, Json>)
  {
    && ("location" in raw ==> raw["location"].JNull? || raw["location"].JStr?)
    && ("attendees" in raw ==> IsStrDictList(raw["attendees"]))
    && ("duration_minutes" in raw ==> raw["duration_minutes"].JInt?)
    && ("timezone" in raw ==> raw["timezone"].JStr?)
  }

  predicate IsStrField(raw: map<string, Json>, key: string)
  {
    key in raw && raw[key].JStr?
  }

  /** The fields `SchedulingRequest` cannot default, each given as a string. */
  predicate HasRequiredFields(raw: map<string, Json>)
  {
    && IsStrField(raw, "request_id")
    && IsStrField(raw, "datetime")
    && IsStrField(raw, "from_email")
    && IsStrField(raw, "subject")
    && IsStrField(raw, "email_content")
  }

  /** `SchedulingRequest(**raw)`; unknown keys are ignored. */
  function ParseSchedulingRequest(raw: map<string, Json>): (r: Result<SchedulingRequest>)
    ensures r.Ok? <==> HasRequiredFields(raw) && OptionalFieldsTyped(raw)
    ensures r.Ok? ==> raw["request_id"] == JStr(r.value.requestId) && raw["from_email"] == JStr(r.value.fromEmail)
    ensures r.Ok? ==> raw["subject"] == JStr(r.value.subject) && raw["email_content"] == JStr(r.value.emailContent)
    ensures r.Ok? && "duration_minutes" !in raw ==> r.value.durationMinutes == 30
    ensures r.Ok? && "timezone" !in raw ==> r.value.timezone == "UTC"
    ensures r.Ok? && "attendees" !in raw ==> r.value.attendees == []
    ensures r.Ok? && "location" !in raw ==> r.value.location == None
    ensures r.Ok? ==> raw["datetime"] == JStr(r.value.datetime)
    ensures r.Ok? && "duration_minutes" in raw ==> r.value.durationMinutes == raw["duration_minutes"].i
    ensures r.Ok? && "timezone" in raw ==> raw["timezone"] == JStr(r.value.timezone)
    ensures r.Ok? && "location" in raw ==>
      (raw["location"].JNull? ==> r.value.location == None) && (raw["location"].JStr? ==> r.value.location == Some(raw["location"].s))
    ensures r.Ok? && "attendees" in raw ==>
      |r.value.attendees| == |raw["attendees"].items|
      && forall i :: 0 <= i < |r.value.attendees| ==> FromStrDict(r.value.attendees[i]) == raw["attendees"].items[i]
  {
    var requestId :- RequiredString(raw, "request_id");
    var datetime :- RequiredString(raw, "datetime");
    var fromEmail :- RequiredString(raw, "from_email");
    var subject :- RequiredString(raw, "subject");
    var emailContent :- RequiredString(raw, "email_content");
    if !OptionalFieldsTyped(raw) then Err("optional field of the wrong type")
    else
      Ok(SchedulingRequest(
        requestId, datetime,
        if "location" in raw && raw["location"].JStr? then Some(raw["location"].s) else None,
        fromEmail,
        if "attendees" in raw then seq(|raw["attendees"].items|, i requires 0 <= i < |raw["attendees"].items| => AsStrDict(raw["attendees"].items[i])) else [],
        subject, emailContent,
        if "duration_minutes" in raw then raw["duration_minutes"].i else DefaultDuration,
        if "timezone" in raw then raw["timezone"].s else DefaultTimezone))
  }

  /** Output of the scheduler agent. */
  datatype SchedulingResponse = SchedulingResponse(
    requestId: string,
    status: string,
    message: Option<string>,
    scheduledEvents: Option<seq<Json>>,
    suggestedTimes: Option<seq<Json>>,
    errors: Option<seq<string>>)

  /** `SchedulingResponse(request_id=..., status=...)`: only these two are required. */
  function NewSchedulingResponse(requestId: string, status: string): (r: SchedulingResponse)
    ensures r.requestId == requestId && r.status == status
    ensures r.message == None && r.scheduledEvents == None && r.suggestedTimes == None && r.errors == None
  {
    SchedulingResponse(requestId, status, None, None, None, None)
  }
}
