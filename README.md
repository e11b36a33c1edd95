# AI scheduling assistant: the scheduling-decision core in Dafny

This project models the decision logic of the AI scheduling assistant and proves properties of it. The assistant turns a meeting request into a booked slot or suggestions. The modelled parts are:

- **Hint to window.** `MeetingScheduler._parse_time_constraints` turns a free-text hint ("thursday", "next week", "this week") into a search window. It works on the IST wall clock and converts the window back to UTC.
- **Slot searches.** There are three of them, each stepping by 30 minutes with half-open overlap:
  - the live `GoogleCalendarManager.find_available_slots`, which has a 10:00 fallback and returns at most 10 slots;
  - the per-day variant that the live one shadows;
  - the first-fit `MeetingScheduler._find_available_slot`.
- **Small parsers.** `_parse_datetime`, `_is_time_in_event`, `_parse_event_datetime`, `_parse_attendees`, and the window normalisation in `get_events`.
- **Assembly.** `MeetingScheduler.schedule_meeting` with `_create_response`, and the `GoogleCalendarManager.create_event` that is actually bound.
- **Agent flow.** The `SchedulerAgent` runs parse, check availability, then schedule or conflict, then respond, with an error fallback.
- **Record types.** The pydantic records of `schemas.py`, with their defaults and validation.

Conventions:

- **Instants.** An instant is an integer number of minutes since an epoch that falls on a Monday 00:00 UTC.
  - `Day(t) = t / 1440` and `Weekday(t) = Day(t) % 7`, with Monday = 0 as in Python's `weekday()`.
  - `Hour(t) = (t % 1440) / 60`.
  - IST is the fixed offset of +330 minutes.
- **Time is a parameter.** Every `datetime.now()` / `utcnow()` read is a `now` parameter. Several reads inside one call are the same `now`.
- **Naive datetimes.** A naive value stands for the instant its wall clock shows in UTC. This is only a reading of the model, because Python attaches no zone to them. Python cannot order a naive datetime against an aware one: `<` raises `TypeError` "can't compare offset-naive and offset-aware datetimes". The model keeps that error. Each busy interval records whether its start and its end are aware.
- **Dicts.** Python dicts and JSON-like values are the `Json.Json` datatype. A datetime rendered by `isoformat()` is `JTime(at, offset)`:
  - with offset `Some(o)`, it is text showing wall clock `at + o` and offset `o`;
  - with `None`, it is a naive text of the wall clock `at`.
- **Errors.** Exceptions become `Result.Err`, and Python `None` becomes `Option.None`.

Modules follow the source files:

| module | models |
|---|---|
| `Time` | instants, the business-hour constants (09:00 to 17:00, 30-minute step), half-open overlap |
| `Text` | `.lower()`, substring test, integer text |
| `Json` | dict values, `dict.get` |
| `Schemas` | `schemas.py` |
| `Calendar` | `calendar_manager.py` except the searches: window normalisation, event conversion, `create_event`, the per-user session registry (class `CalendarManager`) |
| `CalendarSlots` | both `find_available_slots` definitions |
| `TimeHints` | `_parse_time_constraints` |
| `MeetingScheduler` | the rest of `meeting_scheduler.py` |
| `SchedulerAgent` | `scheduler_agent.py` |

The loops are `method`s that are proved equal to recursive specification functions. The lemmas are stated about those functions. The methods are:

- `IsFree`, `FindAvailableSlots` (with `ScanLoop`), `FindSlotsPerDay` (with `DayLoop`) in `CalendarSlots`;
- `FindAvailableSlot`, `CreateResponse`, `ScheduleMeeting` in `MeetingScheduler`;
- `GetEvents` on the `CalendarManager` object.

Behaviours the lemmas bring out:

- **Calendar entries never block.** Events leave `get_events` with keys `StartTime`/`EndTime`, but `_is_time_in_event` reads `start.dateTime`/`end.dateTime`. An event that `get_events` or `create_event` produced therefore never blocks a slot in `_find_available_slot`. See `MeetingScheduler.CalendarEntryNeverBlocks`, `FirstFitIgnoresCalendarEntries` and `ScheduleWithCalendarEntries`.
- **Negative offsets are relabelled.** `_parse_datetime` keeps a non-negative UTC offset but relabels any other value as UTC without converting it. A negative-offset time is therefore shifted by its offset (`MeetingScheduler.NegativeOffsetShifted`).
- **Aware event times make the live search raise.** The agent passes naive `utcnow()` values as the window, so every candidate slot is naive. An event's `StartTime`/`EndTime` parse to an aware datetime whenever the text carries an offset. The mock events carry "+05:30", and the API's `dateTime` values carry an offset too. So the first comparison with such an event raises `TypeError`, and the agent answers with its error response (`CalendarSlots.LiveSearchRaises`, `SchedulerAgent.SearchAware`, `SchedulerAgent.RunRaisesOnAwareEvents`). All-day events give naive texts, so they do not raise.
- **Otherwise the live search always answers.** Its fallback covers three consecutive days, and one of them is always a weekday, so the search never returns an empty list (`CalendarSlots.LiveSlotsCount`). As a result, the agent's conflict branch is never taken (`SchedulerAgent.AlwaysAvailable`).
- **The requester check uses UTC hours.** `_find_available_slot` jumps to 10:00 the next day once the hour reaches 17. That test is made on the UTC values of a window built from the IST wall clock.
- **The line-515 check in the live search is dead.** `ScanLoop` keeps it anyway.

Where the source's comments and its code disagree, the model follows the code:

- The comment at `meeting_scheduler.py:369` ("End of week (Friday) in IST") and the count of days to Friday at line 370 say a "this week" window ends on Friday at 17:00, but line 375 ends it at 17:00 today. `TimeHints.ParseTimeConstraints`, and with it `MeetingScheduler.ScheduleMeeting`, uses the window as written (`TimeHints.ThisWeekWindowAsWritten`). This is recorded as a finding below. The corrected parser is `TimeHints.ParseTimeConstraintsIntended`, and `TimeHints.ParsedWindowAheadIntended` is proved about it.
- At `meeting_scheduler.py:181` the `except` clause is garbled text. It is modelled as `except Exception`, which is what the neighbouring clauses do.

## Model

| member | source | states |
|---|---|---|
| Schemas.NewAttendee | ai_scheduler/models/schemas.py:7-11 | only the email is required; response status and the self flag default to none |
| Schemas.NewTimeSlot | ai_scheduler/models/schemas.py:13-23 | the slot is built exactly when the end is after the start, otherwise "end_time must be after start_time"; the timezone defaults to "UTC" |
| Schemas.NewEvent | ai_scheduler/models/schemas.py:25-33 | summary, start and end as given; no description, no attendees, no location, status "confirmed" |
| Schemas.RequiredString | ai_scheduler/models/schemas.py:37-46 | a required string field validates exactly when it is present and a string, and yields that string |
| Schemas.ParseSchedulingRequest | ai_scheduler/models/schemas.py:35-48 | the request validates exactly when the five required fields are strings and the optional ones have their types; the required strings, the datetime among them, are taken over unchanged; the duration and timezone are the given ones, else 30 and "UTC"; a null location is none and a string one is kept; the attendees are the given dicts, one record per dict, in order; attendees default to [] |
| Schemas.NewSchedulingResponse | ai_scheduler/models/schemas.py:50-57 | only request id and status are required; message, events, suggestions and errors default to none |
| Calendar.NormalizeWindow | ai_scheduler/agents/calendar_manager.py:117-134 | a missing start is now, a missing end is now + 7 days; the window is never empty; an end not after the start becomes start + 1 hour; otherwise both bounds are kept |
| Calendar.NormalizeIdempotent | ai_scheduler/agents/calendar_manager.py:117-134 | normalising a normalised window again, at any later clock, changes nothing |
| Calendar.CalendarEntry | ai_scheduler/agents/calendar_manager.py:180-186 | the converted event has exactly the keys StartTime, EndTime, NumAttendees, Attendees, Summary |
| Calendar.ParseEventDatetime | ai_scheduler/agents/calendar_manager.py:399-414 | a `dateTime` is taken as is; otherwise a `date` gets the suffix "T00:00:00+00:00"; otherwise the current UTC time |
| Calendar.ParseAttendees | ai_scheduler/agents/calendar_manager.py:416-428 | no attendees gives ["SELF"]; otherwise one entry per attendee, in order, its email or "unknown" |
| Calendar.CreateEvent | ai_scheduler/agents/calendar_manager.py:430-474 | the result is always a converted calendar entry; without a session, or when the insert raises, start, end and summary echo the draft, the attendees are the draft's and they are counted as 1 when there are none; after an insert, start and end are the returned event's parsed with `_parse_event_datetime`, the summary is the returned one or "No Title", and the attendees are those the API returned, parsed and counted |
| Calendar.Register | ai_scheduler/agents/calendar_manager.py:111-113 | a known user's session is kept and nothing else changes; an unknown user gains the loaded session when loading succeeded |
| Calendar.RegisterIdempotent | ai_scheduler/agents/calendar_manager.py:111-113 | once a user is registered, a second lookup changes nothing however its load goes |
| Calendar.CalendarManager.constructor | ai_scheduler/agents/calendar_manager.py:21-32 | the registry starts as the sessions the token loading found |
| Calendar.CalendarManager.GetEvents | ai_scheduler/agents/calendar_manager.py:95-195 | the registry gains the user's session when it was missing and could be loaded; with a session the normalised window is queried and the listing returned, falling back to the mock events when the listing raises; without one, the mock events |
| CalendarSlots.IsFree | ai_scheduler/agents/calendar_manager.py:525-536 | the nested loops compute exactly the probe: they raise the mixed-comparison error as the first such comparison is met, otherwise they report the slot free exactly when no busy interval overlaps it (half-open) |
| CalendarSlots.Overlap | ai_scheduler/agents/calendar_manager.py:527-531 | `slot < end and slot_end > start`: the half-open overlap when both comparisons are of the same kind; the end is compared first, so an end of the other kind always raises "can't compare offset-naive and offset-aware datetimes" |
| CalendarSlots.ProbeEvents | ai_scheduler/agents/calendar_manager.py:526-533 | one attendee's loop: free exactly when no interval overlaps, unless a comparison raises; never raises when all times are of the slot's kind |
| CalendarSlots.Probe | ai_scheduler/agents/calendar_manager.py:525-536 | all attendees' loops, stopping at the first overlap: free exactly when free for all, unless a comparison raises; never raises when all times are of the slot's kind |
| CalendarSlots.FirstEndMixedRaises | ai_scheduler/agents/calendar_manager.py:525-531 | when the first event met ends in a datetime of the other kind, the probe raises whatever the slot |
| CalendarSlots.Take | ai_scheduler/agents/calendar_manager.py:568 | `slots[:n]`: the first min(n, len) slots, the whole list when it is short |
| CalendarSlots.NextCandidate | ai_scheduler/agents/calendar_manager.py:544-549 | the next candidate is the current one plus 30 minutes when that is before 17:00, otherwise 09:00 of the following day |
| CalendarSlots.FindAvailableSlots | ai_scheduler/agents/calendar_manager.py:476-568 | the loops compute exactly the live search: the mixed-comparison error when a probe of the scan raises, otherwise the scan from 09:00 of the start day, else the 10:00 fallback, cut to 10 |
| CalendarSlots.ScanLoop | ai_scheduler/agents/calendar_manager.py:510-549 | the candidate loop, including the dead check at line 515, raises exactly when a probe of the scan raises, and otherwise yields exactly the scan from 09:00 of the start day |
| CalendarSlots.FallbackLoop | ai_scheduler/agents/calendar_manager.py:559-566 | the fallback loop yields exactly the weekday slots among three consecutive days |
| CalendarSlots.ScanFrom | ai_scheduler/agents/calendar_manager.py:518-549 | no scanned slot starts before the scan's start |
| CalendarSlots.ScanSound | ai_scheduler/agents/calendar_manager.py:518-542 | every scanned slot starts on a weekday in [09:00, 17:00), inside the window, lasts the duration and is free for all attendees; the end is not checked against 17:00 |
| CalendarSlots.ScanSorted | ai_scheduler/agents/calendar_manager.py:518-549 | scanned slots come in strictly increasing start order |
| CalendarSlots.GridStep | ai_scheduler/agents/calendar_manager.py:544-549 | from a half-hour mark in business hours the next candidate is again one |
| CalendarSlots.GridNext | ai_scheduler/agents/calendar_manager.py:544-549 | the step skips no half-hour mark in business hours |
| CalendarSlots.ScanComplete | ai_scheduler/agents/calendar_manager.py:518-549 | every free weekday half-hour mark in business hours inside the window is offered |
| CalendarSlots.ScanStartOnGrid | ai_scheduler/agents/calendar_manager.py:512-516 | the scan starts at 09:00 of the start's own day |
| CalendarSlots.FallbackDaysShape | ai_scheduler/agents/calendar_manager.py:559-566 | fallback slots are at 10:00 on weekdays within the three days, in increasing order, each lasting the duration |
| CalendarSlots.FallbackNonEmpty | ai_scheduler/agents/calendar_manager.py:559-566 | three consecutive days always hold a weekday, so the fallback gives at least one slot |
| CalendarSlots.LiveSlotsCount | ai_scheduler/agents/calendar_manager.py:551-568 | the live search returns between 1 and 10 slots, each lasting the duration |
| CalendarSlots.LiveSlotsScanned | ai_scheduler/agents/calendar_manager.py:491-549 | when the scan finds something, the answer is its first ten slots, all sound and sorted |
| CalendarSlots.LiveSlotsFallback | ai_scheduler/agents/calendar_manager.py:551-566 | when the scan finds nothing, the answer is 1 to 3 weekday slots at 10:00 within three days of the fallback start, increasing |
| CalendarSlots.ScanNeverRaises | ai_scheduler/agents/calendar_manager.py:518-549 | with only naive busy times no probe of the scan raises |
| CalendarSlots.ScanRaisesAt | ai_scheduler/agents/calendar_manager.py:518-549 | a raising probe at any weekday half-hour mark of the window makes the scan raise |
| CalendarSlots.LiveSearchNaive | ai_scheduler/agents/calendar_manager.py:476-568 | with only naive busy times the live search answers, with its slots |
| CalendarSlots.LiveSearchRaises | ai_scheduler/agents/calendar_manager.py:476-568 | when the first event met ends in an aware time and the window spans more than two days from 09:00, the live search raises the mixed-comparison error |
| CalendarSlots.FindSlotsPerDay | ai_scheduler/agents/calendar_manager.py:197-270 | the loops compute exactly the per-day search, weekends skipped, with days, hours and weekdays taken in UTC: the first raising probe gives the mixed-comparison error, otherwise the slots of every day |
| CalendarSlots.DayLoop | ai_scheduler/agents/calendar_manager.py:239-265 | one day's loop raises exactly when a probe of the day raises, and otherwise yields exactly the free slots that end by 17:00 |
| CalendarSlots.DaySlotsSound | ai_scheduler/agents/calendar_manager.py:239-262 | every slot of a day starts on the half-hour grid, ends by 17:00, lasts the duration and is free |
| CalendarSlots.DaySlotsSorted | ai_scheduler/agents/calendar_manager.py:239-265 | a day's slots come in increasing order |
| CalendarSlots.DaySlotsComplete | ai_scheduler/agents/calendar_manager.py:239-265 | every free grid slot that ends by 17:00 is offered |
| CalendarSlots.PerDaySound | ai_scheduler/agents/calendar_manager.py:227-268 | every slot lies inside business hours of a weekday in the day range and is free |
| CalendarSlots.PerDayComplete | ai_scheduler/agents/calendar_manager.py:227-268 | every free grid slot on a weekday of the range is offered |
| CalendarSlots.PerDaySlotsSound | ai_scheduler/agents/calendar_manager.py:224-270 | every slot lasts the duration, is free, and is inside 09:00 to 17:00 of a weekday between the start's day and the end's day |
| CalendarSlots.PerDaySlotsComplete | ai_scheduler/agents/calendar_manager.py:224-270 | conversely every free 30-minute-grid slot inside business hours of such a weekday is offered |
| CalendarSlots.DayNeverRaises | ai_scheduler/agents/calendar_manager.py:239-265 | when every busy time is of the slots' kind no probe of a day raises |
| CalendarSlots.PerDayNeverRaises | ai_scheduler/agents/calendar_manager.py:227-268 | the same for every day of the range |
| CalendarSlots.PerDaySearchUniform | ai_scheduler/agents/calendar_manager.py:197-270 | then the per-day search answers, with the per-day slots |
| TimeHints.FirstDayFrom | ai_scheduler/agents/meeting_scheduler.py:328-345 | the first weekday name, in Monday-to-Sunday order, that occurs in the text |
| TimeHints.SelectRule | ai_scheduler/agents/meeting_scheduler.py:311-362 | the rule table, each rule exactly when the earlier ones do not apply: Thursday exactly when the text holds "thurs", otherwise the first weekday name in table order, then "next week", then "this week", else the default |
| TimeHints.ThursdayHasThurs | ai_scheduler/agents/meeting_scheduler.py:313-334 | a text naming "thursday" always matches the "thurs" rule first |
| TimeHints.ParseTimeConstraints | ai_scheduler/agents/meeting_scheduler.py:290-381 | a window exactly for string hints (anything else fails on `.lower()`); a named day gives that day's window, "next week" next week's, "this week" the as-written window ending 17:00 today, and no recognised hint [now, now + 7 days] |
| TimeHints.WeekdayWindowSpec | ai_scheduler/agents/meeting_scheduler.py:313-345 | a named day gives 10:00 to 17:00 IST on that weekday, its first occurrence from today (today only before 17:00), within a week and not over yet |
| TimeHints.DaysAheadSpec | ai_scheduler/agents/meeting_scheduler.py:336-338 | the days ahead land on the named weekday, are 0 only before 17:00 and 7 only on that day from 17:00 |
| TimeHints.NextWeekWindowSpec | ai_scheduler/agents/meeting_scheduler.py:348-359 | "next week" gives Monday 10:00 to Friday 17:00 IST of the following week, strictly after today |
| TimeHints.ThisWeekAsWrittenSpec | ai_scheduler/agents/meeting_scheduler.py:362-378 | as written: on Friday from 17:00, next Monday 10:00 to next Friday 17:00; otherwise ending 17:00 today and opening at the current hour, or tomorrow 10:00 from 17:00 on |
| TimeHints.ThisWeekInvertedAsWritten | ai_scheduler/agents/meeting_scheduler.py:364-375 | as written the window ends before it starts exactly when the hint is read at or after 17:00 IST on a day other than Friday |
| TimeHints.ThisWeekInvertedExample | ai_scheduler/agents/meeting_scheduler.py:364-375 | Monday 18:00 IST gives Tuesday 10:00 to Monday 17:00 |
| TimeHints.ThisWeekWindowSpec | ai_scheduler/agents/meeting_scheduler.py:362-378 | corrected: the window ends on a Friday at 17:00 IST within a week, is never inverted, has not ended, and opens within the current hour (later when past 17:00) |
| TimeHints.FridayEveningWindow | ai_scheduler/agents/meeting_scheduler.py:371-373 | corrected, on Friday from 17:00: the window rolls to next Monday to next Friday and has that shape |
| TimeHints.UpToFridayWindow | ai_scheduler/agents/meeting_scheduler.py:362-375 | corrected, otherwise: the window ends on the coming Friday (today when it is Friday) at 17:00 IST and keeps the same shape |
| TimeHints.FridayCloseSpec | ai_scheduler/agents/meeting_scheduler.py:370-375 | 17:00 on the coming Friday is a Friday 17:00 within six days, today exactly when today is Friday |
| TimeHints.ParsedWindowAhead | ai_scheduler/agents/meeting_scheduler.py:290-381 | as written, a window for a string hint is non-empty and not over yet, except a "this week" hint read at or after 17:00 IST on a day other than Friday: that window is inverted and already over |
| TimeHints.ParseTimeConstraintsIntended | ai_scheduler/agents/meeting_scheduler.py:362-378 | corrected: a "this week" hint gives the window ending on this week's Friday at 17:00 IST; every other hint gives what the code gives |
| TimeHints.ParsedWindowAheadIntended | ai_scheduler/agents/meeting_scheduler.py:290-381 | corrected: every window given for a string hint is non-empty and not over yet |
| MeetingScheduler.ParseText | ai_scheduler/agents/meeting_scheduler.py:103-122 | with "T" and an offset or "Z", ISO parsing with "Z" read as +00:00; without "T", a date at midnight UTC; a "T" without offset is labelled UTC |
| MeetingScheduler.ParseDatetime | ai_scheduler/agents/meeting_scheduler.py:103-122 | empty or non-text values give none; a parsed value is always aware; a datetime with a non-negative offset keeps its instant |
| MeetingScheduler.IsTimeInEvent | ai_scheduler/agents/meeting_scheduler.py:87-101 | an event blocks exactly when both of its `start.dateTime`/`end.dateTime` parse and overlap the slot half-open |
| MeetingScheduler.CalendarEntryNeverBlocks | ai_scheduler/agents/meeting_scheduler.py:87-101 | an event in the shape `get_events` returns never blocks, because its keys are StartTime/EndTime |
| MeetingScheduler.BlockingNeedsEndpoints | ai_scheduler/agents/meeting_scheduler.py:87-101 | only a dict with both `start` and `end` can block |
| MeetingScheduler.AllDayTextIsAware | ai_scheduler/agents/meeting_scheduler.py:103-122 | an all-day text from `_parse_event_datetime` is parsed as an aware ISO value |
| MeetingScheduler.NegativeOffsetShifted | ai_scheduler/agents/meeting_scheduler.py:110-119 | a datetime with a negative UTC offset is relabelled UTC and so moves by its offset |
| MeetingScheduler.NextTry | ai_scheduler/agents/meeting_scheduler.py:73-79 | the next try is the current one plus 30 minutes when that is before 17:00, otherwise 10:00 of the following day; so it is at least 30 minutes later and before 17:00 |
| MeetingScheduler.AnyBusy | ai_scheduler/agents/meeting_scheduler.py:55-58 | the requester loop reports busy exactly when some event blocks |
| MeetingScheduler.AllAttendeesFree | ai_scheduler/agents/meeting_scheduler.py:60-65 | the attendee loops report free exactly when no attendee's event blocks |
| MeetingScheduler.FindAvailableSlot | ai_scheduler/agents/meeting_scheduler.py:29-85 | the loop computes exactly the first-fit search |
| MeetingScheduler.Advance | ai_scheduler/agents/meeting_scheduler.py:73-79 | the step at the end of a try computes exactly the next candidate |
| MeetingScheduler.FirstFitEnd | ai_scheduler/agents/meeting_scheduler.py:67-71 | a found slot lasts the duration |
| MeetingScheduler.FirstFitSound | ai_scheduler/agents/meeting_scheduler.py:29-85 | a found slot is on the search path, lasts the duration, ends by the window end, is free, and every earlier candidate was busy |
| MeetingScheduler.FirstFitNone | ai_scheduler/agents/meeting_scheduler.py:29-85 | no slot means every candidate on the path was busy |
| MeetingScheduler.InScanBounds | ai_scheduler/agents/meeting_scheduler.py:48-79 | candidates lie in the window and, after the first, start before 17:00 |
| MeetingScheduler.FirstFitIgnoresCalendarEntries | ai_scheduler/agents/meeting_scheduler.py:29-101 | with only `get_events`-shaped events the first candidate is always taken |
| MeetingScheduler.DurationFromContent | ai_scheduler/agents/meeting_scheduler.py:138-144 | 60 exactly when the text says "1 hour" or "60 minutes" and not "30 minutes"; 30 otherwise |
| MeetingScheduler.EmailsOf | ai_scheduler/agents/meeting_scheduler.py:147 | fails exactly when some attendee is not a dict with an email; otherwise the emails in order |
| MeetingScheduler.AttendeeEmails | ai_scheduler/agents/meeting_scheduler.py:147 | a list gives its emails; only an empty string or empty dict, among the other values, gives none |
| MeetingScheduler.AddSender | ai_scheduler/agents/meeting_scheduler.py:149-152 | the list is kept as a prefix; the sender is appended exactly when truthy and absent |
| MeetingScheduler.AddSenderIdempotent | ai_scheduler/agents/meeting_scheduler.py:149-152 | adding the sender twice is adding once |
| MeetingScheduler.AttendeeData | ai_scheduler/agents/meeting_scheduler.py:418-470 | one projection per participant, in order |
| MeetingScheduler.BuildAttendeeData | ai_scheduler/agents/meeting_scheduler.py:418-470 | the loop builds exactly those projections |
| MeetingScheduler.CreateResponse | ai_scheduler/agents/meeting_scheduler.py:383-488 | the method builds exactly the response of the specification function |
| MeetingScheduler.ResponseFields | ai_scheduler/agents/meeting_scheduler.py:401-488 | the request's other keys are kept; event start/end are the slot's or empty; duration as text; empty metadata |
| MeetingScheduler.ResponseAttendees | ai_scheduler/agents/meeting_scheduler.py:418-473 | one entry per participant (the requester added when absent), each its events followed by the new event exactly when a slot exists |
| MeetingScheduler.ScheduledEventNeverBlocks | ai_scheduler/agents/meeting_scheduler.py:409-415 | the new event, written with StartTime/EndTime keys, could itself never block a slot |
| MeetingScheduler.ScheduleMeeting | ai_scheduler/agents/meeting_scheduler.py:124-288 | the method computes exactly the outcome function, which uses the as-written hint window and gives back the request when an attendee other than the sender is a list or dict |
| MeetingScheduler.CollectOthers | ai_scheduler/agents/meeting_scheduler.py:185-198 | the loop raises exactly when an attendee other than the sender is a list or dict, which cannot be a dict key, with the TypeError of the first such attendee; otherwise it fetches exactly every attendee but the sender, each with the events of their lookup |
| MeetingScheduler.OutcomeOnSuccess | ai_scheduler/agents/meeting_scheduler.py:133-274 | past the error paths, the unhashable attendee among them, the result is the response for the first-fit slot over the as-written parsed window, for the attendees with the sender added |
| MeetingScheduler.SelectedResponse | ai_scheduler/agents/meeting_scheduler.py:401-488 | with a slot, the response shows its start and end in IST; without one, empty times; the request's keys are kept and the duration is given as text |
| MeetingScheduler.ScheduleErrorPaths | ai_scheduler/agents/meeting_scheduler.py:133-288 | a non-text e-mail body, malformed attendees, a non-text hint, or an attendee other than the sender that is a list or dict give back the request unchanged |
| MeetingScheduler.ListEmailReturnsRequest | ai_scheduler/agents/meeting_scheduler.py:185-198 | a request whose one attendee has the list `["b@x"]` as its email gives back the request: the assignment at line 190 raises TypeError, the handler's own assignment raises again, and lines 286-288 return the request |
| MeetingScheduler.ScheduleResponse | ai_scheduler/agents/meeting_scheduler.py:133-274 | past the error paths, the unhashable attendee among them, the response keeps the request's keys, states the duration, and carries the first-fit slot over the as-written parsed window in IST, or empty times when none fits |
| MeetingScheduler.ThisWeekEveningBooksNothing | ai_scheduler/agents/meeting_scheduler.py:362-378 | past the error paths, the unhashable attendee among them, a "this week" request read at or after 17:00 IST on a day other than Friday books nothing: the response's event times are empty |
| MeetingScheduler.ScheduleWithCalendarEntries | ai_scheduler/agents/meeting_scheduler.py:170-208 | past the error paths, the unhashable attendee among them, when every lookup returns `get_events`-shaped events, the meeting is put at the window start whatever the calendars hold |
| SchedulerAgent.Emails | ai_scheduler/agents/scheduler_agent.py:94 | the attendees' emails, in order |
| SchedulerAgent.ParseRequest | ai_scheduler/agents/scheduler_agent.py:81-90 | fails exactly when an attendee has no email; the requester is appended exactly when absent, nothing else changes, and afterwards the requester is an attendee |
| SchedulerAgent.ParseRequestIdempotent | ai_scheduler/agents/scheduler_agent.py:81-90 | parsing twice is parsing once |
| SchedulerAgent.EventsFor | ai_scheduler/agents/calendar_manager.py:494-508 | one busy list per attendee, in order |
| SchedulerAgent.Decision | ai_scheduler/agents/scheduler_agent.py:110-112 | "available" exactly when there is availability, else "conflict" |
| SchedulerAgent.Draft | ai_scheduler/agents/scheduler_agent.py:114-133 | the event body: subject as summary, e-mail body as description, the slot's start and end as naive `dateTime` texts in the request's timezone, the attendees' emails in order, and the location or "" |
| SchedulerAgent.ScheduledResponse | ai_scheduler/agents/scheduler_agent.py:166-182 | status "scheduled" with the request id and the success message, and exactly one event holding exactly the slot's start and end, the attendees' emails and the subject; no suggestions and no errors |
| SchedulerAgent.ConflictResponse | ai_scheduler/agents/scheduler_agent.py:183-198 | status "conflict" with the request id and the conflict message, and one start/end record per suggested slot, in order; no events and no errors |
| SchedulerAgent.Suggestions | ai_scheduler/agents/scheduler_agent.py:185-191 | one start/end record per suggested slot, in order |
| SchedulerAgent.FourSteps | ai_scheduler/agents/scheduler_agent.py:25-52 | running the flow is four node steps |
| SchedulerAgent.Step | ai_scheduler/agents/scheduler_agent.py:25-198 | one node (`_parse_request`, `_check_availability` with its decision, `_schedule_event`, `_handle_conflict`, `_generate_response`); Step has no contract of its own and is specified by StepFollowsEdges, StepAdvances, EndIsFixed, StepKeeps, AlwaysAvailable, ScheduleUsesFirstSlot, ConflictSuggestions and ResponseStatus |
| SchedulerAgent.StepFollowsEdges | ai_scheduler/agents/scheduler_agent.py:25-52 | each node hands on along the graph's edges or raises: parse to check, check to schedule (only with availability, a non-empty slot list, slots read by key, and the first slot) or to conflict (only without availability, at most 3 suggestions), both to respond; the parsed request keeps its id and the check keeps the request |
| SchedulerAgent.StepKeeps | ai_scheduler/agents/scheduler_agent.py:25-198 | every node keeps the request id, and a response reached is "scheduled" with exactly one event (only with slots read by key) or "conflict" with suggestions |
| SchedulerAgent.StepsKeep | ai_scheduler/agents/scheduler_agent.py:25-198 | the same for any number of nodes |
| SchedulerAgent.ErrorResponse | ai_scheduler/agents/scheduler_agent.py:72-79 | status "error" with the message as message and sole error; the id is the request's, "unknown" when missing; a non-string id makes the fallback itself raise |
| SchedulerAgent.EndIsFixed | ai_scheduler/agents/scheduler_agent.py:25-52 | once the flow has responded or raised, further steps change nothing |
| SchedulerAgent.StepsFixed | ai_scheduler/agents/scheduler_agent.py:25-52 | the same, for a given number of steps |
| SchedulerAgent.Rank | ai_scheduler/agents/scheduler_agent.py:25-52 | the nodes left are zero exactly at the end |
| SchedulerAgent.StepAdvances | ai_scheduler/agents/scheduler_agent.py:25-52 | every node moves the flow closer to its end |
| SchedulerAgent.StepsEnd | ai_scheduler/agents/scheduler_agent.py:25-52 | after as many steps as the nodes left, the flow has responded or raised |
| SchedulerAgent.Terminates | ai_scheduler/agents/scheduler_agent.py:25-52 | from a received request the flow ends within four nodes |
| SchedulerAgent.AlwaysAvailable | ai_scheduler/agents/scheduler_agent.py:92-108 | the check raises the mixed-comparison error exactly when the week's search does; otherwise it always finds availability, with the search's non-empty slots |
| SchedulerAgent.SearchNaive | ai_scheduler/agents/scheduler_agent.py:92-108 | when the attendees' calendars hold only naive times, the search answers |
| SchedulerAgent.SearchAware | ai_scheduler/agents/scheduler_agent.py:92-108 | when the first event met in the week ends in an aware time, the search raises the mixed-comparison error |
| SchedulerAgent.ScheduleUsesFirstSlot | ai_scheduler/agents/scheduler_agent.py:114-144 | the first slot is booked; without a session the event lists the attendees and the slot's start; location defaults to "" |
| SchedulerAgent.ConflictSuggestions | ai_scheduler/agents/scheduler_agent.py:146-164 | the mixed-comparison error when the search from now + 1 day to now + 14 days raises; otherwise 1 to 3 suggestions, a prefix of that search |
| SchedulerAgent.ResponseStatus | ai_scheduler/agents/scheduler_agent.py:166-198 | "scheduled" with one event exactly after a booking, "conflict" with the suggestions otherwise, always with the request id |
| SchedulerAgent.InvalidRequest | ai_scheduler/agents/scheduler_agent.py:63-79 | a request the record rejects gets the error response with the validation message, "unknown" without an id, and raises when the id is not a string |
| SchedulerAgent.RunWith | ai_scheduler/agents/scheduler_agent.py:54-79 | `schedule` raises exactly when the request has a non-string id; otherwise the answer carries the request's id ("unknown" without one) and the status "scheduled", "conflict" or "error"; any status but "error" needs a request that validates; "scheduled" only with slots read by key and with exactly one event; "conflict" always with suggestions |
| SchedulerAgent.RunAsWritten | ai_scheduler/agents/scheduler_agent.py:54-198 | the agent as written never answers "scheduled" |
| SchedulerAgent.Run | ai_scheduler/agents/scheduler_agent.py:54-198 | with slots read by key, a "scheduled" answer has exactly one event and a "conflict" answer has suggestions |
| SchedulerAgent.RunAsWrittenAlwaysFails | ai_scheduler/agents/scheduler_agent.py:54-144 | as written a valid request ends in the error response: the mixed-comparison message when the week's search raises, otherwise "'dict' object has no attribute 'start_time'", which is always the case when the week's calendars hold only naive times |
| SchedulerAgent.RunSchedulesFirstSlot | ai_scheduler/agents/scheduler_agent.py:54-198 | with the slot read by key: the error response when the week's search raises; otherwise the request is scheduled on the first slot of that search, with the request id, for the attendees including the requester |
| SchedulerAgent.RunRaisesOnAwareEvents | ai_scheduler/agents/scheduler_agent.py:54-108 | when the first event met in the week ends in an aware time, the run ends in the error response with the mixed-comparison message |

## Left out

- Google OAuth, token files, the Calendar API and `service_my.py` are I/O. A session is an opaque value. A listing or an insert is an input, or `None` when it raises.
- `GoogleCalendarManager.get_service_for_user` and `load_all_credentials` read files. Their outcome is the `loaded` parameter.
- `_get_mock_events` is fixture data, and so is the first, shadowed `create_event` at `calendar_manager.py:272-311`. The fixture events are an input.
- `CalendarManager.GetEvents` takes the converted listing as an input. It does not model the per-item conversion loop at `calendar_manager.py:167-190`, which skips items that fail. `Calendar.CalendarEntry` still states the shape of a converted item.
- The two `find_available_slots` take per-attendee busy intervals that are already parsed. Left out are:
  - fetching the events;
  - the choice between a session and the mock events;
  - the exception handling;
  - parsing `StartTime`/`EndTime` with `fromisoformat`.
- `SchedulerAgent` abstracts the same lookups as a function from attendee and window to busy intervals.
- `fromisoformat`/`strptime` are abstract parameters (`MeetingScheduler.Parsers`). The format dispatch around them is modelled.
- `isoformat()` text is not generated. `JTime` stands for it.
- `Text.Lower` folds ASCII letters only, not all of Unicode.
- `llm_service.py` and the LLM are not part of this model. Neither are logging, `print` and the `reminders` field of the event body.
- LangGraph's state merging is not modelled. The workflow is an explicit transition function that passes each node's output to the next, as the node functions expect.
- `SchedulerAgent.ParseRequest`: the in-place `append` to `state.attendees` is modelled on values, so aliasing of the request object is not captured.
- `SchedulerAgent.RunWith`: the final `result.dict()` is not modelled. The response record is the result.
- Pydantic type coercion (for example an int given for a string field) is not modelled. Only values of the declared type validate.
- The second `try` in `schedule_meeting` (`meeting_scheduler.py:276-284`) is never reached, because nothing in its body raises. It is not modelled.
- The exception messages of pydantic and Python are opaque strings.
- Whether an event time is aware is an input flag of each busy interval. The text parsing that decides it is left out with `fromisoformat`.
- CalendarSlots.FindSlotsPerDay: an aware window is taken at offset +00:00. The source takes midnight, 09:00, 17:00 and `weekday()` in the window's own offset (`calendar_manager.py:224-237`), so the model is exact only for naive or UTC windows. This definition is shadowed by the live one, and no caller passes it a window.
- Python datetimes span the years 1 to 9999, while instants here are unbounded integers. `duration_minutes` accepts any integer (`schemas.py:47`), and a huge one (10**10, say) makes `current_date + timedelta(minutes=duration_minutes)` at `calendar_manager.py:521` raise `OverflowError` "date value out of range", which `schedule` turns into its error response (`scheduler_agent.py:72-79`). The model does not raise there, nor at any other datetime arithmetic that leaves that range.
- SchedulerAgent.RunSchedulesFirstSlot: for a duration whose slot ends beyond the year 9999 the source answers with the error response, not the booking this lemma states; it holds for durations whose slots stay within the datetime range.
- SchedulerAgent.RunAsWrittenAlwaysFails: for such a duration the message is the `OverflowError` one, not the one this lemma names.
- Both callers of the live `find_available_slots` pass naive windows. The search is modelled for naive candidates only. `FindSlotsPerDay` takes the candidates' kind as a parameter.

## Findings

| source | as written | input that shows it | evidently intended | confidence | as-written member | corrected member |
|---|---|---|---|---|---|---|
| ai_scheduler/agents/meeting_scheduler.py:364-375 | "this week" ends at 17:00 IST today, although the days to Friday are computed | Monday 18:00 IST: the window runs from Tuesday 10:00 to Monday 17:00, which is inverted | end on this week's Friday at 17:00 IST | high (not executed) | `TimeHints.ThisWeekInvertedAsWritten` | `TimeHints.ParsedWindowAheadIntended` |
| ai_scheduler/agents/scheduler_agent.py:123 | the slot from `find_available_slots` is a dict, but it is read as `slot.start_time` (also at lines 177 and 187) | a valid request with an ordinary duration (one whose slot ends within the datetime range) whose attendees' calendars for the week hold only naive times, or no timed events at all: the search answers with at least one slot, and the attribute access raises | use `slot["start_time"]` and `slot["end_time"]`, which already hold `isoformat()` texts, as the `dateTime` values | high (not executed) | `SchedulerAgent.RunAsWrittenAlwaysFails` | `SchedulerAgent.RunSchedulesFirstSlot` |

`TimeHints.ParseTimeConstraints` is the code as written. With `TimeHints.ThisWeekWindowAsWritten` it gives the inverted window (`TimeHints.ThisWeekAsWrittenSpec`, `TimeHints.ThisWeekInvertedExample`, `TimeHints.ParsedWindowAhead`), and `MeetingScheduler.ThisWeekEveningBooksNothing` shows what follows from it. `TimeHints.ParseTimeConstraintsIntended` uses the corrected `TimeHints.ThisWeekWindow` (`TimeHints.ThisWeekWindowSpec`).

`SchedulerAgent.RunAsWritten` uses attribute access. `SchedulerAgent.Run` reads slots by key. Both keep the mixed-comparison error of the search, which is not a finding: a correction would have to choose between aware and naive candidates, and all-day events are naive.
