/**
  The Google Calendar event `schedule_event` inserts, and how it reads the id back. The insert
  call itself is an effect of the calendar tool.
*/
module Gcal {
  import opened Wrappers
  import opened Json

  const DefaultTimezone: string := "UTC"

  /** The conference request attached when there are attendees (a Google Meet link). */
  const ConferenceData: Json :=
    JObj(map["createRequest" := JObj(map["conferenceSolutionKey" := JObj(map["type" := JStr("hangoutsMeet")]),
                                         "requestId" := JStr("randomString")])])

  /** `[{"email": a} for a in attendees]`. */
  function AttendeeList(attendees: seq<Json>): (r: seq<Json>)
    ensures |r| == |attendees|
    ensures forall i :: 0 <= i < |r| ==> r[i] == JObj(map["email" := attendees[i]])
  {
    if |attendees| == 0 then [] else [JObj(map["email" := attendees[0]])] + AttendeeList(attendees[1..])
  }

  /** An event end point: the time and the shared time zone. */
  function EventTime(dateTime: string, timezone: Json): Json
  {
    JObj(map["dateTime" := JStr(dateTime), "timeZone" := timezone])
  }

  /** The time an end point carries, read back. */
  lemma EventTimeText(dateTime: string, timezone: Json)
    ensures var t := EventTime(dateTime, timezone);
      t.JObj? && "dateTime" in t.fields && t.fields["dateTime"] == JStr(dateTime)
  {
  }

  /**
    The event dict: summary, start and end (same time zone), the attendee list, and the
    conference request exactly when there are attendees. `Err` where the attendees cannot be
    iterated.
  */
  function EventFields(summary: Json, startTime: string, endTime: string, attendees: Json, timezone: Json)
    : (r: Result<map<string, Json>>)
    ensures r.Ok? <==> Iterate(attendees).Some?
    ensures r.Ok? ==>
      var e := r.value;
      {"summary", "start", "end", "attendees"} <= e.Keys <= {"summary", "start", "end", "attendees", "conferenceData"}
      && e["summary"] == summary
      && e["start"] == EventTime(startTime, timezone) && e["end"] == EventTime(endTime, timezone)
      && e["attendees"] == JArr(AttendeeList(Iterate(attendees).value))
      && ("conferenceData" in e <==> Truthy(attendees))
      && ("conferenceData" in e ==> e["conferenceData"] == ConferenceData)
  {
    var items := Iterate(attendees);
    if items.None? then Err("object is not iterable")
    else
      var event := map["summary" := summary, "start" := EventTime(startTime, timezone),
                       "end" := EventTime(endTime, timezone), "attendees" := JArr(AttendeeList(items.value))];
      if Truthy(attendees) then Ok(event["conferenceData" := ConferenceData]) else Ok(event)
  }

  /** The conference request is there exactly when at least one attendee is invited. */
  lemma ConferenceIffAttendees(summary: Json, startTime: string, endTime: string, attendees: Json, timezone: Json)
    requires Iterate(attendees).Some?
    ensures var e := EventFields(summary, startTime, endTime, attendees, timezone).value;
      "conferenceData" in e <==> |e["attendees"].items| > 0
  {
    IterateTruthy(attendees);
  }

  /** The event dict built in place: the base fields first, the conference request added when there are attendees. */
  method BuildEvent(summary: Json, startTime: string, endTime: string, attendees: Json, timezone: Json)
    returns (r: Result<map<string, Json>>)
    ensures r == EventFields(summary, startTime, endTime, attendees, timezone)
  {
    var items := Iterate(attendees);
    if items.None? {
      return Err("object is not iterable");
    }
    var event := map["summary" := summary, "start" := EventTime(startTime, timezone),
                     "end" := EventTime(endTime, timezone), "attendees" := JArr(AttendeeList(items.value))];
    if Truthy(attendees) {
      event := event["conferenceData" := ConferenceData];
    }
    r := Ok(event);
  }

  /** `event["id"]` of the inserted event as the API returns it; `Err` where there is no such key. */
  function EventId(inserted: Json): (r: Result<Json>)
    ensures r.Ok? <==> inserted.JObj? && "id" in inserted.fields
    ensures r.Ok? ==> r.value == inserted.fields["id"]
  {
    if inserted.JObj? && "id" in inserted.fields then Ok(inserted.fields["id"]) else Err("KeyError: 'id'")
  }
}
