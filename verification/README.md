# HR agent (Maria) — a Dafny model of its own logic

Maria is an onboarding assistant. A language model chooses among twelve tools. The tools send mail
through Gmail, book Google Calendar events and call the BambooHR API. A Streamlit page keeps the
conversation and five onboarding flags.

This project models the parts of that program that are its own logic, one module per source file:

- **OutputParser** — how a decoded model reply becomes a final answer or a tool call.
- **Executor** — the prompt variables: tool list, tool names and today's date. Also the stop
  sequence and the tool-response template.
- **Ansi** — removal of ANSI escape sequences from captured output.
- **BambooHttp** — the BambooHR request: its Basic-auth header, URL and query encoding.
  Also working-day counting and the status and `Location` checks.
- **TimeOff** and **Employees** — the payloads and response checks of the BambooHR calls.
- **Gcal** — the calendar event dict.
- **Gmail** — the e-mail structure, the content-type choice and the `raw` payload.
- **Tools** — every tool's `_run`, with its external calls recorded in order in an effect trace.
  Also the tool registry.
- **Session** — the chat page's session state, as a class. Its methods are
  `init_session_state`/reset, `store_message`, the status callbacks and `handle_chat_input`.

Supporting modules:

- **Wrappers** — `Option` and `Result`.
- **Json** — JSON values and Python truthiness.
- **Text** — join, split, `str.split()` words, `strip`, integer text.
- **Encoding** — UTF-8 and Base64 (section 4 of RFC 4648 and its URL-safe alphabet, section 5).
- **Dates** — proleptic Gregorian day numbers, `strftime`/`strptime` with `%Y-%m-%d`, and `isoformat`/`fromisoformat` (the forms Python 3.11 and later read).
- **Effects** — the `World` class. It holds the trace of external calls and the oracles that answer
  them: HTTP replies, mail delivery, the calendar insert and the policy answer.

External calls, the clock and the file system are parameters. An HTTP call is a trace entry whose
response comes from the oracle `httpReply`. Today's date is the field `today` of `Tools.Env`.
`json.loads` is the function `loads`, which returns `None` where Python raises. The language model's
run of the agent loop is the value `Session.AgentRun`: the callbacks it fired, what it printed, and
its answer or exception.

## Model

| member | source | states |
|---|---|---|
| OutputParser.Parse | app/agent/output_parser.py:15-30 | every result carries the raw text as its log; every failure is the one parser exception built from the raw text; undecodable text and the empty list fail |
| OutputParser.ParseListUsesFirst | app/agent/output_parser.py:18-21 | a decoded list is parsed exactly as its first element, the rest ignored |
| OutputParser.ParseListOfNonObjectFails | app/agent/output_parser.py:18-23 | only one level of list unwrapping: a list whose head is not an object fails |
| OutputParser.ParseFinishIff | app/agent/output_parser.py:23-24 | the result is `Finish` iff `tool` is `"respond_tool"` and `tool_input` is present, and its output is then `tool_input` |
| OutputParser.ParseActionIff | app/agent/output_parser.py:25-28 | the result is `Action` iff `tool` is present and is not `"respond_tool"`; its input is `tool_input`, or `{}` when absent |
| OutputParser.ParseFailsIff | app/agent/output_parser.py:16-30 | parsing fails exactly for undecodable text, an empty list, a non-object (head), a missing `tool`, or `respond_tool` without `tool_input` |
| OutputParser.ParseErrorCarriesText | app/agent/output_parser.py:29-30 | the exception message ends with the raw text |
| Executor.ToolLines | app/agent/executor.py:27 | one `name: description` line per tool, in registry order |
| Executor.NameList | app/agent/executor.py:28 | one name per tool, in registry order |
| Executor.ToolStrings | app/agent/executor.py:27 | empty for no tools; a single tool gives its own line |
| Executor.ToolNames | app/agent/executor.py:28 | empty for no tools; a single tool gives its own name |
| Executor.ToolStringsAppend | app/agent/executor.py:27 | a tool added at the end adds `"\n"` and its line at the end of `tool_strings` |
| Executor.ToolNamesAppend | app/agent/executor.py:28 | a tool added at the end adds `", "` and its name at the end of `tool_names` |
| Executor.PromptDate | app/agent/executor.py:30 | the first ten characters of `isoformat()` are the `YYYY-MM-DD` date |
| Executor.PromptFor | app/agent/executor.py:29-46 | the prompt gets the date, the names and the tool lines; `input` and `chat_history` pass through unchanged |
| Executor.SingleField | app/agent/executor.py:15-22 | the `{observation}` field follows a prefix with no brace, and the fixed suffix follows it |
| Executor.ObservationIn | app/agent/executor.py:15-22 | an observation is read back exactly when the text has the template's prefix and suffix |
| Executor.ToolResponseRoundTrip | app/agent/executor.py:15-22 | a filled template gives back its observation, whatever it contains |
| Ansi.NoAnsi | app/utils.py:16-17 | removing escape sequences never lengthens the text |
| Ansi.NoAnsiIsSubsequence | app/utils.py:17 | the output is obtained from the input by deleting characters only |
| Ansi.NoAnsiLeavesNoMatch | app/utils.py:16-17 | no ESC followed later by `m` survives |
| Ansi.NoAnsiIdempotent | app/utils.py:16-17 | stripping twice is stripping once |
| Ansi.NoAnsiWithoutMatch | app/utils.py:16-17 | text with no match of `\x1b[^m]*m` is unchanged |
| Ansi.NoAnsiWithoutEsc | app/utils.py:16-17 | text with no ESC is unchanged |
| Ansi.NoAnsiTailWithoutM | app/utils.py:16 | a tail with no `m` is kept as it is, whatever ESCs it holds |
| Ansi.NoAnsiPlainPrefix | app/utils.py:16-17 | a prefix with no ESC is kept and the rest is stripped on its own |
| Ansi.NoAnsiColoured | app/utils.py:7-17 | `"\x1b[31m" + t + "\x1b[0m"` with no ESC in `t` becomes `t` |
| Text.Strip | app/utils.py:34-35 | the captured output is a slice of the text, with only whitespace cut at either end and non-whitespace ends |
| BambooHttp.AuthorizationHeader | app/integrations/bamboo/utils.py:19-21 | the header starts with `"Basic "` |
| BambooHttp.AuthorizationHeaderDecodes | app/integrations/bamboo/utils.py:19-21 | the rest of the header Base64-decodes to the UTF-8 bytes of `API_KEY + ":x"` |
| BambooHttp.BambooRequest | app/integrations/bamboo/utils.py:18-27 | URL = base URL + path; exactly the `Authorization` and `accept: application/json` headers; verb and body as given |
| BambooHttp.ExpectStatus | app/integrations/bamboo/time_off.py:34-35 | succeeds iff the status is the expected one; otherwise the given message |
| BambooHttp.ResponseJson | app/integrations/bamboo/time_off.py:87 | `res.json()` succeeds iff there is a JSON body, and returns it |
| BambooHttp.LocationIdIsLastSegment | app/integrations/bamboo/time_off.py:122 | the id is a suffix of `Location` with no `/`, preceded by `/` when shorter |
| BambooHttp.QuotePlusRoundTrip | app/integrations/bamboo/time_off.py:80-81 | `urlencode`'s quoting of any bytes decodes back to those bytes |
| BambooHttp.QuotePlusPlain | app/integrations/bamboo/time_off.py:80-81 | letters, digits and `_.-~` are not quoted |
| BambooHttp.UrlEncodeSplits | app/integrations/bamboo/time_off.py:80-81 | the query string splits at `&` into one `key=value` pair per parameter, in order |
| BambooHttp.CountWorkingDays | app/integrations/bamboo/utils.py:37-44 | 0 when end ≤ start; at most end − start |
| BambooHttp.CountWorkingDaysIsSetSize | app/integrations/bamboo/utils.py:40-42 | the count is the number of days in [start, end) whose day number mod 7 is in {0,…,4} |
| BambooHttp.CountWorkingDaysAdditive | app/integrations/bamboo/utils.py:37-44 | count(a, c) = count(a, b) + count(b, c) for a ≤ b ≤ c |
| BambooHttp.CountWorkingDaysWeek | app/integrations/bamboo/utils.py:37-44 | any seven consecutive days count 5 |
| BambooHttp.CountWorkingDaysWeeks | app/integrations/bamboo/utils.py:37-44 | k whole weeks count 5k |
| BambooHttp.CountWorkingDaysBetween | app/integrations/bamboo/utils.py:31-44 | defined iff both `YYYY-MM-DD` strings parse, and then the count between their day numbers |
| BambooHttp.WorkingDaysCountsSaturday | app/integrations/bamboo/utils.py:39-42 | as written, Saturday 2024-01-06 (day 19728) counts as a working day and Tuesday 2024-01-09 (day 19731) does not |
| BambooHttp.WeekendDiscrepancy | app/integrations/bamboo/utils.py:39-42 | on the weekend 2024-01-06/07 the code counts 2 where Monday-to-Friday counts 0 |
| BambooHttp.CountMondayToFriday | app/integrations/bamboo/utils.py:39 | the intended count: 0 when end ≤ start |
| BambooHttp.MondayToFridayIsSetSize | app/integrations/bamboo/utils.py:39 | the intended count is the number of days Monday to Friday in [start, end) |
| BambooHttp.MondayToFridayWeek | app/integrations/bamboo/utils.py:39 | seven consecutive days hold five such days |
| BambooHttp.MondayToFridayIsShiftedCount | app/integrations/bamboo/utils.py:40-42 | the intended count is the code's count shifted by three days |
| TimeOff.AddPolicyRequest | app/integrations/bamboo/time_off.py:21-32 | PUT `/employees/{id}/time_off/policies` with a one-entry list: policy id 3 and the accrual start date |
| TimeOff.AddPolicyOutcome | app/integrations/bamboo/time_off.py:34-35 | succeeds iff the status is 200; otherwise "Error adding time off policy" |
| TimeOff.AddBalanceRequest | app/integrations/bamboo/time_off.py:48-57 | PUT `/employees/{id}/time_off/balance_adjustment` with type 78, today's `YYYY-MM-DD` and 25 × 8 = 200 hours |
| TimeOff.AddBalanceOutcome | app/integrations/bamboo/time_off.py:59-60 | succeeds iff the status is 201; otherwise "Error modifying time off balance" |
| TimeOff.RequestsWindow | app/integrations/bamboo/time_off.py:76-79 | the window runs from today to the date 365 days later; it fails iff that date would pass 9999-12-31 |
| TimeOff.GetRequestsRequest | app/integrations/bamboo/time_off.py:76-85 | GET `/time_off/requests/?` + the encoded `start`, `end`, `employeeId`, with no body |
| TimeOff.RequestsQueryWindow | app/integrations/bamboo/time_off.py:76-81 | the query's first two pairs are `start=<today>` and `end=<today + 365>`, unquoted |
| TimeOff.GetRequestsOutcome | app/integrations/bamboo/time_off.py:87 | the decoded body, whatever the status |
| TimeOff.AddRequestRequest | app/integrations/bamboo/time_off.py:102-117 | built iff `strptime(…, "%Y-%m-%d")` reads both dates (padded or not); status `"requested"`, start and end as given, type 78, amount 8 × (end − start) days |
| TimeOff.AddRequestAmount | app/integrations/bamboo/time_off.py:102-109 | a request over n days asks for 8n hours (0 for a same-day request) |
| TimeOff.AddRequestOutcome | app/integrations/bamboo/time_off.py:119-122 | a non-201 status raises; otherwise the id is the last `/` segment of `Location`, with no `/` |
| TimeOff.CancelRequest | app/integrations/bamboo/time_off.py:136-141 | PUT `/time_off/requests/{id}/status` with status `"canceled"` |
| TimeOff.CancelOutcome | app/integrations/bamboo/time_off.py:143-144 | succeeds iff the status is 200; otherwise "Error cancelling time off request" |
| TimeOff.EstimateRequest | app/integrations/bamboo/time_off.py:161-165 | GET `/employees/{id}/time_off/calculator/?end=…` with no body |
| TimeOff.EstimateOutcome | app/integrations/bamboo/time_off.py:167-170 | the decoded body iff the status is 200; otherwise "Error getting time off balance" |
| Employees.GetEmployeeRequest | app/integrations/bamboo/employees.py:30-36 | GET `/employees/{id}/?fields=` + the fields joined by `,` |
| Employees.GetEmployeeFieldsReadBack | app/integrations/bamboo/employees.py:30-31 | the encoded field list decodes and splits back into the fields, in order |
| Employees.GetEmployeeOutcome | app/integrations/bamboo/employees.py:38-41 | the decoded body iff the status is 200; otherwise "Error getting employee" |
| Employees.AddEmployeeRequest | app/integrations/bamboo/employees.py:62-72 | POST `/employees` with exactly firstName, lastName, homeEmail = the e-mail, location "London, UK" and hireDate |
| Employees.AddEmployeeOutcome | app/integrations/bamboo/employees.py:73-77 | a non-201 status raises; otherwise the id is the last `/` segment of `Location` |
| Employees.EditFields | app/integrations/bamboo/employees.py:102-108 | the payload holds exactly the truthy fields, under firstName, lastName and homeEmail |
| Employees.EditData | app/integrations/bamboo/employees.py:102-108 | the in-place insertions build exactly that payload |
| Employees.EditEmployeeRequest | app/integrations/bamboo/employees.py:99-114 | no truthy field raises "At least one field must be provided" before any request; otherwise POST `/employees/{id}/` with a non-empty payload |
| Employees.EditOutcome | app/integrations/bamboo/employees.py:116-117 | succeeds iff the status is 200; otherwise "Error editing employee" |
| Gcal.AttendeeList | app/integrations/gcal.py:40 | one `{"email": a}` per attendee, in order |
| Gcal.EventFields | app/integrations/gcal.py:30-49 | built iff the attendees iterate (a list or a string); summary and times pass through; start and end share the time zone; one `{"email": a}` per attendee; `conferenceData` iff the attendees are truthy |
| Gcal.ConferenceIffAttendees | app/integrations/gcal.py:43-49 | the conference request is there iff the attendee list is non-empty |
| Gcal.BuildEvent | app/integrations/gcal.py:30-49 | the in-place construction gives that event |
| Gcal.EventId | app/integrations/gcal.py:57 | the result is the inserted event's `id`, and fails when there is none |
| Gmail.ContentType | app/integrations/gmail.py:33-35 | `application/octet-stream` when no type or an encoding was guessed; else the guessed type |
| Gmail.AttachmentForParts | app/integrations/gmail.py:33-54 | the type splits at its first `/`; the file name is the path's last segment |
| Gmail.AddAttachment | app/integrations/gmail.py:56-59 | the result is the given multipart message with one more part; the message passed in is a value and is not changed |
| Gmail.PathPart | app/integrations/gmail.py:89-92 | a missing file raises "File … not found"; an existing one becomes its attachment |
| Gmail.CollectOrder | app/integrations/gmail.py:88-92 | attaching succeeds iff every part does, and gives one part per path, in order |
| Gmail.AttachmentsForOrder | app/integrations/gmail.py:88-92 | every path must be an existing file with a usable type; the parts follow the paths' order |
| Gmail.CollectErrPrefix | app/integrations/gmail.py:88-92 | the first failure stops the loop: later paths do not matter |
| Gmail.MessageShape | app/integrations/gmail.py:82-96 | no attachments: one text part; otherwise the body first, then each file in order; headers `to`, `from`, `subject` |
| Gmail.BuildMessage | app/integrations/gmail.py:82-96 | the loop builds exactly that message, or raises at the first unusable path |
| Gmail.Payload | app/integrations/gmail.py:98 | `raw` is the only key, of Base64 length |
| Gmail.PayloadDecodes | app/integrations/gmail.py:98 | `raw` decodes (URL-safe Base64) back to the serialised message |
| Encoding.Base64RoundTrip | app/integrations/gmail.py:98 | Base64 decoding undoes encoding, in both alphabets |
| Dates.ParseDate | app/integrations/bamboo/utils.py:33-34 | the strict `YYYY-MM-DD` reader gives only valid dates (years 1 to 9999, real days of the month) |
| Dates.ParseFormatDate | app/integrations/bamboo/utils.py:33-34 | the strict reader reads back any date written by `strftime("%Y-%m-%d")` |
| Dates.FormatParsedDate | app/integrations/bamboo/utils.py:33-34 | any text the strict reader accepts is exactly the `strftime("%Y-%m-%d")` text of the date it reads, so that reading pins the text |
| Dates.StrptimeDate | app/integrations/bamboo/time_off.py:102-104 | `strptime(s, "%Y-%m-%d")` gives only valid dates |
| Dates.StrptimePadded | app/integrations/bamboo/time_off.py:102-104 | on zero-padded `YYYY-MM-DD` text, `strptime` reads the same date as the strict reader |
| Dates.StrptimeFormatDate | app/integrations/bamboo/time_off.py:102-104 | `strptime` reads back any date written by `strftime("%Y-%m-%d")` |
| Dates.StrptimeUnpadded | app/integrations/bamboo/time_off.py:102-104 | `"2024-1-6"` is read as 2024-01-06 |
| Dates.StrptimeSpacePadded | app/integrations/bamboo/time_off.py:102-104 | `"2024-01- 6"` is read as 2024-01-06 |
| Dates.StrptimeRefusals | app/integrations/bamboo/time_off.py:102-104 | `"2024-02-30"` (no such day) and `"2024-01-061"` (text left over) raise |
| Dates.AddDays | app/agent/tools.py:289-291 | `date + timedelta(days=n)` gives a valid date, and fails iff the result would pass 9999-12-31 |
| Dates.AddDaysNumber | app/agent/tools.py:289-291 | adding n days moves the day number by n |
| Dates.LastDayNumber | app/agent/tools.py:289-291 | no valid date comes after 9999-12-31 |
| Dates.MinusOneHour | app/agent/tools.py:139-145 | subtracting one hour moves the instant back 3600 s; fails only at the first hour of year 1 |
| Dates.ParseIsoDateTime | app/agent/tools.py:139-145 | `fromisoformat` gives only valid date-times, with offsets of less than a day |
| Dates.ParseOffset | app/agent/tools.py:139-145 | an offset read is less than a day either way |
| Dates.FractionMicros | app/agent/tools.py:139-145 | a fraction of a second reads as fewer than a million microseconds |
| Dates.FractionExamples | app/agent/tools.py:139-145 | `.5` is 500000 µs; `.1234567` is 123456 µs (digits past the sixth dropped) |
| Dates.ParseClockText | app/agent/tools.py:150-151 | the time of day `isoformat` writes reads back as that time |
| Dates.ParseOffsetText | app/agent/tools.py:150-151 | the offset `isoformat` writes (`±HH:MM`, `:SS` when needed) reads back as that offset |
| Dates.ParseIsoPieces | app/agent/tools.py:139-145 | a date, any separator, a time of day and an offset read as the moment they describe |
| Dates.ParseIsoFormat | app/agent/tools.py:139-151 | `fromisoformat` reads back what `isoformat` writes, offset included |
| Dates.ParseIsoHourZulu | app/agent/tools.py:139-145 | `"2024-01-06 10Z"` is 10:00 on that day at offset 0 |
| Dates.BasicOffset | app/agent/tools.py:139-145 | the basic offset `"-0130"` is −5400 s |
| Dates.ParseIsoHour24 | app/agent/tools.py:139-145 | hour 24 is refused |
| Text.WordsJoin | app/main.py:175 | `str.split()` of words joined by single spaces gives back those words |
| Text.JoinSplitOn | app/main.py:206 | splitting at a character and joining with it gives back the text |
| Tools.NameInjective | app/agent/tools.py:298-312 | two tools have the same name iff they are the same tool |
| Tools.AllTools | app/agent/tools.py:298-312 | twelve tools, pairwise distinct, `respond_tool` first, none with a callback |
| Tools.AllToolsComplete | app/agent/tools.py:298-312 | every tool is in the registry |
| Tools.Fired | app/agent/tools.py:54-55 | a tool fires its callback exactly once if it has one, and otherwise not at all |
| Tools.RespondText | app/agent/tools.py:31-32 | `respond_tool` returns its input unchanged |
| Tools.SendMail | app/agent/tools.py:40-57 | an unbuildable message raises with no effect; a sent message is followed by the callback only when delivered |
| Tools.WelcomeEmailRun | app/agent/tools.py:40-57 | sends the welcome mail; the callback fires after delivery only; the reply names the recipient |
| Tools.PolicyEmailRun | app/agent/tools.py:65-83 | a missing policies file raises with no effect; else the mail with the PDF, then the callback |
| Tools.PolicyMessage | app/agent/tools.py:65-83 | the policies mail is the body followed by the PDF, and is built iff the PDF is attachable |
| Tools.SlackInviteRun | app/agent/tools.py:91-108 | sends the invite mail; the callback fires after delivery only |
| Tools.Field | app/agent/tools.py:139-152 | `d[key]` succeeds iff `d` is an object with that key |
| Tools.ShiftedIso | app/agent/tools.py:139-145 | the new time parses back, keeps the UTC offset and is exactly one hour earlier; the text is `isoformat`'s own spelling of that moment (`T` separator, `HH:MM:SS[.ffffff]`, `±HH:MM[:SS]` offset) |
| Tools.TimezoneOf | app/agent/tools.py:153 | the given `timezone`, else `"UTC"` |
| Tools.CalendarEventFor | app/agent/tools.py:139-154 | the event is built iff the keys are present, both times shift and the attendees iterate; it is then `EventFields` of the shifted times and `timezone` or `"UTC"` |
| Tools.CalendarEventKeepsDuration | app/agent/tools.py:139-145 | shifting both ends by one hour keeps the event's duration |
| Tools.PublishEvent | app/agent/tools.py:147-159 | the event is inserted; the callback fires only after an insert that returns an id |
| Tools.CalendarEventRun | app/agent/tools.py:125-159 | invalid JSON returns the fixed message with no effect and no callback; a malformed event raises with no effect |
| Tools.VacationStepsCases | app/agent/tools.py:182-194 | the vacation set-up succeeds iff both calls do; the policy, then the balance, then the callback; a failed policy call sends nothing more, a failed balance call fires no callback, and the first failure is the error |
| Tools.GrantVacation | app/agent/tools.py:182-194 | performing the set-up on the world gives exactly the result and the calls of `VacationSteps` |
| Tools.OnboardStepsCases | app/agent/tools.py:179-194 | setting up a new employee succeeds iff all three calls do, with the new id; add_employee, the policy with accrual start = hire date = today, the balance, then the callback; each failure gives its error, the exact calls sent before it and no callback |
| Tools.Onboard | app/agent/tools.py:179-194 | performing it on the world gives exactly the result and the calls of `OnboardSteps` |
| Tools.AddEmployeeRun | app/agent/tools.py:173-196 | invalid JSON: the fixed message, no effect; a missing key raises `KeyError`, no effect; otherwise the calls of `OnboardSteps`, its error, or on success the reply with the new id |
| Tools.PolicyQuestionRun | app/agent/tools.py:203-220 | one policy question, searched with the fixed query; the answer between newlines |
| Effects.World.AskPolicy | app/agent/tools.py:205-218 | one policy question appended to the trace; the answer comes from the oracle |
| Tools.Kwargs | app/agent/tools.py:240 | `f(**d)` binds iff `d` is an object with only known and all required keys |
| Tools.Optional | app/agent/tools.py:240 | a keyword argument not passed is `None` |
| Tools.EditArgs | app/agent/tools.py:240 | the bound arguments include `employee_id` and only known names |
| Tools.EditRequestFor | app/agent/tools.py:240 | the edit request carries the given fields for that employee |
| Tools.ModifyEmployeeRun | app/agent/tools.py:234-242 | invalid JSON: fixed message, no effect; no field given: raises with no effect; else one POST and the reply |
| Tools.ViewTimeOffRun | app/agent/tools.py:249-250 | one GET of the requests from today to a year ahead; the reply embeds the body |
| Tools.TimeOffRequestFor | app/agent/tools.py:268-269 | a request is built iff the input is an object with exactly the three keys and two date strings `strptime` reads; it is then `add_time_off_request`'s request |
| Tools.TimeOffRequestForDates | app/agent/tools.py:268-269 | an input with dates written by `strftime` n days apart asks for 8n hours |
| Tools.MakeTimeOffRun | app/agent/tools.py:263-270 | invalid JSON: fixed message, no effect; else one PUT and the reply with the new id |
| Tools.CancelTimeOffRun | app/agent/tools.py:277-281 | one PUT; succeeds iff the status is 200 |
| Tools.EstimateDate | app/agent/tools.py:289-291 | defined iff today + 365 days does not pass 9999-12-31; then the strict zero-padded reader reads the text as the date 365 days after today (so, by `Dates.FormatParsedDate`, it is that date's `strftime` text), and `strptime` reads it back as the same day |
| Tools.EstimateTimeOffRun | app/agent/tools.py:288-295 | past year 9999 it raises with no effect; else one GET of the calculator up to that date; the reply embeds the body |
| Effects.World.Http | app/integrations/bamboo/utils.py:27 | one request appended to the trace; the reply comes from the oracle |
| Effects.World.Mail | app/integrations/gmail.py:101-128 | one message appended to the trace |
| Effects.World.InsertEvent | app/integrations/gcal.py:51-55 | one insert appended to the trace |
| Effects.World.Callback | app/agent/tools.py:54-55 | one callback appended to the trace |
| Session.RaiseAll | app/main.py:141-154 | callbacks only raise flags; `enrolled` is up iff it was or `add_employee_to_hr_tool` fired |
| Session.RaiseAllSnoc | app/main.py:141-154 | one more callback raises its flag on top of the earlier ones |
| Session.MainToolsAreRegistry | app/main.py:156-169 | the page's tools are the registry's twelve; exactly the five onboarding tools carry a callback |
| Session.MainToolsDistinct | app/main.py:156-169 | the page's twelve tools are pairwise distinct |
| Text.FilterNonEmpty | app/main.py:207 | `filter(None, …)` keeps exactly the non-empty strings, in order: a subsequence with the same non-empty elements, each as often |
| Text.FilterNonEmptyKeepsAll | app/main.py:207 | a list without empty strings is kept whole |
| Session.TurnLogs | app/main.py:206-207 | the logs are exactly the non-empty lines of the stripped, de-ANSI'd output, in order and with their multiplicity; none holds a newline |
| Session.State.constructor | app/main.py:31-34 | a new session is initial: the greeting alone and every flag down |
| Session.State.InitSessionState | app/main.py:36-62 | init and reset: the greeting alone, no logs, not thinking, all five flags down |
| Session.State.StoreMessage | app/main.py:136-137 | one message appended; nothing else changes |
| Session.State.Callback | app/main.py:141-154 | raises the flag of the tool's callback, nothing else |
| Session.State.RunCallbacks | app/main.py:141-154 | running the fired callbacks in order raises exactly `RaiseAll` |
| Session.State.HandleChatInput | app/main.py:172-212 | empty input: nothing; over 500 words: refused, unchanged; else the user message, the agent on the earlier history, the flags, the answer with its log |
| Session.Accumulate | app/main.py:201-203 | the character loop rebuilds exactly the agent's output |
| Session.WordLimitBoundary | app/main.py:175-178 | input of n words is refused iff n > 500: 500 words pass |

## Left out

- The agent loop is not modelled. It is LangChain's `AgentExecutor` (app/agent/executor.py:53), along with `parse_json_markdown`, `load_prompt`, `format_log_to_messages` and the ChatOpenAI calls. `OutputParser.Parse` takes the decoded value as input. `Session.AgentRun` stands for one invocation: the callbacks it fired, what it printed, and its answer or exception.
- The policy question answerer (FAISS retrieval and ChatOpenAI, app/integrations/faiss.py and app/agent/tools.py:205-218) is the oracle `policyAnswer`. The model keeps only its fixed search query "what is the holiday policy?".
- Network I/O is not modelled: `requests.request`, Gmail `send` and Calendar `insert`. Each call is a trace entry answered by an oracle of `Effects.World`. Retries, timeouts and exceptions inside those libraries are not modelled.
- app/integrations/google_auth.py (OAuth, token pickling) and app/config.py (environment settings) are not part of this model. Their values are the fields of `BambooHttp.Settings` and `Tools.Env`.
- The Streamlit page is not modelled: widgets, sidebar, spinner, the debug checkbox, `time.sleep` and the placeholder's partial renders. `CaptureStdout` swapping `sys.stdout` is not modelled either; only its `strip()` of the captured text is (`Text.Strip`).
- Wall-clock reads (`datetime.now()`, `date.today()`) are the parameter `today`/`now`. Several reads in one call are modelled as one value: the add-employee tool reads `date.today()` for the hire date and again in `add_time_off_balance`, so across midnight Python could send two different dates where `Tools.OnboardStepsCases` has the same one. `get_time_off_requests` likewise reads it twice for the start and end of its window (`TimeOff.RequestsWindow` uses one `today`).
- File contents, `mimetypes.guess_type` and `as_bytes()` are the abstract `FileSystem` and `serialise`. An attachment is identified by its path.
- `Ansi.NoAnsi` follows the regex `\x1b[^m]*m` scanned left to right. Python's `re` engine itself is not modelled.
- `Executor.SingleField`: it proves that the only replacement field sits between the prefix and the suffix, and that the prefix has no brace. It does not prove that the long suffix text is brace-free.
- The template's rendering inside `format_log_to_messages` is not modelled. `Executor.ToolResponse` is the intended `str.format` of the single field.
- `Executor.StopSequences` is a constant. `llm.bind` is LangChain code and is not modelled.
- Tools.CalendarEventFor: a title, timezone or attendee value of a type Python would still pass through to the Google client is treated as ordinary JSON. A number, boolean or `null` as `attendees` is a raised error, as in Python.
- Json.Iterate, Gcal.EventFields, Tools.CalendarEventFor, Tools.CalendarEventRun: a JSON object as `attendees` is refused as not iterable. Python iterates a dict's keys in insertion order and would invite those keys. The model's JSON objects are unordered maps, so they cannot give that order.
- Dates.ParseIsoDateTime: only the extended `YYYY-MM-DD` date form is read. The basic `YYYYMMDD` form and ISO week dates (`2024-W01-1`), which Python 3.11 and later also accept, are refused.
- Dates.ParseIsoDateTime: hour 24 (`24:00`), which later Python versions read as midnight of the next day, is refused. The model follows the documented grammar. Irregular inputs outside it that a particular CPython release happens to accept are refused.
- Dates.ParseIsoDateTime: the separator after the date is any one character. How CPython treats a separator outside ASCII is not modelled.
- Dates.ParseOffset: an offset with a non-zero fraction of a second (`+01:00:00.5`) is refused. Python accepts it.
- Tools.ShiftedIso, Tools.CalendarEventRun: these inherit the `fromisoformat` forms refused above.
- Dates.StrptimeDate: `%Y`, `%m` and `%d` read ASCII digits only. Python's `\d` also matches other Unicode decimal digits.
- OutputParser.Parse: the `logger.warning` about a list of tool calls (app/agent/output_parser.py:20) is logging output and is not modelled.
- Gmail.AttachmentFor: the `warnings.warn` for an unknown main type (app/integrations/gmail.py:49) is not modelled. Nor is the `UnicodeDecodeError` that `fp.read().decode()` raises on a text file that is not UTF-8 (line 41). File contents are not part of the model.
- Json: numbers are integers. JSON floats and exponents are not modelled; `json.loads` is a parameter.
- The add-employee and edit tools take the JSON values of the names and e-mail as they are. `repr` and `str` of non-string values are the parameter `repr`.
- `Tools.SendMail`: a Gmail `HttpError` is a refused delivery reported by the oracle `mailDelivered`. Its message text is not modelled.
- Python exceptions are `Err` values. Their class (`Exception`, `FileNotFoundError`, `KeyError`, `TypeError`) is not distinguished.
- Integer widths are not modelled. numpy's `int64` day numbers and the `8 * days` amount are unbounded integers. Dates run from year 1 to 9999, as in Python's `datetime`.
- BambooHttp.CountWorkingDaysBetween: `count_working_days` is modelled on zero-padded `YYYY-MM-DD` strings only. The other texts `np.datetime64` reads are refused: unpadded month or day, surrounding whitespace, other units such as a bare year or month, and `NaT`.
- `__main__` blocks and the REPL loop of app/agent/executor.py:66-74 are not modelled; they are I/O.

## Findings

| source | as written | input that shows it | evidently intended | confidence | as-written member | corrected member |
|---|---|---|---|---|---|---|
| app/integrations/bamboo/utils.py:39-42 | counts days whose number since 1970-01-01 is 0–4 mod 7. 1970-01-01 is a Thursday, so these are Thursday to Monday | 2024-01-06 to 2024-01-08 (a Saturday and a Sunday): the code counts 2 | count Monday to Friday, as the comment on line 39 says, giving 0 for that weekend | high, not executed | BambooHttp.WorkingDaysCountsSaturday | BambooHttp.MondayToFridayIsSetSize |
