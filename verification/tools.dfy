/**
  The agent's tools: each takes the text the language model chose as input and returns the text
  of the observation, or raises (`Err`). Tools that reach an outside service do so through a
  `World`; a tool built with a callback calls it last, and only once everything before it succeeded.
*/
module Tools {
  import opened Wrappers
  import opened Json
  import opened Dates
  import opened BambooHttp
  import opened Effects
  import Gmail
  import Gcal
  import Employees
  import TimeOff

  /** A tool instance: its kind, and whether it was built with a callback. */
  datatype Tool = Tool(kind: ToolKind, hasCallback: bool)

  function Name(k: ToolKind): string
  {
    match k
    case Respond => "respond_tool"
    case WelcomeEmail => "welcome_email_tool"
    case PolicyEmail => "HR_policy_email_tool"
    case SlackInvite => "slack_invite_tool"
    case CalendarEvent => "calendar_event_tool"
    case AddEmployee => "add_employee_to_hr_tool"
    case PolicyQuestion => "HR_policy_QA_tool"
    case ModifyEmployee => "modify_employee_tool"
    case ViewTimeOff => "view_time_off_requests_tool"
    case MakeTimeOff => "make_time_off_request_tool"
    case CancelTimeOff => "cancel_time_off_request_tool"
    case EstimateTimeOff => "estimate_time_off_balance_tool"
  }

  /** The description the language model reads, character for character. */
  function Description(k: ToolKind): string
  {
    match k
    case Respond =>
      "used to give an answer to the human. The input to this tool is a string with your response"
    case WelcomeEmail =>
      "useful to send a welcome email to a new employee. The input is the email address of the recipient."
    case PolicyEmail =>
      "useful to send an email with the HR policies to the new employee. The only input is the email address of the recipient."
    case SlackInvite =>
      "useful to send a slack invite to a new employee via email. The only input is the email address of the recipient."
    case CalendarEvent =>
      "useful to send a slack invite to a new employee via email. The input to this tool is a JSON with the following format:\n    {\n        title: str,\n        start_iso_datetime: str,\n        end_iso_datetime: str,\n        attendees: list[str],\n        timezone: Optional[str]  # Defaults to UTC\n    }\n    Make sure to confirm the details of the event with the user.\n    "
    case AddEmployee =>
      "useful to add a new employee to the HR system. The input to this tool is a JSON with the following format:\n    {\n        first_name: str,\n        last_name: str,\n        email_address: str,\n    }\n    "
    case PolicyQuestion =>
      "useful to answer questions about the HR policies. The input to this tool is a string with the question."
    case ModifyEmployee =>
      "useful to modify an employee in the HR system. The input to this tool is a JSON with the following format:\n    {\n        employee_id: str,\n        first_name: Optional[str],\n        last_name: Optional[str],\n        email_address: Optional[str],\n    }\n    "
    case ViewTimeOff =>
      "useful to view all time off requests for an employee. The input to this tool is the employee_id of the employee to view."
    case MakeTimeOff =>
      "useful to make a time off request. The input to this tool is a JSON with the following format:\n    {\n        employee_id: str,\n        start_date: str,  # Format YYYY-MM-DD\n        end_date: str,  # Format YYYY-MM-DD\n    }\n    "
    case CancelTimeOff =>
      "useful to cancel a time off request. The input to this tool is the request_id of the request to cancel."
    case EstimateTimeOff =>
      "useful to estimate the time off balance for an employee. The input to this tool is the employee_id of the employee to view."
  }

  /** The kind whose name has this length and first character. */
  function KindOfName(length: int, first: char): ToolKind
  {
    if length == 12 then Respond
    else if length == 18 then WelcomeEmail
    else if length == 20 && first == 'H' then PolicyEmail
    else if length == 17 && first == 's' then SlackInvite
    else if length == 19 then CalendarEvent
    else if length == 23 then AddEmployee
    else if length == 17 then PolicyQuestion
    else if length == 20 then ModifyEmployee
    else if length == 27 then ViewTimeOff
    else if length == 26 then MakeTimeOff
    else if length == 28 then CancelTimeOff
    else EstimateTimeOff
  }

  /** A name's length and first character identify its tool. */
  lemma NameFingerprint(k: ToolKind)
    ensures |Name(k)| > 0 && KindOfName(|Name(k)|, Name(k)[0]) == k
  {
    match k
    case Respond =>
    case WelcomeEmail =>
    case PolicyEmail =>
    case SlackInvite =>
    case CalendarEvent =>
    case AddEmployee =>
    case PolicyQuestion =>
    case ModifyEmployee =>
    case ViewTimeOff =>
    case MakeTimeOff =>
    case CancelTimeOff =>
    case EstimateTimeOff =>
  }

  /** Tools are told apart by name alone. */
  lemma NameInjective(a: ToolKind, b: ToolKind)
    ensures Name(a) == Name(b) <==> a == b
  {
    NameFingerprint(a);
    NameFingerprint(b);
  }

  /** `get_all_tools()`: every tool once, none with a callback, the answering tool first. */
  function AllTools(): (r: seq<Tool>)
    ensures |r| == 12 && r[0] == Tool(Respond, false)
    ensures forall i :: 0 <= i < |r| ==> !r[i].hasCallback
    ensures forall i, j :: 0 <= i < j < |r| ==> r[i].kind != r[j].kind
  {
    [Tool(Respond, false), Tool(WelcomeEmail, false), Tool(PolicyEmail, false), Tool(SlackInvite, false),
     Tool(CalendarEvent, false), Tool(PolicyQuestion, false), Tool(AddEmployee, false),
     Tool(ModifyEmployee, false), Tool(ViewTimeOff, false), Tool(MakeTimeOff, false),
     Tool(CancelTimeOff, false), Tool(EstimateTimeOff, false)]
  }

  /** Every kind of tool is in the list. */
  lemma AllToolsComplete(k: ToolKind)
    ensures Tool(k, false) in AllTools()
  {
    var r := AllTools();
    match k
    case Respond => assert r[0] == Tool(k, false);
    case WelcomeEmail => assert r[1] == Tool(k, false);
    case PolicyEmail => assert r[2] == Tool(k, false);
    case SlackInvite => assert r[3] == Tool(k, false);
    case CalendarEvent => assert r[4] == Tool(k, false);
    case PolicyQuestion => assert r[5] == Tool(k, false);
    case AddEmployee => assert r[6] == Tool(k, false);
    case ModifyEmployee => assert r[7] == Tool(k, false);
    case ViewTimeOff => assert r[8] == Tool(k, false);
    case MakeTimeOff => assert r[9] == Tool(k, false);
    case CancelTimeOff => assert r[10] == Tool(k, false);
    case EstimateTimeOff => assert r[11] == Tool(k, false);
  }

  /**
    What the tools read from their surroundings: the BambooHR and mail settings, the resolved path
    of the policies PDF, the file system, today's date, `json.loads` (`None` where it raises
    `JSONDecodeError`) and Python's `repr` for values printed in replies.
  */
  datatype Env = Env(
    bamboo: Settings,
    systemEmail: string,
    slackInviteUrl: string,
    policiesPath: string,
    fs: Gmail.FileSystem,
    today: Date,
    loads: string -> Option<Json>,
    repr: Json -> string)

  /** The callback effect of a tool that has one. */
  function Fired(tool: Tool): (e: seq<Effect>)
    ensures |e| <= 1 && (|e| == 1 <==> tool.hasCallback)
    ensures forall i :: 0 <= i < |e| ==> e[i] == CallbackFired(tool.kind)
  {
    if tool.hasCallback then [CallbackFired(tool.kind)] else []
  }

  // respond_tool

  /** The answer goes back to the human unchanged. */
  function RespondText(query: string): (r: string)
    ensures r == query
  {
    query
  }

  // The three mail tools

  const MailRefused: string := "HttpError: the message was not sent"

  /**
    `send_message` followed by the callback: a message that cannot be built raises before anything
    is sent; a sent message that Gmail refuses raises after it; otherwise the callback fires.
  */
  method SendMail(w: World, env: Env, tool: Tool, recipient: string, subject: string, body: string,
                  attachments: seq<string>, reply: string)
    returns (r: Result<string>)
    modifies w
    ensures var m := Gmail.MessageFor(recipient, subject, body, attachments, env.systemEmail, env.fs);
      && (m.Err? ==> r == Err(m.error) && w.trace == old(w.trace))
      && (m.Ok? && w.mailDelivered(|old(w.trace)|) ==>
            r == Ok(reply) && w.trace == old(w.trace) + [MailSent(m.value)] + Fired(tool))
      && (m.Ok? && !w.mailDelivered(|old(w.trace)|) ==>
            r == Err(MailRefused) && w.trace == old(w.trace) + [MailSent(m.value)])
  {
    var m := Gmail.BuildMessage(recipient, subject, body, attachments, env.systemEmail, env.fs);
    if m.Err? {
      return Err(m.error);
    }
    var delivered := w.Mail(m.value);
    if !delivered {
      return Err(MailRefused);
    }
    if tool.hasCallback {
      w.Callback(tool.kind);
    }
    r := Ok(reply);
  }

  const WelcomeSubject: string := "Welcome to the company!"
  const WelcomeBody: string := "Welcome to the company! We are very happy to have you here."

  /** welcome_email_tool: one plain welcome message to the given address. */
  method WelcomeEmailRun(w: World, env: Env, tool: Tool, recipientEmail: string) returns (r: Result<string>)
    modifies w
    ensures var m := Gmail.Plain(WelcomeBody, Gmail.Headers(recipientEmail, env.systemEmail, WelcomeSubject));
      && (r.Ok? <==> w.mailDelivered(|old(w.trace)|))
      && (r.Ok? ==>
            && r.value == "\nA welcome email has been sent to " + recipientEmail + "\n"
            && w.trace == old(w.trace) + [MailSent(m)] + Fired(tool))
      && (r.Err? ==> w.trace == old(w.trace) + [MailSent(m)])
  {
    r := SendMail(w, env, tool, recipientEmail, WelcomeSubject, WelcomeBody, [],
                  "\nA welcome email has been sent to " + recipientEmail + "\n");
  }

  const PolicySubject: string := "HR policies"
  const PolicyBody: string := "Please find attached the HR policies of the company"

  /** HR_policy_email_tool: the policies PDF attached after the body; nothing is sent when it cannot be attached. */
  method PolicyEmailRun(w: World, env: Env, tool: Tool, recipientEmail: string) returns (r: Result<string>)
    modifies w
    ensures !Gmail.Attachable(env.policiesPath, env.fs) ==> r.Err? && w.trace == old(w.trace)
    ensures Gmail.Attachable(env.policiesPath, env.fs) ==>
      var m := Gmail.Multipart([Gmail.BodyText(PolicyBody), Gmail.File(Gmail.AttachmentFor(env.policiesPath, env.fs).value)],
                               Gmail.Headers(recipientEmail, env.systemEmail, PolicySubject));
      && (r.Ok? <==> w.mailDelivered(|old(w.trace)|))
      && (r.Ok? ==>
            && r.value == "\nAn email with the HR policies has been sent to " + recipientEmail + "\n"
            && w.trace == old(w.trace) + [MailSent(m)] + Fired(tool))
      && (r.Err? ==> w.trace == old(w.trace) + [MailSent(m)])
  {
    PolicyMessage(recipientEmail, env);
    r := SendMail(w, env, tool, recipientEmail, PolicySubject, PolicyBody, [env.policiesPath],
                  "\nAn email with the HR policies has been sent to " + recipientEmail + "\n");
  }

  /** The policy message, or the error `build_message` raises for it. */
  lemma PolicyMessage(recipientEmail: string, env: Env)
    ensures var m := Gmail.MessageFor(recipientEmail, PolicySubject, PolicyBody, [env.policiesPath], env.systemEmail, env.fs);
      && (m.Ok? <==> Gmail.Attachable(env.policiesPath, env.fs))
      && (m.Ok? ==>
            m.value == Gmail.Multipart([Gmail.BodyText(PolicyBody), Gmail.File(Gmail.AttachmentFor(env.policiesPath, env.fs).value)],
                                       Gmail.Headers(recipientEmail, env.systemEmail, PolicySubject)))
  {
    var path := env.policiesPath;
    Gmail.AttachmentsForOrder([path], env.fs);
    assert [path][0] == path;
    if Gmail.Attachable(path, env.fs) {
      var a := Gmail.AttachmentFor(path, env.fs).value;
      assert Gmail.AttachmentsFor([path], env.fs).value == [a];
      assert Gmail.Files([a]) == [Gmail.File(a)];
      assert [Gmail.BodyText(PolicyBody)] + [Gmail.File(a)] == [Gmail.BodyText(PolicyBody), Gmail.File(a)];
    }
  }

  const SlackSubject: string := "Slack invite"

  function SlackBody(inviteUrl: string): string
  {
    "Welcome to the company! \n\n Here is your Slack invitation: \n" + inviteUrl
  }

  /** slack_invite_tool: one plain message carrying the configured invitation link. */
  method SlackInviteRun(w: World, env: Env, tool: Tool, recipientEmail: string) returns (r: Result<string>)
    modifies w
    ensures var m := Gmail.Plain(SlackBody(env.slackInviteUrl), Gmail.Headers(recipientEmail, env.systemEmail, SlackSubject));
      && (r.Ok? <==> w.mailDelivered(|old(w.trace)|))
      && (r.Ok? ==>
            && r.value == "\nAn email with a Slack invite has been sent to " + recipientEmail + "\n"
            && w.trace == old(w.trace) + [MailSent(m)] + Fired(tool))
      && (r.Err? ==> w.trace == old(w.trace) + [MailSent(m)])
  {
    r := SendMail(w, env, tool, recipientEmail, SlackSubject, SlackBody(env.slackInviteUrl), [],
                  "\nAn email with a Slack invite has been sent to " + recipientEmail + "\n");
  }

  // calendar_event_tool

  const InvalidEventMessage: string := "The event is not a valid JSON"

  /** `d[key]` on a parsed JSON value: only an object with that key has it. */
  function Field(d: Json, key: string): (r: Result<Json>)
    ensures r.Ok? <==> d.JObj? && key in d.fields
    ensures r.Ok? ==> r.value == d.fields[key]
  {
    if d.JObj? && key in d.fields then Ok(d.fields[key]) else Err("KeyError: '" + key + "'")
  }

  /**
    `(fromisoformat(v) - timedelta(hours=1)).isoformat()`: the text, read back, is exactly one hour
    before the time given, at the same UTC offset, and it is `isoformat`'s own spelling of that moment.
  */
  function ShiftedIso(v: Json): (r: Result<string>)
    ensures r.Ok? <==>
      v.JStr? && ParseIsoDateTime(v.s).Some?
      && (ParseIsoDateTime(v.s).value.local.date != Date(1, 1, 1) || ParseIsoDateTime(v.s).value.local.hour != 0)
    ensures r.Ok? ==>
      var given := ParseIsoDateTime(v.s).value;
      var back := ParseIsoDateTime(r.value);
      back.Some? && back.value.offset == given.offset
      && Micros(back.value.local) == Micros(given.local) - 3600000000
    ensures r.Ok? ==> ParseIsoDateTime(r.value).Some? && r.value == IsoFormatMoment(ParseIsoDateTime(r.value).value)
  {
    if !v.JStr? then Err("TypeError: fromisoformat: argument must be str")
    else match ParseIsoDateTime(v.s)
      case None => Err("ValueError: Invalid isoformat string")
      case Some(m) =>
        match MinusOneHour(m.local)
        case None => Err("OverflowError: date value out of range")
        case Some(t) =>
          var shifted := Moment(t, m.offset);
          ParseIsoFormat(shifted);
          Ok(IsoFormatMoment(shifted))
  }

  /** `event_dict.get("timezone", "UTC")` on an object. */
  function TimezoneOf(fields: map<string, Json>): (tz: Json)
    ensures "timezone" in fields ==> tz == fields["timezone"]
    ensures "timezone" !in fields ==> tz == JStr(Gcal.DefaultTimezone)
  {
    if "timezone" in fields then fields["timezone"] else JStr(Gcal.DefaultTimezone)
  }

  /** The event the tool asks Calendar to insert for a parsed input, or the error raised first. */
  function CalendarEventFor(d: Json): (r: Result<map<string, Json>>)
    ensures r.Ok? <==>
      d.JObj? && "start_iso_datetime" in d.fields && "end_iso_datetime" in d.fields
      && "title" in d.fields && "attendees" in d.fields
      && ShiftedIso(d.fields["start_iso_datetime"]).Ok? && ShiftedIso(d.fields["end_iso_datetime"]).Ok?
      && Iterate(d.fields["attendees"]).Some?
    ensures r.Ok? ==>
      r == Gcal.EventFields(d.fields["title"], ShiftedIso(d.fields["start_iso_datetime"]).value,
                                  ShiftedIso(d.fields["end_iso_datetime"]).value, d.fields["attendees"],
                                  TimezoneOf(d.fields))
  {
    var start := Field(d, "start_iso_datetime");
    if start.Err? then Err(start.error)
    else
      var startText := ShiftedIso(start.value);
      if startText.Err? then Err(startText.error)
      else
        var end := Field(d, "end_iso_datetime");
        if end.Err? then Err(end.error)
        else
          var endText := ShiftedIso(end.value);
          if endText.Err? then Err(endText.error)
          else
            var title := Field(d, "title");
            if title.Err? then Err(title.error)
            else
              var attendees := Field(d, "attendees");
              if attendees.Err? then Err(attendees.error)
              else Gcal.EventFields(title.value, startText.value, endText.value, attendees.value, TimezoneOf(d.fields))
  }

  /** Both ends move by the same hour, so the event keeps its length. */
  lemma CalendarEventKeepsDuration(d: Json)
    requires CalendarEventFor(d).Ok?
    ensures
      var start := ParseIsoDateTime(d.fields["start_iso_datetime"].s).value;
      var end := ParseIsoDateTime(d.fields["end_iso_datetime"].s).value;
      var e := CalendarEventFor(d).value;
      e["start"].JObj? && e["end"].JObj?
      && "dateTime" in e["start"].fields && "dateTime" in e["end"].fields
      && e["start"].fields["dateTime"].JStr? && e["end"].fields["dateTime"].JStr?
      && var newStart := ParseIsoDateTime(e["start"].fields["dateTime"].s);
      var newEnd := ParseIsoDateTime(e["end"].fields["dateTime"].s);
      newStart.Some? && newEnd.Some?
      && Micros(newEnd.value.local) - Micros(newStart.value.local) == Micros(end.local) - Micros(start.local)
  {
    var startText := ShiftedIso(d.fields["start_iso_datetime"]).value;
    var endText := ShiftedIso(d.fields["end_iso_datetime"]).value;
    var tz := TimezoneOf(d.fields);
    Gcal.EventTimeText(startText, tz);
    Gcal.EventTimeText(endText, tz);
  }

  /** The reply naming the inserted event. */
  function CalendarReply(eventId: Json, repr: Json -> string): string
  {
    "\nA calendar event has been created with id " + PyStr(eventId, repr) + "\n"
  }

  /** Inserting a built event: the callback fires once Calendar returned the new event's id. */
  method PublishEvent(w: World, env: Env, tool: Tool, event: map<string, Json>) returns (r: Result<string>)
    modifies w
    ensures var reply := w.calendarReply(|old(w.trace)|);
      && (r.Ok? <==> reply.Ok? && Gcal.EventId(reply.value).Ok?)
      && (r.Ok? ==>
            && r.value == CalendarReply(Gcal.EventId(reply.value).value, env.repr)
            && w.trace == old(w.trace) + [EventInserted(event)] + Fired(tool))
      && (r.Err? ==> w.trace == old(w.trace) + [EventInserted(event)])
  {
    var reply := w.InsertEvent(event);
    if reply.Err? {
      return Err(reply.error);
    }
    var eventId := Gcal.EventId(reply.value);
    if eventId.Err? {
      return Err(eventId.error);
    }
    if tool.hasCallback {
      w.Callback(tool.kind);
    }
    r := Ok(CalendarReply(eventId.value, env.repr));
  }

  /**
    calendar_event_tool: text that is not JSON is answered without calling anything; an input the
    event cannot be built from raises before anything is sent; otherwise the event is published.
  */
  method CalendarEventRun(w: World, env: Env, tool: Tool, event: string) returns (r: Result<string>)
    modifies w
    ensures env.loads(event).None? ==> r == Ok(InvalidEventMessage) && w.trace == old(w.trace)
    ensures env.loads(event).Some? && CalendarEventFor(env.loads(event).value).Err? ==>
      r.Err? && w.trace == old(w.trace)
    ensures env.loads(event).Some? && CalendarEventFor(env.loads(event).value).Ok? ==>
      var inserted := [EventInserted(CalendarEventFor(env.loads(event).value).value)];
      var reply := w.calendarReply(|old(w.trace)|);
      && (r.Ok? <==> reply.Ok? && Gcal.EventId(reply.value).Ok?)
      && (r.Ok? ==>
            && r.value == CalendarReply(Gcal.EventId(reply.value).value, env.repr)
            && w.trace == old(w.trace) + inserted + Fired(tool))
      && (r.Err? ==> w.trace == old(w.trace) + inserted)
  {
    var parsed := env.loads(event);
    if parsed.None? {
      return Ok(InvalidEventMessage);
    }
    var d := parsed.value;
    var wanted := CalendarEventFor(d);
    if wanted.Err? {
      return Err(wanted.error);
    }
    var start := ShiftedIso(d.fields["start_iso_datetime"]).value;
    var end := ShiftedIso(d.fields["end_iso_datetime"]).value;
    var built := Gcal.BuildEvent(d.fields["title"], start, end, d.fields["attendees"], TimezoneOf(d.fields));
    assert built == wanted;
    r := PublishEvent(w, env, tool, built.value);
  }

  // add_employee_to_hr_tool

  const InvalidInputMessage: string := "The input is not a valid JSON"

  /** A parsed input with the three keys the tool reads. */
  predicate HasNewEmployee(d: Json)
  {
    d.JObj? && "first_name" in d.fields && "last_name" in d.fields && "email_address" in d.fields
  }

  /** The request that creates the employee, hired today. */
  function NewEmployeeRequest(env: Env, d: Json): Request
    requires HasNewEmployee(d) && ValidDate(env.today)
  {
    Employees.AddEmployeeRequest(env.bamboo, d.fields["first_name"], d.fields["last_name"],
                                 d.fields["email_address"], FormatDate(env.today))
  }

  function NewEmployeeReply(env: Env, d: Json, employeeId: string): string
    requires HasNewEmployee(d)
  {
    "\nEmployee " + PyStr(d.fields["first_name"], env.repr) + " " + PyStr(d.fields["last_name"], env.repr)
    + " has been added to the HR system with employee_id " + employeeId + " (THIS NUMBER IS IMPORTANT!)\n"
  }

  /** What a successful vacation set-up sends: the two requests in order, then the callback. */
  function VacationTrace(tool: Tool, policy: Request, balance: Request): seq<Effect>
  {
    [HttpSent(policy), HttpSent(balance)] + Fired(tool)
  }

  /**
    The vacation set-up of a created employee when BambooHR answers the call at trace position `i`
    with `reply(i, _)`, the first call being at `n`: the result, and the effects in the order they
    happen. The `policy` request, then the `balance` request only after the first succeeded; the
    callback fires after both. The first failure is raised.
  */
  function VacationSteps(reply: (nat, Request) -> Response, n: nat, tool: Tool, policy: Request, balance: Request)
    : (Result<()>, seq<Effect>)
  {
    var p := TimeOff.AddPolicyOutcome(reply(n, policy));
    if p.Err? then (Err(p.error), [HttpSent(policy)])
    else
      var b := TimeOff.AddBalanceOutcome(reply(n + 1, balance));
      if b.Err? then (Err(b.error), [HttpSent(policy), HttpSent(balance)])
      else (Ok(()), VacationTrace(tool, policy, balance))
  }

  /** The vacation set-up succeeds iff both calls do; each failure stops it with its own error, before any callback. */
  lemma VacationStepsCases(reply: (nat, Request) -> Response, n: nat, tool: Tool, policy: Request, balance: Request)
    ensures var (r, sent) := VacationSteps(reply, n, tool, policy, balance);
      var p := TimeOff.AddPolicyOutcome(reply(n, policy));
      var b := TimeOff.AddBalanceOutcome(reply(n + 1, balance));
      && (r.Ok? <==> p.Ok? && b.Ok?)
      && (p.Err? ==> r == Err(p.error) && sent == [HttpSent(policy)])
      && (p.Ok? && b.Err? ==> r == Err(b.error) && sent == [HttpSent(policy), HttpSent(balance)])
      && (r.Ok? ==> sent == VacationTrace(tool, policy, balance))
      && (r.Err? ==> NoCallbackFrom(sent, 0))
  {
  }

  /** The vacation set-up, performed: its result and effects are `VacationSteps`'. */
  method GrantVacation(w: World, tool: Tool, policy: Request, balance: Request) returns (r: Result<()>)
    modifies w
    ensures var (result, sent) := VacationSteps(w.httpReply, |old(w.trace)|, tool, policy, balance);
      r == result && w.trace == old(w.trace) + sent
  {
    var policyRes := w.Http(policy);
    var policyAdded := TimeOff.AddPolicyOutcome(policyRes);
    if policyAdded.Err? {
      return Err(policyAdded.error);
    }
    var balanceRes := w.Http(balance);
    var balanceAdded := TimeOff.AddBalanceOutcome(balanceRes);
    if balanceAdded.Err? {
      return Err(balanceAdded.error);
    }
    if tool.hasCallback {
      w.Callback(tool.kind);
    }
    r := Ok(());
  }

  /**
    The BambooHR calls for a new employee, the first at trace position `n`: the employee is
    created, and only then given the vacation policy from the hire date and the initial balance.
    The result is the new id, or the first failure, after which nothing more is sent.
  */
  function OnboardSteps(reply: (nat, Request) -> Response, n: nat, env: Env, tool: Tool, d: Json)
    : (Result<string>, seq<Effect>)
    requires HasNewEmployee(d) && ValidDate(env.today)
  {
    var add := NewEmployeeRequest(env, d);
    var created := Employees.AddEmployeeOutcome(reply(n, add));
    if created.Err? then (Err(created.error), [HttpSent(add)])
    else
      var policy := TimeOff.AddPolicyRequest(env.bamboo, created.value, FormatDate(env.today));
      var balance := TimeOff.AddBalanceRequest(env.bamboo, created.value, env.today);
      var (granted, sent) := VacationSteps(reply, n + 1, tool, policy, balance);
      (if granted.Err? then Err(granted.error) else created, [HttpSent(add)] + sent)
  }

  /**
    Setting up a new employee succeeds iff all three calls do, with the new id; each failure gives
    its own error, with exactly the calls made before it and no callback.
  */
  lemma OnboardStepsCases(reply: (nat, Request) -> Response, n: nat, env: Env, tool: Tool, d: Json)
    requires HasNewEmployee(d) && ValidDate(env.today)
    ensures var (r, sent) := OnboardSteps(reply, n, env, tool, d);
      var add := NewEmployeeRequest(env, d);
      var created := Employees.AddEmployeeOutcome(reply(n, add));
      && (r.Err? ==> NoCallbackFrom(sent, 0))
      && (created.Err? ==> r == Err(created.error) && sent == [HttpSent(add)])
      && (created.Ok? ==>
            var policy := TimeOff.AddPolicyRequest(env.bamboo, created.value, FormatDate(env.today));
            var balance := TimeOff.AddBalanceRequest(env.bamboo, created.value, env.today);
            var p := TimeOff.AddPolicyOutcome(reply(n + 1, policy));
            var b := TimeOff.AddBalanceOutcome(reply(n + 2, balance));
            && (r.Ok? <==> p.Ok? && b.Ok?)
            && (p.Err? ==> r == Err(p.error) && sent == [HttpSent(add), HttpSent(policy)])
            && (p.Ok? && b.Err? ==> r == Err(b.error) && sent == [HttpSent(add), HttpSent(policy), HttpSent(balance)])
            && (r.Ok? ==> r.value == created.value && sent == [HttpSent(add)] + VacationTrace(tool, policy, balance)))
  {
    var add := NewEmployeeRequest(env, d);
    var created := Employees.AddEmployeeOutcome(reply(n, add));
    if created.Ok? {
      var policy := TimeOff.AddPolicyRequest(env.bamboo, created.value, FormatDate(env.today));
      var balance := TimeOff.AddBalanceRequest(env.bamboo, created.value, env.today);
      GrantAfterCreate(reply, n, tool, add, created.value, policy, balance);
    }
  }

  /** The cases of a vacation set-up that follows the creation call `add`, which gave `id`. */
  lemma GrantAfterCreate(reply: (nat, Request) -> Response, n: nat, tool: Tool, add: Request, id: string,
                         policy: Request, balance: Request)
    ensures var (granted, sent) := VacationSteps(reply, n + 1, tool, policy, balance);
      var r: Result<string> := if granted.Err? then Err(granted.error) else Ok(id);
      var all := [HttpSent(add)] + sent;
      var p := TimeOff.AddPolicyOutcome(reply(n + 1, policy));
      var b := TimeOff.AddBalanceOutcome(reply(n + 2, balance));
      && (r.Err? ==> NoCallbackFrom(all, 0))
      && (r.Ok? <==> p.Ok? && b.Ok?)
      && (p.Err? ==> r == Err(p.error) && all == [HttpSent(add), HttpSent(policy)])
      && (p.Ok? && b.Err? ==> r == Err(b.error) && all == [HttpSent(add), HttpSent(policy), HttpSent(balance)])
      && (r.Ok? ==> r.value == id && all == [HttpSent(add)] + VacationTrace(tool, policy, balance))
  {
    VacationStepsCases(reply, n + 1, tool, policy, balance);
    var (granted, sent) := VacationSteps(reply, n + 1, tool, policy, balance);
    if granted.Err? {
      NoCallbackBefore([HttpSent(add)] + sent, 0);
    }
  }

  /** A trace that grew by one call and then by more. */
  lemma CallThen(start: seq<Effect>, call: Effect, middle: seq<Effect>, now: seq<Effect>)
    requires middle == start + [call] && |middle| <= |now| && now[..|middle|] == middle
    ensures now == start + ([call] + now[|middle|..])
  {
    assert now == middle + now[|middle|..];
  }

  /** The set-up of a new employee, performed: its result and effects are `OnboardSteps`'. */
  method Onboard(w: World, env: Env, tool: Tool, d: Json) returns (r: Result<string>)
    requires HasNewEmployee(d) && ValidDate(env.today)
    modifies w
    ensures var (result, sent) := OnboardSteps(w.httpReply, |old(w.trace)|, env, tool, d);
      r == result && w.trace == old(w.trace) + sent
  {
    var add := NewEmployeeRequest(env, d);
    var addRes := w.Http(add);
    var created := Employees.AddEmployeeOutcome(addRes);
    if created.Err? {
      return Err(created.error);
    }
    var policy := TimeOff.AddPolicyRequest(env.bamboo, created.value, FormatDate(env.today));
    var balance := TimeOff.AddBalanceRequest(env.bamboo, created.value, env.today);
    ghost var before := w.trace;
    var granted := GrantVacation(w, tool, policy, balance);
    CallThen(old(w.trace), HttpSent(add), before, w.trace);
    if granted.Err? {
      return Err(granted.error);
    }
    r := created;
  }

  /**
    add_employee_to_hr_tool: text that is not JSON is answered at once; an input without the three
    keys raises; otherwise the employee is set up and the reply names the new id.
  */
  method AddEmployeeRun(w: World, env: Env, tool: Tool, employeeStr: string) returns (r: Result<string>)
    requires ValidDate(env.today)
    modifies w
    ensures env.loads(employeeStr).None? ==> r == Ok(InvalidInputMessage) && w.trace == old(w.trace)
    ensures env.loads(employeeStr).Some? && !HasNewEmployee(env.loads(employeeStr).value) ==>
      r == Err("KeyError") && w.trace == old(w.trace)
    ensures env.loads(employeeStr).Some? && HasNewEmployee(env.loads(employeeStr).value) ==>
      var d := env.loads(employeeStr).value;
      var (created, sent) := OnboardSteps(w.httpReply, |old(w.trace)|, env, tool, d);
      && w.trace == old(w.trace) + sent
      && r == (if created.Err? then Err(created.error) else Ok(NewEmployeeReply(env, d, created.value)))
  {
    var parsed := env.loads(employeeStr);
    if parsed.None? {
      return Ok(InvalidInputMessage);
    }
    var d := parsed.value;
    if !HasNewEmployee(d) {
      return Err("KeyError");
    }
    var created := Onboard(w, env, tool, d);
    if created.Err? {
      return Err(created.error);
    }
    r := Ok(NewEmployeeReply(env, d, created.value));
  }

  // HR_policy_QA_tool

  /** The document search always looks for this question, whatever was asked. */
  const PolicySearchQuery: string := "what is the holiday policy?"

  /** HR_policy_QA_tool: the model's answer, between two newlines. */
  method PolicyQuestionRun(w: World, query: string) returns (r: string)
    modifies w
    ensures w.trace == old(w.trace) + [PolicyAsked(PolicySearchQuery, query)]
    ensures r == "\n" + w.policyAnswer(|old(w.trace)|, PolicySearchQuery, query) + "\n"
  {
    var answer := w.AskPolicy(PolicySearchQuery, query);
    r := "\n" + answer + "\n";
  }

  // Keyword arguments

  /**
    `f(**d)` for a function with parameters `params` of which `required` have no default: raises
    unless `d` is an object whose keys are parameters and include every required one.
  */
  function Kwargs(d: Json, params: set<string>, required: set<string>): (r: Result<map<string, Json>>)
    ensures r.Ok? <==> d.JObj? && d.fields.Keys <= params && required <= d.fields.Keys
    ensures r.Ok? ==> r.value == d.fields
  {
    if !d.JObj? then Err("TypeError: argument after ** must be a mapping")
    else if !(d.fields.Keys <= params) then Err("TypeError: got an unexpected keyword argument")
    else if !(required <= d.fields.Keys) then Err("TypeError: missing a required argument")
    else Ok(d.fields)
  }

  /** A keyword argument with default `None`. */
  function Optional(args: map<string, Json>, key: string): (x: Option<Json>)
    ensures x.Some? <==> key in args
    ensures x.Some? ==> x.value == args[key]
  {
    if key in args then Some(args[key]) else None
  }

  // modify_employee_tool

  const EditParams: set<string> := {"employee_id", "first_name", "last_name", "email_address"}

  /** The keyword arguments `edit_employee` accepts from a parsed input. */
  function EditArgs(d: Json): (r: Result<map<string, Json>>)
    ensures r.Ok? ==> "employee_id" in r.value && r.value.Keys <= EditParams
  {
    Kwargs(d, EditParams, {"employee_id"})
  }

  /** The edit request for accepted arguments: the id as Python prints it into the path. */
  function EditRequestFor(env: Env, args: map<string, Json>): (req: Request)
    requires "employee_id" in args
    ensures req.verb == POST
    ensures req.url == env.bamboo.baseUrl + ("/employees/" + PyStr(args["employee_id"], env.repr) + "/")
    ensures req.body == Some(JObj(Employees.EditFields(Optional(args, "first_name"), Optional(args, "last_name"),
                                                       Optional(args, "email_address"))))
  {
    BambooRequest(env.bamboo, "/employees/" + PyStr(args["employee_id"], env.repr) + "/", POST,
                  Some(JObj(Employees.EditFields(Optional(args, "first_name"), Optional(args, "last_name"),
                                                 Optional(args, "email_address")))))
  }

  /** Some field to change, as `edit_employee` demands. */
  predicate EditsSomething(args: map<string, Json>)
  {
    Employees.Given(Optional(args, "first_name")) || Employees.Given(Optional(args, "last_name"))
    || Employees.Given(Optional(args, "email_address"))
  }

  /**
    modify_employee_tool: one edit request with exactly the fields given a truthy value; inputs
    with unknown keys, without `employee_id` or without any field raise before anything is sent.
  */
  method ModifyEmployeeRun(w: World, env: Env, employeeStr: string) returns (r: Result<string>)
    modifies w
    ensures env.loads(employeeStr).None? ==> r == Ok(InvalidInputMessage) && w.trace == old(w.trace)
    ensures env.loads(employeeStr).Some? ==>
      var args := EditArgs(env.loads(employeeStr).value);
      && (args.Err? || !EditsSomething(args.value) ==> r.Err? && w.trace == old(w.trace))
      && (args.Ok? && EditsSomething(args.value) ==>
            var req := EditRequestFor(env, args.value);
            && w.trace == old(w.trace) + [HttpSent(req)]
            && (r.Ok? <==> w.httpReply(|old(w.trace)|, req).status == 200)
            && (r.Ok? ==> r.value == "\nEmployee " + PyStr(args.value["employee_id"], env.repr)
                                     + " has been modified successfully\n"))
  {
    var parsed := env.loads(employeeStr);
    if parsed.None? {
      return Ok(InvalidInputMessage);
    }
    var args := EditArgs(parsed.value);
    if args.Err? {
      return Err(args.error);
    }
    var employeeId := PyStr(args.value["employee_id"], env.repr);
    var req := Employees.EditEmployeeRequest(env.bamboo, employeeId, Optional(args.value, "first_name"),
                                             Optional(args.value, "last_name"), Optional(args.value, "email_address"));
    if req.Err? {
      return Err(req.error);
    }
    var res := w.Http(req.value);
    var edited := Employees.EditOutcome(res);
    if edited.Err? {
      return Err(edited.error);
    }
    r := Ok("\nEmployee " + employeeId + " has been modified successfully\n");
  }

  // view_time_off_requests_tool

  /** view_time_off_requests_tool: the requests from today to a year ahead, printed after a heading. */
  method ViewTimeOffRun(w: World, env: Env, employeeId: string) returns (r: Result<string>)
    requires ValidDate(env.today)
    modifies w
    ensures var req := TimeOff.GetRequestsRequest(env.bamboo, employeeId, env.today);
      && (req.Err? ==> r.Err? && w.trace == old(w.trace))
      && (req.Ok? ==>
            var out := TimeOff.GetRequestsOutcome(w.httpReply(|old(w.trace)|, req.value));
            && w.trace == old(w.trace) + [HttpSent(req.value)]
            && (r.Ok? <==> out.Ok?)
            && (r.Ok? ==> r.value == "\nTime off requests for employee " + employeeId + ":\n"
                                     + PyStr(out.value, env.repr) + "\n"))
  {
    var req := TimeOff.GetRequestsRequest(env.bamboo, employeeId, env.today);
    if req.Err? {
      return Err(req.error);
    }
    var res := w.Http(req.value);
    var out := TimeOff.GetRequestsOutcome(res);
    if out.Err? {
      return Err(out.error);
    }
    r := Ok("\nTime off requests for employee " + employeeId + ":\n" + PyStr(out.value, env.repr) + "\n");
  }

  // make_time_off_request_tool

  const TimeOffParams: set<string> := {"employee_id", "start_date", "end_date"}

  /**
    The request for a parsed input: exactly the three arguments, both dates strings `strptime`
    reads with `%Y-%m-%d`; otherwise the error raised before anything is sent.
  */
  function TimeOffRequestFor(env: Env, d: Json): (r: Result<Request>)
    ensures r.Ok? <==>
      d.JObj? && d.fields.Keys == TimeOffParams
      && d.fields["start_date"].JStr? && d.fields["end_date"].JStr?
      && StrptimeDate(d.fields["start_date"].s).Some? && StrptimeDate(d.fields["end_date"].s).Some?
    ensures r.Ok? ==>
      r == TimeOff.AddRequestRequest(env.bamboo, PyStr(d.fields["employee_id"], env.repr),
                                     d.fields["start_date"].s, d.fields["end_date"].s)
  {
    var args := Kwargs(d, TimeOffParams, TimeOffParams);
    if args.Err? then Err(args.error)
    else if !args.value["start_date"].JStr? || !args.value["end_date"].JStr? then
      Err("TypeError: strptime() argument 1 must be str")
    else
      TimeOff.AddRequestRequest(env.bamboo, PyStr(args.value["employee_id"], env.repr),
                                args.value["start_date"].s, args.value["end_date"].s)
  }

  /** A request built from dates `strptime` wrote asks for 8 hours per day between them. */
  lemma TimeOffRequestForDates(env: Env, employee: Json, start: Date, n: nat)
    requires ValidDate(start) && AddDays(start, n).Some?
    ensures var d := JObj(map["employee_id" := employee, "start_date" := JStr(FormatDate(start)),
                               "end_date" := JStr(FormatDate(AddDays(start, n).value))]);
      var r := TimeOffRequestFor(env, d);
      r.Ok? && r.value.body.value.fields["amount"] == JNum(8 * n)
  {
    var e := AddDays(start, n).value;
    var d := JObj(map["employee_id" := employee, "start_date" := JStr(FormatDate(start)), "end_date" := JStr(FormatDate(e))]);
    assert d.fields.Keys == TimeOffParams;
    StrptimeFormatDate(start);
    StrptimeFormatDate(e);
    TimeOff.AddRequestAmount(env.bamboo, PyStr(employee, env.repr), start, n);
  }

  /** make_time_off_request_tool: one request; the reply names the id BambooHR assigned. */
  method MakeTimeOffRun(w: World, env: Env, requestStr: string) returns (r: Result<string>)
    modifies w
    ensures env.loads(requestStr).None? ==> r == Ok(InvalidInputMessage) && w.trace == old(w.trace)
    ensures env.loads(requestStr).Some? ==>
      var d := env.loads(requestStr).value;
      var req := TimeOffRequestFor(env, d);
      && (req.Err? ==> r.Err? && w.trace == old(w.trace))
      && (req.Ok? ==>
            var out := TimeOff.AddRequestOutcome(w.httpReply(|old(w.trace)|, req.value));
            && w.trace == old(w.trace) + [HttpSent(req.value)]
            && (r.Ok? <==> out.Ok?)
            && (r.Ok? ==> r.value == "\nTime off request with id " + out.value + " for employee "
                                     + PyStr(d.fields["employee_id"], env.repr) + " has been made successfully\n"))
  {
    var parsed := env.loads(requestStr);
    if parsed.None? {
      return Ok(InvalidInputMessage);
    }
    var d := parsed.value;
    var req := TimeOffRequestFor(env, d);
    if req.Err? {
      return Err(req.error);
    }
    var res := w.Http(req.value);
    var out := TimeOff.AddRequestOutcome(res);
    if out.Err? {
      return Err(out.error);
    }
    r := Ok("\nTime off request with id " + out.value + " for employee " + PyStr(d.fields["employee_id"], env.repr)
            + " has been made successfully\n");
  }

  // cancel_time_off_request_tool

  /** cancel_time_off_request_tool: one cancellation of the given request. */
  method CancelTimeOffRun(w: World, env: Env, requestId: string) returns (r: Result<string>)
    modifies w
    ensures var req := TimeOff.CancelRequest(env.bamboo, requestId);
      && w.trace == old(w.trace) + [HttpSent(req)]
      && (r.Ok? <==> w.httpReply(|old(w.trace)|, req).status == 200)
      && (r.Ok? ==> r.value == "\nTime off request with id " + requestId + " has been cancelled successfully\n")
  {
    var res := w.Http(TimeOff.CancelRequest(env.bamboo, requestId));
    var out := TimeOff.CancelOutcome(res);
    if out.Err? {
      return Err(out.error);
    }
    r := Ok("\nTime off request with id " + requestId + " has been cancelled successfully\n");
  }

  // estimate_time_off_balance_tool

  /**
    The date the estimate is asked for: `(today + timedelta(days=365)).strftime("%Y-%m-%d")`,
    `None` exactly where Python overflows past 9999-12-31.
  */
  function EstimateDate(today: Date): (r: Option<string>)
    requires ValidDate(today)
    ensures r.Some? <==> DaysFromCivil(today) + 365 <= MaxDayNumber
    ensures r.Some? ==>
      StrptimeDate(r.value).Some? && DaysFromCivil(StrptimeDate(r.value).value) == DaysFromCivil(today) + 365
    ensures r.Some? ==> ParseDate(r.value) == AddDays(today, 365)
  {
    match AddDays(today, 365)
    case None => None
    case Some(end) =>
      ParseFormatDate(end);
      StrptimeFormatDate(end);
      AddDaysNumber(today, 365);
      Some(FormatDate(end))
  }

  /** estimate_time_off_balance_tool: the balance a year from today, printed after a heading. */
  method EstimateTimeOffRun(w: World, env: Env, employeeId: string) returns (r: Result<string>)
    requires ValidDate(env.today)
    modifies w
    ensures EstimateDate(env.today).None? ==> r.Err? && w.trace == old(w.trace)
    ensures EstimateDate(env.today).Some? ==>
      var req := TimeOff.EstimateRequest(env.bamboo, employeeId, EstimateDate(env.today).value);
      var out := TimeOff.EstimateOutcome(w.httpReply(|old(w.trace)|, req));
      && w.trace == old(w.trace) + [HttpSent(req)]
      && (r.Ok? <==> out.Ok?)
      && (r.Ok? ==> r.value == "\nTime off balance for employee " + employeeId + ":\n" + PyStr(out.value, env.repr) + "\n")
  {
    var endDate := EstimateDate(env.today);
    if endDate.None? {
      return Err("OverflowError: date value out of range");
    }
    var res := w.Http(TimeOff.EstimateRequest(env.bamboo, employeeId, endDate.value));
    var out := TimeOff.EstimateOutcome(res);
    if out.Err? {
      return Err(out.error);
    }
    r := Ok("\nTime off balance for employee " + employeeId + ":\n" + PyStr(out.value, env.repr) + "\n");
  }
}
