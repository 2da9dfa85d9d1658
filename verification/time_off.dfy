/**
  The BambooHR time-off calls: for each one, the request it sends and how it reads the reply.
  The clock (`date.today()`) is the parameter `today`.
*/
module TimeOff {
  import opened Wrappers
  import opened Json
  import opened Text
  import opened Dates
  import opened BambooHttp

  /** BambooHR's "Manual Vacation Policy" id. */
  const ManualVacationPolicyId: int := 3
  /** BambooHR's vacation time-off type id. */
  const VacationTypeId: int := 78
  /** Amounts are in hours, eight to a working day. */
  const HoursPerDay: int := 8
  /** Vacation days granted per year by the HR policy. */
  const AnnualVacationDays: int := 25

  // ---------------------------------------------------------------------------------------------
  // add_time_off_policy

  /** The request of `add_time_off_policy`: one policy entry with the accrual start date. */
  function AddPolicyRequest(settings: Settings, employeeId: string, accrualStartDate: string): (r: Request)
    ensures r.verb == PUT && r.url == settings.baseUrl + ("/employees/" + employeeId + "/time_off/policies")
    ensures r.headers == BambooRequest(settings, "", PUT, None).headers
    ensures r.body.Some? && r.body.value.JArr? && |r.body.value.items| == 1
    ensures var entry := r.body.value.items[0];
      entry.JObj? && entry.fields.Keys == {"timeOffPolicyId", "accrualStartDate"}
      && entry.fields["timeOffPolicyId"] == JNum(ManualVacationPolicyId)
      && entry.fields["accrualStartDate"] == JStr(accrualStartDate)
  {
    var entry := JObj(map["timeOffPolicyId" := JNum(ManualVacationPolicyId),
                           "accrualStartDate" := JStr(accrualStartDate)]);
    BambooRequest(settings, "/employees/" + employeeId + "/time_off/policies", PUT, Some(JArr([entry])))
  }

  /** Only status 200 is success. */
  function AddPolicyOutcome(res: Response): (r: Result<()>)
    ensures r.Ok? <==> res.status == 200
    ensures r.Err? ==> r.error == "Error adding time off policy"
  {
    ExpectStatus(res, 200, "Error adding time off policy")
  }

  // ---------------------------------------------------------------------------------------------
  // add_time_off_balance

  /** The request of `add_time_off_balance`: today's adjustment of 25 days of 8 hours to the vacation type. */
  function AddBalanceRequest(settings: Settings, employeeId: string, today: Date): (r: Request)
    requires ValidDate(today)
    ensures r.verb == PUT && r.url == settings.baseUrl + ("/employees/" + employeeId + "/time_off/balance_adjustment")
    ensures r.headers == BambooRequest(settings, "", PUT, None).headers
    ensures r.body.Some? && r.body.value.JObj?
    ensures var f := r.body.value.fields;
      f.Keys == {"timeOffTypeId", "date", "amount"} && f["timeOffTypeId"] == JNum(VacationTypeId)
      && f["date"] == JStr(FormatDate(today)) && f["amount"] == JNum(200)
  {
    var data := map["timeOffTypeId" := JNum(VacationTypeId),
                    "date" := JStr(FormatDate(today)),
                    "amount" := JNum(AnnualVacationDays * HoursPerDay)];
    BambooRequest(settings, "/employees/" + employeeId + "/time_off/balance_adjustment", PUT, Some(JObj(data)))
  }

  /** Only status 201 is success. */
  function AddBalanceOutcome(res: Response): (r: Result<()>)
    ensures r.Ok? <==> res.status == 201
    ensures r.Err? ==> r.error == "Error modifying time off balance"
  {
    ExpectStatus(res, 201, "Error modifying time off balance")
  }

  // ---------------------------------------------------------------------------------------------
  // get_time_off_requests

  /** The query window: from today to 365 days later; `None` where Python overflows past year 9999. */
  function RequestsWindow(today: Date): (r: Option<(Date, Date)>)
    requires ValidDate(today)
    ensures r.Some? <==> AddDays(today, 365).Some?
    ensures r.Some? ==>
      r.value.0 == today && ValidDate(r.value.1) && DaysFromCivil(r.value.1) == DaysFromCivil(today) + 365
  {
    var later := AddDays(today, 365);
    if later.None? then None
    else
      AddDaysNumber(today, 365);
      Some((today, later.value))
  }

  /** The query parameters: window start and end as `YYYY-MM-DD`, then the employee. */
  function RequestsParams(window: (Date, Date), employeeId: string): seq<(string, string)>
    requires ValidDate(window.0) && ValidDate(window.1)
  {
    [("start", FormatDate(window.0)), ("end", FormatDate(window.1)), ("employeeId", employeeId)]
  }

  /** The request of `get_time_off_requests`, or `Err` where computing the window end overflows. */
  function GetRequestsRequest(settings: Settings, employeeId: string, today: Date): (r: Result<Request>)
    requires ValidDate(today)
    ensures r.Ok? <==> RequestsWindow(today).Some?
    ensures r.Ok? ==>
      r.value.verb == GET && r.value.body == None && r.value.url == settings.baseUrl + ("/time_off/requests/?" + UrlEncode(RequestsParams(RequestsWindow(today).value, employeeId)))
  {
    var w := RequestsWindow(today);
    if w.None? then Err("date value out of range")
    else Ok(BambooRequest(settings, "/time_off/requests/?" + UrlEncode(RequestsParams(w.value, employeeId)), GET, None))
  }

  /** A formatted date is left as it is by `quote_plus`. */
  lemma QuoteFormatDate(d: Date)
    requires ValidDate(d)
    ensures QuotePlus(FormatDate(d)) == FormatDate(d)
  {
    var f := FormatDate(d);
    forall i | 0 <= i < |f| ensures IsPlainChar(f[i]) {
      assert f[i] == '-' || '0' <= f[i] <= '9';
    }
    QuotePlusPlain(f);
  }

  /** The query splits into three pairs, the first two `start=<window start>` and `end=<window end>` spelled out unescaped. */
  lemma RequestsQueryWindow(window: (Date, Date), employeeId: string)
    requires ValidDate(window.0) && ValidDate(window.1)
    ensures var pairs := SplitOn(UrlEncode(RequestsParams(window, employeeId)), '&');
      |pairs| == 3 && pairs[0] == "start" + "=" + FormatDate(window.0) && pairs[1] == "end" + "=" + FormatDate(window.1)
  {
    var params := RequestsParams(window, employeeId);
    UrlEncodeSplits(params);
    assert QueryPair(params[0]) == QuotePlus("start") + "=" + QuotePlus(FormatDate(window.0));
    assert QueryPair(params[1]) == QuotePlus("end") + "=" + QuotePlus(FormatDate(window.1));
    PlainKeys();
    QuoteFormatDate(window.0);
    QuoteFormatDate(window.1);
  }

  /** The two window keys need no escaping. */
  lemma PlainKeys()
    ensures QuotePlus("start") == "start" && QuotePlus("end") == "end"
  {
    QuotePlusPlain("start");
    QuotePlusPlain("end");
  }

  /** The reply body is returned whatever the status; only a non-JSON body raises. */
  function GetRequestsOutcome(res: Response): (r: Result<Json>)
    ensures r.Ok? <==> res.body.Some?
    ensures r.Ok? ==> r.value == res.body.value
  {
    ResponseJson(res)
  }

  // ---------------------------------------------------------------------------------------------
  // add_time_off_request

  /**
    The request of `add_time_off_request`: status `requested`, the dates as given, the vacation
    type, and 8 hours per day between the dates. `Err` (before anything is sent) where `strptime`
    cannot read a date with `%Y-%m-%d`.
  */
  function AddRequestRequest(settings: Settings, employeeId: string, startDate: string, endDate: string): (r: Result<Request>)
    ensures r.Ok? <==> StrptimeDate(startDate).Some? && StrptimeDate(endDate).Some?
    ensures r.Ok? ==>
      r.value.verb == PUT && r.value.url == settings.baseUrl + ("/employees/" + employeeId + "/time_off/request")
      && r.value.body.Some? && r.value.body.value.JObj?
    ensures r.Ok? ==> var f := r.value.body.value.fields;
      f.Keys == {"status", "start", "end", "amount", "timeOffTypeId"}
      && f["status"] == JStr("requested") && f["start"] == JStr(startDate) && f["end"] == JStr(endDate)
      && f["timeOffTypeId"] == JNum(VacationTypeId)
      && f["amount"] == JNum(8 * (DaysFromCivil(StrptimeDate(endDate).value) - DaysFromCivil(StrptimeDate(startDate).value)))
  {
    var s := StrptimeDate(startDate);
    var e := StrptimeDate(endDate);
    if s.None? || e.None? then Err("time data does not match format '%Y-%m-%d'")
    else
      var days := DaysFromCivil(e.value) - DaysFromCivil(s.value);
      var data := RequestFields(startDate, endDate, HoursPerDay * days);
      Ok(BambooRequest(settings, "/employees/" + employeeId + "/time_off/request", PUT, Some(JObj(data))))
  }

  /** The body of a time-off request asking for `hours` of vacation. */
  function RequestFields(startDate: string, endDate: string, hours: int): (f: map<string, Json>)
    ensures f.Keys == {"status", "start", "end", "amount", "timeOffTypeId"}
    ensures f["status"] == JStr("requested") && f["start"] == JStr(startDate) && f["end"] == JStr(endDate)
    ensures f["timeOffTypeId"] == JNum(VacationTypeId) && f["amount"] == JNum(hours)
  {
    map["status" := JStr("requested"), "start" := JStr(startDate), "end" := JStr(endDate),
        "amount" := JNum(hours), "timeOffTypeId" := JNum(VacationTypeId)]
  }

  /** A request from a date to the date `n` days later asks for `8 * n` hours; the same day asks for none. */
  lemma AddRequestAmount(settings: Settings, employeeId: string, start: Date, n: nat)
    requires ValidDate(start) && AddDays(start, n).Some?
    ensures var r := AddRequestRequest(settings, employeeId, FormatDate(start), FormatDate(AddDays(start, n).value));
      r.Ok? && r.value.body.value.fields["amount"] == JNum(8 * n)
  {
    var e := AddDays(start, n).value;
    StrptimeFormatDate(start);
    StrptimeFormatDate(e);
    AddDaysNumber(start, n);
    AddRequestAmountOf(settings, employeeId, FormatDate(start), FormatDate(e), start, e, n);
  }

  /** The amount asked for is 8 hours for each day between the two dates the strings read as. */
  lemma AddRequestAmountOf(settings: Settings, employeeId: string, startDate: string, endDate: string, start: Date, end: Date, n: int)
    requires StrptimeDate(startDate) == Some(start) && StrptimeDate(endDate) == Some(end)
    requires DaysFromCivil(end) == DaysFromCivil(start) + n
    ensures var r := AddRequestRequest(settings, employeeId, startDate, endDate);
      r.Ok? && r.value.body.value.fields["amount"] == JNum(8 * n)
  {
  }

  /** Success needs status 201; the id is then the last `/`-separated segment of `Location`. */
  function AddRequestOutcome(res: Response): (r: Result<string>)
    ensures r.Ok? <==> res.status == 201 && res.location.Some?
    ensures res.status != 201 ==> r == Err("Error creating time off request")
    ensures r.Ok? ==> r.value == LastSegment(res.location.value, '/') && '/' !in r.value
  {
    if res.status != 201 then Err("Error creating time off request")
    else
      var id := LocationId(res);
      if id.Ok? then LocationIdIsLastSegment(res); id else id
  }

  // ---------------------------------------------------------------------------------------------
  // cancel_time_off_request

  /** The request of `cancel_time_off_request`: set the request's status to `canceled`. */
  function CancelRequest(settings: Settings, requestId: string): (r: Request)
    ensures r.verb == PUT && r.url == settings.baseUrl + ("/time_off/requests/" + requestId + "/status")
    ensures r.body == Some(JObj(map["status" := JStr("canceled")]))
  {
    BambooRequest(settings, "/time_off/requests/" + requestId + "/status", PUT, Some(JObj(map["status" := JStr("canceled")])))
  }

  /** Only status 200 is success. */
  function CancelOutcome(res: Response): (r: Result<()>)
    ensures r.Ok? <==> res.status == 200
    ensures r.Err? ==> r.error == "Error cancelling time off request"
  {
    ExpectStatus(res, 200, "Error cancelling time off request")
  }

  // ---------------------------------------------------------------------------------------------
  // get_time_off_balance_estimate

  /** The request of `get_time_off_balance_estimate`: the balance calculator up to `end`. */
  function EstimateRequest(settings: Settings, employeeId: string, endDate: string): (r: Request)
    ensures r.verb == GET && r.body == None
    ensures r.url == settings.baseUrl + ("/employees/" + employeeId + "/time_off/calculator/?" + UrlEncode([("end", endDate)]))
  {
    BambooRequest(settings, "/employees/" + employeeId + "/time_off/calculator/?" + UrlEncode([("end", endDate)]), GET, None)
  }

  /** Status 200 and a JSON body give the body; anything else raises. */
  function EstimateOutcome(res: Response): (r: Result<Json>)
    ensures r.Ok? <==> res.status == 200 && res.body.Some?
    ensures r.Ok? ==> r.value == res.body.value
    ensures res.status != 200 ==> r == Err("Error getting time off balance")
  {
    var checked := ExpectStatus(res, 200, "Error getting time off balance");
    if checked.Err? then Err(checked.error) else ResponseJson(res)
  }
}
