/**
  The BambooHR employee calls: reading an employee's fields, adding an employee, and editing the
  name or e-mail of one. Field values arrive from decoded JSON and are passed on as they are.
*/
module Employees {
  import opened Wrappers
  import opened Json
  import opened Text
  import opened Encoding
  import opened BambooHttp

  /** The fields `get_employee` asks for when none are given. */
  const DefaultFields: seq<string> := ["firstName", "lastName", "homeEmail", "location", "hireDate"]

  /** The office every new employee is placed in. */
  const OfficeLocation: string := "London, UK"

  // ---------------------------------------------------------------------------------------------
  // get_employee

  /** The request of `get_employee`: the fields, comma-joined, in the `fields` query parameter. */
  function GetEmployeeRequest(settings: Settings, employeeId: string, fields: seq<string>): (r: Request)
    ensures r.verb == GET && r.body == None
    ensures r.url == settings.baseUrl + ("/employees/" + employeeId + "/?" + UrlEncode([("fields", Join(",", fields))]))
  {
    BambooRequest(settings, "/employees/" + employeeId + "/?" + UrlEncode([("fields", Join(",", fields))]), GET, None)
  }

  /** The `fields` parameter reads back, once unquoted and split on commas, as the requested fields in order. */
  lemma GetEmployeeFieldsReadBack(fields: seq<string>)
    requires |fields| >= 1
    requires forall i :: 0 <= i < |fields| ==> ',' !in fields[i]
    ensures UnquotePlusBytes(QuotePlus(Join(",", fields))) == Some(Utf8(Join(",", fields)))
    ensures SplitOn(Join(",", fields), ',') == fields
  {
    QuotePlusRoundTrip(Utf8(Join(",", fields)));
    SplitOnJoin(fields, ',');
  }

  /** Status 200 and a JSON body give the employee record; anything else raises. */
  function GetEmployeeOutcome(res: Response): (r: Result<Json>)
    ensures r.Ok? <==> res.status == 200 && res.body.Some?
    ensures r.Ok? ==> r.value == res.body.value
    ensures res.status != 200 ==> r == Err("Error getting employee")
  {
    var checked := ExpectStatus(res, 200, "Error getting employee");
    if checked.Err? then Err(checked.error) else ResponseJson(res)
  }

  // ---------------------------------------------------------------------------------------------
  // add_employee

  /** The request of `add_employee`: names and e-mail as given (the e-mail as `homeEmail`), the fixed office, the hire date. */
  function AddEmployeeRequest(settings: Settings, firstName: Json, lastName: Json, emailAddress: Json, hireDate: string): (r: Request)
    ensures r.verb == POST && r.url == settings.baseUrl + "/employees"
    ensures r.body.Some? && r.body.value.JObj?
    ensures var f := r.body.value.fields;
      f.Keys == {"firstName", "lastName", "homeEmail", "location", "hireDate"}
      && f["firstName"] == firstName && f["lastName"] == lastName && f["homeEmail"] == emailAddress
      && f["location"] == JStr(OfficeLocation) && f["hireDate"] == JStr(hireDate)
  {
    var data := map["firstName" := firstName, "lastName" := lastName, "homeEmail" := emailAddress,
                    "location" := JStr(OfficeLocation), "hireDate" := JStr(hireDate)];
    BambooRequest(settings, "/employees", POST, Some(JObj(data)))
  }

  /** Success needs status 201; the new employee's id is then the last `/`-separated segment of `Location`. */
  function AddEmployeeOutcome(res: Response): (r: Result<string>)
    ensures r.Ok? <==> res.status == 201 && res.location.Some?
    ensures res.status != 201 ==> r == Err("Error creating employee")
    ensures r.Ok? ==> r.value == LastSegment(res.location.value, '/') && '/' !in r.value
  {
    if res.status != 201 then Err("Error creating employee")
    else
      var id := LocationId(res);
      if id.Ok? then LocationIdIsLastSegment(res); id else id
  }

  // ---------------------------------------------------------------------------------------------
  // edit_employee

  /** An optional argument that was passed with a truthy value (`None`, `""` and the like do not count). */
  predicate Given(x: Option<Json>)
  {
    x.Some? && Truthy(x.value)
  }

  /** The fields `edit_employee` sends: each given argument under its BambooHR name, nothing else. */
  function EditFields(firstName: Option<Json>, lastName: Option<Json>, emailAddress: Option<Json>)
    : (f: map<string, Json>)
    ensures f.Keys <= {"firstName", "lastName", "homeEmail"}
    ensures "firstName" in f <==> Given(firstName)
    ensures "lastName" in f <==> Given(lastName)
    ensures "homeEmail" in f <==> Given(emailAddress)
    ensures "firstName" in f ==> f["firstName"] == firstName.value
    ensures "lastName" in f ==> f["lastName"] == lastName.value
    ensures "homeEmail" in f ==> f["homeEmail"] == emailAddress.value
  {
    var first := if Given(firstName) then map["firstName" := firstName.value] else map[];
    var last := if Given(lastName) then map["lastName" := lastName.value] else map[];
    var email := if Given(emailAddress) then map["homeEmail" := emailAddress.value] else map[];
    first + last + email
  }

  /** The `data` dict of `edit_employee`, filled in place one given field at a time. */
  method EditData(firstName: Option<Json>, lastName: Option<Json>, emailAddress: Option<Json>)
    returns (data: map<string, Json>)
    ensures data == EditFields(firstName, lastName, emailAddress)
  {
    data := map[];
    if Given(firstName) {
      data := data["firstName" := firstName.value];
    }
    if Given(lastName) {
      data := data["lastName" := lastName.value];
    }
    if Given(emailAddress) {
      data := data["homeEmail" := emailAddress.value];
    }
  }

  const NoFieldMessage: string := "At least one field must be provided"

  /**
    The request of `edit_employee`: raises before anything is sent when no field is given;
    otherwise a POST of exactly the given fields.
  */
  method EditEmployeeRequest(settings: Settings, employeeId: string, firstName: Option<Json>,
                             lastName: Option<Json>, emailAddress: Option<Json>)
    returns (r: Result<Request>)
    ensures r.Err? <==> !Given(firstName) && !Given(lastName) && !Given(emailAddress)
    ensures r.Err? ==> r.error == NoFieldMessage
    ensures r.Ok? ==>
      r.value.verb == POST && r.value.url == settings.baseUrl + ("/employees/" + employeeId + "/")
      && r.value.body.Some? && r.value.body.value.JObj? && r.value.body.value.fields != map[]
    ensures r.Ok? ==> r.value.body.value.fields == EditFields(firstName, lastName, emailAddress)
    ensures r.Ok? ==>
      r.value == BambooRequest(settings, "/employees/" + employeeId + "/", POST, Some(JObj(EditFields(firstName, lastName, emailAddress))))
  {
    if !Given(firstName) && !Given(lastName) && !Given(emailAddress) {
      return Err(NoFieldMessage);
    }
    var data := EditData(firstName, lastName, emailAddress);
    r := Ok(BambooRequest(settings, "/employees/" + employeeId + "/", POST, Some(JObj(data))));
  }

  /** Only status 200 is success. */
  function EditOutcome(res: Response): (r: Result<()>)
    ensures r.Ok? <==> res.status == 200
    ensures r.Err? ==> r.error == "Error editing employee"
  {
    ExpectStatus(res, 200, "Error editing employee")
  }
}
