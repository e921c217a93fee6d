/** The request/response rules of the Workdeck client: `fetchWithAuth`'s mapping of
    HTTP statuses to errors, the `data.result || data` unwrap of the `fetch*`
    wrappers, and the body `createWorkdeckTask` posts. The network exchange itself
    is abstracted to the status line and the parsed JSON body of the response. */
module ApiClient {

  import opened Options
  import opened JsText

  /** A parsed JSON value; an object keeps its fields in source order. */
  datatype Json =
    | JNull
    | JBool(b: bool)
    | JNumber(n: real)
    | JString(s: string)
    | JArray(items: seq<Json>)
    | JObject(fields: seq<(string, Json)>)

  /** JavaScript truthiness of a parsed JSON value. */
  predicate Truthy(j: Json) {
    match j
    case JNull => false
    case JBool(b) => b
    case JNumber(n) => n != 0.0
    case JString(s) => s != ""
    case _ => true
  }

  /** The value of the field `key`; when the key is repeated, the last one counts, as
      `JSON.parse` keeps the last duplicate. */
  function LookupField(fields: seq<(string, Json)>, key: string): (r: Option<Json>)
    ensures r.Some? ==> exists i :: (0 <= i < |fields| && fields[i] == (key, r.value) &&
      forall k :: i < k < |fields| ==> fields[k].0 != key)
    ensures r.None? ==> forall i :: 0 <= i < |fields| ==> fields[i].0 != key
  {
    if fields == [] then None
    else if fields[|fields| - 1].0 == key then Some(fields[|fields| - 1].1)
    else LookupField(fields[..|fields| - 1], key)
  }

  /** `j[key]` as JavaScript reads it; only objects carry the fields looked up here. */
  function Property(j: Json, key: string): Option<Json> {
    match j
    case JObject(fields) => LookupField(fields, key)
    case _ => None
  }

  /** A failure of a request, as the client reports it. */
  datatype ApiError =
    | NoToken
    | AuthenticationFailed
    | AccessDenied
    | NotFound
    | HttpError(status: nat, statusText: string)
    /** `data.result` read on a `null` body throws a TypeError. */
    | NullPayload

  const NoTokenMessage: string := "No authentication token available"
  const AuthenticationMessage: string := "Authentication failed. Please check your token."
  const AccessDeniedMessage: string := "Access denied. You may not have permission to access this resource."
  const NotFoundMessage: string := "Resource not found. The requested endpoint may not exist."
  const HttpErrorPrefix: string := "API Error: "
  const NullPayloadMessage: string := "Cannot read properties of null (reading 'result')"

  /** `error.message`, the text the dashboard shows for a failure. */
  function Message(e: ApiError): string {
    match e
    case NoToken => NoTokenMessage
    case AuthenticationFailed => AuthenticationMessage
    case AccessDenied => AccessDeniedMessage
    case NotFound => NotFoundMessage
    case HttpError(status, text) => HttpErrorPrefix + NatToDecimal(status) + " " + text
    case NullPayload => NullPayloadMessage
  }

  /** The number of leading decimal digits of `s`. */
  function DigitRun(s: string): (k: nat)
    ensures k <= |s|
    ensures forall i :: 0 <= i < k ==> IsDigit(s[i])
    ensures k < |s| ==> !IsDigit(s[k])
  {
    if s != [] && IsDigit(s[0]) then 1 + DigitRun(s[1..]) else 0
  }

  /** Reads the status and the status text back from the message of a generic HTTP
      error; None on any other text. */
  function ParseHttpErrorMessage(m: string): Option<(nat, string)> {
    if |m| >= |HttpErrorPrefix| && m[..|HttpErrorPrefix|] == HttpErrorPrefix then
      var rest := m[|HttpErrorPrefix|..];
      var k := DigitRun(rest);
      if 0 < k < |rest| && rest[k] == ' ' then Some((DecimalValue(rest[..k]), rest[k + 1..]))
      else None
    else None
  }

  lemma {:induction false} DigitRunOfRendering(d: string, t: string)
    requires forall i :: 0 <= i < |d| ==> IsDigit(d[i])
    ensures DigitRun(d + " " + t) == |d|
  {
    if d != [] {
      assert (d + " " + t)[1..] == d[1..] + " " + t;
      DigitRunOfRendering(d[1..], t);
    }
  }

  /** The message of a generic HTTP error loses nothing: the status and the status
      text can be read back from it, whatever the text holds. */
  lemma HttpErrorMessageRoundTrip(status: nat, text: string)
    ensures ParseHttpErrorMessage(Message(HttpError(status, text))) == Some((status, text))
  {
    var d := NatToDecimal(status);
    var m := Message(HttpError(status, text));
    assert m[..|HttpErrorPrefix|] == HttpErrorPrefix;
    var rest := m[|HttpErrorPrefix|..];
    assert rest == d + " " + text;
    DigitRunOfRendering(d, text);
    assert rest[..|d|] == d;
    assert rest[|d| + 1..] == text;
    DecimalRoundTrip(status);
  }

  /** Two generic HTTP errors have the same message only when status and text agree. */
  lemma HttpErrorMessageInjective(s1: nat, t1: string, s2: nat, t2: string)
    requires Message(HttpError(s1, t1)) == Message(HttpError(s2, t2))
    ensures s1 == s2 && t1 == t2
  {
    HttpErrorMessageRoundTrip(s1, t1);
    HttpErrorMessageRoundTrip(s2, t2);
  }

  /** A response reduced to what `fetchWithAuth` inspects: the status line and the
      parsed body. */
  datatype Response = Response(status: nat, statusText: string, body: Json)

  predicate IsOk(status: nat) {
    200 <= status <= 299
  }

  /** `fetchWithAuth` (lines 45-73) on the response the request got. */
  function FetchWithAuth(token: string, response: Response): (r: Result<Json, ApiError>)
    ensures r.Success? <==> token != "" && IsOk(response.status)
    ensures r.Success? ==> r.value == response.body
    ensures token == "" ==> r == Failure(NoToken)
  {
    if token == "" then Failure(NoToken)
    else if !IsOk(response.status) then
      if response.status == 401 then Failure(AuthenticationFailed)
      else if response.status == 403 then Failure(AccessDenied)
      else if response.status == 404 then Failure(NotFound)
      else Failure(HttpError(response.status, response.statusText))
    else Success(response.body)
  }

  /** With a token, every status outside 200-299 is a failure, and which one depends
      on the status alone: 401, 403 and 404 have their own failures, every other
      status is reported with its code and text. */
  lemma StatusMapping(token: string, response: Response)
    requires token != "" && !IsOk(response.status)
    ensures FetchWithAuth(token, response).Failure?
    ensures var e := FetchWithAuth(token, response).error;
      (e == AuthenticationFailed <==> response.status == 401) &&
      (e == AccessDenied <==> response.status == 403) &&
      (e == NotFound <==> response.status == 404) &&
      (e.HttpError? <==> response.status !in {401, 403, 404}) &&
      (e.HttpError? ==> e.status == response.status && e.statusText == response.statusText)
  {
  }

  /** `data.result || data`. */
  function Unwrap(data: Json): (r: Result<Json, ApiError>)
    ensures data == JNull <==> r == Failure(NullPayload)
    ensures r.Success? ==> r.value == data || Property(data, "result") == Some(r.value)
    ensures data != JNull && Property(data, "result").Some? && Truthy(Property(data, "result").value) ==>
      r == Success(Property(data, "result").value)
    ensures data != JNull && (Property(data, "result").None? || !Truthy(Property(data, "result").value)) ==>
      r == Success(data)
  {
    if data == JNull then Failure(NullPayload)
    else match Property(data, "result")
      case Some(v) => if Truthy(v) then Success(v) else Success(data)
      case None => Success(data)
  }

  /** An envelope `{result: x}` is opened when `x` is truthy, and kept otherwise. */
  lemma UnwrapEnvelope(x: Json)
    ensures Unwrap(JObject([("result", x)])) == if Truthy(x) then Success(x) else Success(JObject([("result", x)]))
  {
  }

  /** A bare list comes through unchanged. */
  lemma UnwrapBareList(items: seq<Json>)
    ensures Unwrap(JArray(items)) == Success(JArray(items))
  {
  }

  /** `fetchUsers`, `fetchProjects`, `fetchOffices` and `fetchMyUser` (lines 75-113):
      the request, then the unwrap of its body. The four differ only in the path. */
  function FetchQuery(token: string, response: Response): (r: Result<Json, ApiError>)
    ensures r.Success? ==> token != "" && IsOk(response.status) && response.body != JNull
    ensures token != "" && IsOk(response.status) && response.body.JArray? ==>
      r == Success(response.body)
    ensures FetchWithAuth(token, response).Failure? ==> r == FetchWithAuth(token, response)
    ensures FetchWithAuth(token, response).Success? ==> r == Unwrap(response.body)
  {
    match FetchWithAuth(token, response)
    case Failure(e) => Failure(e)
    case Success(data) => Unwrap(data)
  }

  /** `fetchMyUser().catch(() => null)`: the current user is best effort. */
  function CurrentUserOrNull(r: Result<Json, ApiError>): (u: Json)
    ensures r.Failure? ==> u == JNull
    ensures r.Success? ==> u == r.value
  {
    match r
    case Success(v) => v
    case Failure(_) => JNull
  }

  // -------------------------------------------------------------- create task

  /** The form data `submitTaskAssignment` passes on: `estimatedHours` and `priority`
      come from `parseInt`, and a priority that does not parse is None. */
  datatype TaskRequest = TaskRequest(
    name: string, projectId: string, estimatedHours: int, priority: Option<int>, userId: string)

  /** `taskData.priority || 2`. */
  function Importance(t: TaskRequest): (i: int)
    ensures t.priority.Some? && t.priority.value != 0 ==> i == t.priority.value
    ensures t.priority.None? || t.priority == Some(0) ==> i == 2
  {
    match t.priority
    case Some(p) => if p != 0 then p else 2
    case None => 2
  }

  /** The JSON body of `POST /commands/sync/create-task` (lines 347-358). */
  function CreateTaskBody(t: TaskRequest): Json {
    var hours := JString(IntToDecimal(t.estimatedHours));
    JObject([
      ("name", JString(t.name)),
      ("project", JObject([("id", JString(t.projectId))])),
      ("plannedHours", hours),
      ("importance", JNumber(Importance(t) as real)),
      ("participants", JArray([JObject([
        ("user", JObject([("id", JString(t.userId))])),
        ("isOwner", JBool(true)),
        ("plannedHours", hours),
        ("percentage", JNumber(100.0))])]))])
  }

  /** What a server reads from a create-task body. */
  datatype TaskFields = TaskFields(
    name: string, projectId: string, plannedHours: int, importance: real,
    ownerId: string, ownerIsOwner: bool, ownerPlannedHours: int, ownerPercentage: real)

  function StringField(fields: seq<(string, Json)>, key: string): Option<string> {
    match LookupField(fields, key)
    case Some(JString(s)) => Some(s)
    case _ => None
  }

  function NumberField(fields: seq<(string, Json)>, key: string): Option<real> {
    match LookupField(fields, key)
    case Some(JNumber(n)) => Some(n)
    case _ => None
  }

  function ObjectField(fields: seq<(string, Json)>, key: string): Option<seq<(string, Json)>> {
    match LookupField(fields, key)
    case Some(JObject(fs)) => Some(fs)
    case _ => None
  }

  function IntegerField(fields: seq<(string, Json)>, key: string): Option<int> {
    match StringField(fields, key)
    case Some(s) => ParseInteger(s)
    case None => None
  }

  /** Reads the fields back from a create-task body, with the single participant;
      None when the body does not have that shape. */
  function ReadTaskBody(body: Json): Option<TaskFields> {
    if !body.JObject? then None
    else
      var fs := body.fields;
      match LookupField(fs, "participants")
      case Some(JArray(items)) =>
        if |items| == 1 && items[0].JObject? then ReadTaskFields(fs, items[0].fields) else None
      case _ => None
  }

  function ReadTaskFields(fs: seq<(string, Json)>, ps: seq<(string, Json)>): Option<TaskFields> {
    var name, project := StringField(fs, "name"), ObjectField(fs, "project");
    var hours, importance := IntegerField(fs, "plannedHours"), NumberField(fs, "importance");
    if name.Some? && project.Some? && hours.Some? && importance.Some? then
      var projectId, user := StringField(project.value, "id"), ObjectField(ps, "user");
      var owner, ownerHours := LookupField(ps, "isOwner"), IntegerField(ps, "plannedHours");
      var percentage := NumberField(ps, "percentage");
      if projectId.Some? && user.Some? && owner.Some? && owner.value.JBool? && ownerHours.Some? && percentage.Some? then
        var userId := StringField(user.value, "id");
        if userId.Some? then
          Some(TaskFields(name.value, projectId.value, hours.value, importance.value,
                          userId.value, owner.value.b, ownerHours.value, percentage.value))
        else None
      else None
    else None
  }

  /** The body carries the request in full: the planned hours read back as the
      estimate given (sent as a string), the importance as the priority or 2, and the
      single participant is the assignee as owner at 100%. */
  lemma CreateTaskBodyRoundTrip(t: TaskRequest)
    ensures ReadTaskBody(CreateTaskBody(t)) == Some(TaskFields(
      t.name, t.projectId, t.estimatedHours, Importance(t) as real,
      t.userId, true, t.estimatedHours, 100.0))
  {
    BodyTopFields(t);
    BodyParticipantFields(t);
    var fs := CreateTaskBody(t).fields;
    var ps := fs[4].1.items[0].fields;
    IntegerRoundTrip(t.estimatedHours);
    assert ReadTaskBody(CreateTaskBody(t)) == ReadTaskFields(fs, ps);
    ReadWrittenFields(t, fs, ps);
  }

  /** The reading of fields that hold what a create-task body writes. */
  lemma ReadWrittenFields(t: TaskRequest, fs: seq<(string, Json)>, ps: seq<(string, Json)>)
    requires StringField(fs, "name") == Some(t.name)
    requires ObjectField(fs, "project") == Some([("id", JString(t.projectId))])
    requires IntegerField(fs, "plannedHours") == Some(t.estimatedHours)
    requires NumberField(fs, "importance") == Some(Importance(t) as real)
    requires ObjectField(ps, "user") == Some([("id", JString(t.userId))])
    requires LookupField(ps, "isOwner") == Some(JBool(true))
    requires IntegerField(ps, "plannedHours") == Some(t.estimatedHours)
    requires NumberField(ps, "percentage") == Some(100.0)
    ensures ReadTaskFields(fs, ps) == Some(TaskFields(
      t.name, t.projectId, t.estimatedHours, Importance(t) as real,
      t.userId, true, t.estimatedHours, 100.0))
  {
    LookupSingle("id", JString(t.projectId), "id");
    LookupSingle("id", JString(t.userId), "id");
    assert StringField([("id", JString(t.projectId))], "id") == Some(t.projectId);
    assert StringField([("id", JString(t.userId))], "id") == Some(t.userId);
  }

  lemma LookupSingle(k: string, v: Json, key: string)
    ensures LookupField([(k, v)], key) == if k == key then Some(v) else None
  {
    assert [(k, v)][..0] == [];
  }

  lemma BodyTopFields(t: TaskRequest)
    ensures var fs := CreateTaskBody(t).fields;
      StringField(fs, "name") == Some(t.name) &&
      ObjectField(fs, "project") == Some([("id", JString(t.projectId))]) &&
      StringField(fs, "plannedHours") == Some(IntToDecimal(t.estimatedHours)) &&
      NumberField(fs, "importance") == Some(Importance(t) as real) &&
      LookupField(fs, "participants") == Some(fs[4].1)
  {
    var fs := CreateTaskBody(t).fields;
    LookupFive(fs[0], fs[1], fs[2], fs[3], fs[4], "participants");
    LookupFive(fs[0], fs[1], fs[2], fs[3], fs[4], "name");
    LookupFive(fs[0], fs[1], fs[2], fs[3], fs[4], "project");
    LookupFive(fs[0], fs[1], fs[2], fs[3], fs[4], "plannedHours");
    LookupFive(fs[0], fs[1], fs[2], fs[3], fs[4], "importance");
  }

  lemma BodyParticipantFields(t: TaskRequest)
    ensures var ps := CreateTaskBody(t).fields[4].1.items[0].fields;
      ObjectField(ps, "user") == Some([("id", JString(t.userId))]) &&
      LookupField(ps, "isOwner") == Some(JBool(true)) &&
      StringField(ps, "plannedHours") == Some(IntToDecimal(t.estimatedHours)) &&
      NumberField(ps, "percentage") == Some(100.0)
  {
    var ps := CreateTaskBody(t).fields[4].1.items[0].fields;
    LookupFour(ps[0], ps[1], ps[2], ps[3], "user");
    LookupFour(ps[0], ps[1], ps[2], ps[3], "isOwner");
    LookupFour(ps[0], ps[1], ps[2], ps[3], "plannedHours");
    LookupFour(ps[0], ps[1], ps[2], ps[3], "percentage");
  }

  /** The lookup in a list of at most five fields, written out. */
  function LookupInFive(a: (string, Json), b: (string, Json), c: (string, Json), d: (string, Json), e: (string, Json),
                        key: string): Option<Json> {
    if e.0 == key then Some(e.1)
    else if d.0 == key then Some(d.1)
    else if c.0 == key then Some(c.1)
    else if b.0 == key then Some(b.1)
    else if a.0 == key then Some(a.1)
    else None
  }

  /** Appending a field makes it the one found for its key. */
  lemma LookupAppended(fs: seq<(string, Json)>, f: (string, Json), key: string)
    ensures LookupField(fs + [f], key) == if f.0 == key then Some(f.1) else LookupField(fs, key)
  {
    assert (fs + [f])[..|fs|] == fs;
  }

  lemma LookupFive(a: (string, Json), b: (string, Json), c: (string, Json), d: (string, Json), e: (string, Json),
                   key: string)
    ensures LookupField([a, b, c, d, e], key) == LookupInFive(a, b, c, d, e, key)
  {
    assert [a, b, c, d, e] == [a, b, c, d] + [e];
    assert [a, b, c, d] == [a, b, c] + [d];
    assert [a, b, c] == [a, b] + [c];
    assert [a, b] == [a] + [b];
    assert [a] == [] + [a];
    LookupAppended([a, b, c, d], e, key);
    LookupAppended([a, b, c], d, key);
    LookupAppended([a, b], c, key);
    LookupAppended([a], b, key);
    LookupAppended([], a, key);
  }

  lemma LookupFour(b: (string, Json), c: (string, Json), d: (string, Json), e: (string, Json), key: string)
    requires key != ""
    ensures LookupField([b, c, d, e], key) == LookupInFive(("", JNull), b, c, d, e, key)
  {
    assert [b, c, d, e] == [b, c, d] + [e];
    assert [b, c, d] == [b, c] + [d];
    assert [b, c] == [b] + [c];
    assert [b] == [] + [b];
    LookupAppended([b, c, d], e, key);
    LookupAppended([b, c], d, key);
    LookupAppended([b], c, key);
    LookupAppended([], b, key);
  }

  /** Worked case: 20 estimated hours are sent as the string "20". */
  lemma CreateTaskBodyExample()
    ensures var body := CreateTaskBody(TaskRequest("Design", "p1", 20, None, "u1"));
      Property(body, "plannedHours") == Some(JString("20")) &&
      Property(body, "importance") == Some(JNumber(2.0))
  {
    assert IntToDecimal(20) == "20" by {
      assert NatToDecimal(2) == "2";
    }
    var body := CreateTaskBody(TaskRequest("Design", "p1", 20, None, "u1"));
    var fs := body.fields;
    LookupFive(fs[0], fs[1], fs[2], fs[3], fs[4], "plannedHours");
    LookupFive(fs[0], fs[1], fs[2], fs[3], fs[4], "importance");
  }
}
