/**
 * The shared schemas: the submitted profile (name, age, description), the
 * four-value status enum, and the shape of a status report.
 */
module Schemas {
  import opened Values

  const NAME_MAX_LENGTH := 100
  const AGE_MIN := 0
  const AGE_MAX := 120
  const DESCRIPTION_MAX_LENGTH := 500

  // ---------------------------------------------------------------------------
  // Status

  datatype Status = Pending | Processing | Completed | Failed

  function StatusName(s: Status): string {
    match s
    case Pending => "pending"
    case Processing => "processing"
    case Completed => "completed"
    case Failed => "failed"
  }

  /** Parsing a string against the status enum. */
  function ParseStatus(name: string): (r: Option<Status>)
    ensures r.Some? <==> name in {"pending", "processing", "completed", "failed"}
    ensures r.Some? ==> StatusName(r.value) == name
  {
    if name == "pending" then Some(Pending)
    else if name == "processing" then Some(Processing)
    else if name == "completed" then Some(Completed)
    else if name == "failed" then Some(Failed)
    else None
  }

  lemma StatusNameRoundTrip(s: Status)
    ensures ParseStatus(StatusName(s)) == Some(s)
  {
  }

  predicate IsTerminal(s: Status) {
    s == Completed || s == Failed
  }

  /** Position in the lifecycle pending -> processing -> {completed | failed}. */
  function Stage(s: Status): nat {
    match s
    case Pending => 0
    case Processing => 1
    case Completed => 2
    case Failed => 2
  }

  /** `to` is `from` itself or a strictly later stage of the lifecycle. */
  predicate Forward(from: Status, to: Status) {
    from == to || Stage(from) < Stage(to)
  }

  lemma ForwardIsOrder(a: Status, b: Status, c: Status)
    ensures Forward(a, a)
    ensures Forward(a, b) && Forward(b, c) ==> Forward(a, c)
    ensures Forward(a, b) && Forward(b, a) ==> a == b
    ensures IsTerminal(a) && Forward(a, b) ==> b == a
    ensures Forward(a, b) && b == Pending ==> a == Pending
  {
  }

  // ---------------------------------------------------------------------------
  // Input

  /** A profile that passed the input schema (unknown keys are stripped). */
  datatype AnalyzeInput = AnalyzeInput(name: string, age: int, description: string)

  predicate ValidInput(i: AnalyzeInput) {
    1 <= |i.name| <= NAME_MAX_LENGTH &&
    AGE_MIN <= i.age <= AGE_MAX &&
    1 <= |i.description| <= DESCRIPTION_MAX_LENGTH
  }

  /** The kinds of schema issue this model distinguishes. */
  datatype IssueCode = InvalidType(expected: string) | TooSmall(minimum: int) | TooBig(maximum: int)

  datatype Issue = Issue(path: seq<string>, code: IssueCode)

  function Field(fields: map<string, Json>, key: string): Option<Json> {
    if key in fields then Some(fields[key]) else None
  }

  /** The issues of `z.string().min(1).max(max)`; both bounds are checked. */
  function StringIssues(key: string, v: Option<Json>, max: nat): seq<Issue> {
    match v
    case Some(JStr(s)) =>
      (if |s| < 1 then [Issue([key], TooSmall(1))] else []) +
      (if |s| > max then [Issue([key], TooBig(max))] else [])
    case _ => [Issue([key], InvalidType("string"))]
  }

  predicate IsInteger(n: real) {
    n.Floor as real == n
  }

  /** The issues of `z.number().int().min(0).max(120)`; every check runs. */
  function AgeIssues(v: Option<Json>): seq<Issue> {
    match v
    case Some(JNum(n)) =>
      (if !IsInteger(n) then [Issue(["age"], InvalidType("integer"))] else []) +
      (if n < AGE_MIN as real then [Issue(["age"], TooSmall(AGE_MIN))] else []) +
      (if n > AGE_MAX as real then [Issue(["age"], TooBig(AGE_MAX))] else [])
    case _ => [Issue(["age"], InvalidType("number"))]
  }

  /** All issues of the input schema, field by field in declaration order. */
  function InputIssues(data: Json): (issues: seq<Issue>)
    ensures !data.JObj? ==> issues == [Issue([], InvalidType("object"))]
    ensures data.JObj? ==>
              forall i | 0 <= i < |issues| :: |issues[i].path| == 1 && issues[i].path[0] in {"name", "age", "description"}
  {
    match data
    case JObj(f) =>
      StringIssues("name", Field(f, "name"), NAME_MAX_LENGTH) +
      AgeIssues(Field(f, "age")) +
      StringIssues("description", Field(f, "description"), DESCRIPTION_MAX_LENGTH)
    case _ => [Issue([], InvalidType("object"))]
  }

  predicate StringWithin(fields: map<string, Json>, key: string, max: nat) {
    key in fields && fields[key].JStr? && 1 <= |fields[key].s| <= max
  }

  /** The input schema read as one condition on the parsed body. */
  predicate ConformsToInput(data: Json) {
    data.JObj? &&
    StringWithin(data.fields, "name", NAME_MAX_LENGTH) &&
    "age" in data.fields && data.fields["age"].JNum? &&
    IsInteger(data.fields["age"].n) &&
    AGE_MIN as real <= data.fields["age"].n <= AGE_MAX as real &&
    StringWithin(data.fields, "description", DESCRIPTION_MAX_LENGTH)
  }

  lemma NoIssuesIffConforms(data: Json)
    ensures InputIssues(data) == [] <==> ConformsToInput(data)
  {
  }

  /** `analyzeInputSchema.safeParse(data)` */
  function ValidateInput(data: Json): (r: Result<AnalyzeInput, seq<Issue>>)
    ensures r.Ok? <==> ConformsToInput(data)
    ensures r.Ok? ==> ValidInput(r.value)
    ensures r.Ok? ==>
      r.value.name == data.fields["name"].s &&
      r.value.age as real == data.fields["age"].n &&
      r.value.description == data.fields["description"].s
    ensures r.Err? ==> r.error != []
  {
    NoIssuesIffConforms(data);
    if InputIssues(data) == [] then
      Ok(AnalyzeInput(data.fields["name"].s, data.fields["age"].n.Floor, data.fields["description"].s))
    else
      Err(InputIssues(data))
  }

  /** A body holding exactly the three profile fields. */
  function ProfileJson(name: string, age: real, description: string): Json {
    JObj(map["name" := JStr(name), "age" := JNum(age), "description" := JStr(description)])
  }

  lemma AgeBoundaries(name: string, description: string)
    requires 1 <= |name| <= NAME_MAX_LENGTH && 1 <= |description| <= DESCRIPTION_MAX_LENGTH
    ensures ValidateInput(ProfileJson(name, 0.0, description)).Ok?
    ensures ValidateInput(ProfileJson(name, 120.0, description)).Ok?
    ensures ValidateInput(ProfileJson(name, -1.0, description)).Err?
    ensures ValidateInput(ProfileJson(name, 121.0, description)).Err?
    ensures ValidateInput(ProfileJson(name, 27.5, description)).Err?
  {
    assert (27.5).Floor == 27;
  }

  lemma LengthBoundaries(name: string, d500: string, d501: string)
    requires 1 <= |name| <= NAME_MAX_LENGTH && |d500| == 500 && |d501| == 501
    ensures ValidateInput(ProfileJson(name, 27.0, d500)).Ok?
    ensures ValidateInput(ProfileJson(name, 27.0, d501)).Err?
    ensures ValidateInput(ProfileJson("", 27.0, d500)).Err?
    ensures ValidateInput(ProfileJson(name, 27.0, "")).Err?
  {
  }

  // ---------------------------------------------------------------------------
  // Issues as they appear in a 400 response's `details`

  function IssueCodeName(c: IssueCode): string {
    match c
    case InvalidType(_) => "invalid_type"
    case TooSmall(_) => "too_small"
    case TooBig(_) => "too_big"
  }

  function PathJson(path: seq<string>): (items: seq<Json>)
    ensures |items| == |path|
    ensures forall i | 0 <= i < |path| :: items[i] == JStr(path[i])
  {
    if path == [] then [] else [JStr(path[0])] + PathJson(path[1..])
  }

  function IssueJson(issue: Issue): Json {
    JObj(map["code" := JStr(IssueCodeName(issue.code)), "path" := JArr(PathJson(issue.path))])
  }

  function IssuesJson(issues: seq<Issue>): (items: seq<Json>)
    ensures |items| == |issues|
    ensures forall i | 0 <= i < |issues| :: items[i] == IssueJson(issues[i])
  {
    if issues == [] then [] else [IssueJson(issues[0])] + IssuesJson(issues[1..])
  }

  // ---------------------------------------------------------------------------
  // Status report

  /** A `result` or `error` that is a string, null, or absent. */
  datatype Nullable = Absent | Null | Text(value: string)

  /** `v ?? null` */
  function Coalesce(v: Nullable): (r: Nullable)
    ensures r != Absent
    ensures v != Absent ==> r == v
  {
    if v.Absent? then Null else v
  }

  datatype AnalyzeResult = AnalyzeResult(requestId: string, status: Status, result: Nullable, error: Nullable)

  /** `z.string().nullable().optional()` on a possibly missing key; None when it fails. */
  function NullableField(v: Option<Json>): (r: Option<Nullable>)
    ensures r.Some? <==> (v.None? || v.value.JNull? || v.value.JStr?)
  {
    match v
    case None => Some(Absent)
    case Some(JNull) => Some(Null)
    case Some(JStr(s)) => Some(Text(s))
    case Some(_) => None
  }

  /** `analyzeResultSchema.safeParse(data)`, None when it fails. */
  function ValidateResult(data: Json): (r: Option<AnalyzeResult>)
    ensures r.Some? <==>
      data.JObj? &&
      "requestId" in data.fields && data.fields["requestId"].JStr? &&
      "status" in data.fields && data.fields["status"].JStr? &&
      ParseStatus(data.fields["status"].s).Some? &&
      NullableField(Field(data.fields, "result")).Some? &&
      NullableField(Field(data.fields, "error")).Some?
    ensures r.Some? ==>
      r.value.requestId == data.fields["requestId"].s &&
      StatusName(r.value.status) == data.fields["status"].s &&
      r.value.result == NullableField(Field(data.fields, "result")).value &&
      r.value.error == NullableField(Field(data.fields, "error")).value
  {
    match data
    case JObj(f) =>
      if "requestId" in f && f["requestId"].JStr? && "status" in f && f["status"].JStr? then
        match (ParseStatus(f["status"].s), NullableField(Field(f, "result")), NullableField(Field(f, "error")))
        case (Some(status), Some(result), Some(error)) => Some(AnalyzeResult(f["requestId"].s, status, result, error))
        case _ => None
      else None
    case _ => None
  }
}
