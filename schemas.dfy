/**
 * The request schemas of the task routes (backend/src/schemas/task.ts) as
 * parsers from a JSON body to a typed value or a list of Zod issues.
 *
 * Each string schema declares its length bounds and then `.trim()`; whether
 * the bounds are measured on the raw or on the trimmed string is decided
 * inside Zod, so every parser takes that choice as the parameter
 * `measureAfterTrim`. The parsed strings are always trimmed.
 */
module Schemas {
  import opened Wrappers
  import opened Strings
  import opened Types
  import opened BackendErrors
  import Json

  const TITLE_REQUIRED := "Title is required"
  const TITLE_TOO_LONG := "Title must be at most 200 characters"
  const DESCRIPTION_TOO_LONG := "Description must be at most 2000 characters"
  const TASK_ID_REQUIRED := "Task ID is required"
  const REQUIRED := "Required"

  /** Zod's message for a value of the wrong type. */
  function Expected(kind: string, got: Json.Value): string {
    "Expected " + kind + ", received " + Json.TypeName(got)
  }

  /** The string the length bounds are checked against. */
  function Measured(s: string, measureAfterTrim: bool): (m: string)
    ensures |Trim(s)| <= |m|
  {
    if measureAfterTrim then Trim(s) else s
  }

  /** A string that is already trimmed measures the same whichever way the bounds are checked. */
  lemma MeasuredTrimmed(s: string, measureAfterTrim: bool)
    ensures Measured(Trim(s), measureAfterTrim) == Trim(s)
  {
    TrimIdempotent(s);
  }

  /** A title the schema accepts: a string of 1 to 200 characters. */
  predicate TitleAccepted(v: Json.Value, measureAfterTrim: bool) {
    v.Str? && 1 <= |Measured(v.s, measureAfterTrim)| <= TITLE_MAX_LENGTH
  }

  /** A description the schema accepts when present: `null` or a string of at most 2000 characters. */
  predicate DescriptionAccepted(v: Json.Value, measureAfterTrim: bool) {
    v.Null? || (v.Str? && |Measured(v.s, measureAfterTrim)| <= DESCRIPTION_MAX_LENGTH)
  }

  /** The value under `key`, or `None` when the key is missing (`undefined`). */
  function Field(body: Json.Value, key: string): (r: Option<Json.Value>)
    requires body.Obj?
    ensures r.Some? <==> key in body.fields
    ensures r.Some? ==> r.value == body.fields[key]
  {
    if key in body.fields then Some(body.fields[key]) else None
  }

  /** The title chain: `z.string().min(1, …).max(200, …).trim()`. */
  function CheckTitle(v: Option<Json.Value>, measureAfterTrim: bool): (r: Result<string, string>)
    ensures r.Ok? <==> v.Some? && TitleAccepted(v.value, measureAfterTrim)
    ensures r.Ok? ==> r.value == Trim(v.value.s) && |r.value| <= TITLE_MAX_LENGTH
    ensures r.Ok? && measureAfterTrim ==> r.value != ""
    ensures v.None? ==> r == Err(REQUIRED)
  {
    match v
    case None => Err(REQUIRED)
    case Some(Str(s)) =>
      var m := Measured(s, measureAfterTrim);
      if |m| < 1 then Err(TITLE_REQUIRED)
      else if |m| > TITLE_MAX_LENGTH then Err(TITLE_TOO_LONG)
      else Ok(Trim(s))
    case Some(other) => Err(Expected("string", other))
  }

  /**
   * The description chain: `z.string().max(2000, …).trim().optional().nullable()`.
   * The outer `None` is a missing key, `Some(None)` is `null`.
   */
  function CheckDescription(v: Option<Json.Value>, measureAfterTrim: bool): (r: Result<Option<Option<string>>, string>)
    ensures r.Ok? <==> v.None? || DescriptionAccepted(v.value, measureAfterTrim)
    ensures r.Ok? && v.None? ==> r.value == None
    ensures r.Ok? && v.Some? && v.value.Null? ==> r.value == Some(None)
    ensures r.Ok? && v.Some? && v.value.Str? ==>
      r.value == Some(Some(Trim(v.value.s))) && |Trim(v.value.s)| <= DESCRIPTION_MAX_LENGTH
  {
    match v
    case None => Ok(None)
    case Some(Null) => Ok(Some(None))
    case Some(Str(s)) =>
      if |Measured(s, measureAfterTrim)| > DESCRIPTION_MAX_LENGTH then Err(DESCRIPTION_TOO_LONG)
      else Ok(Some(Some(Trim(s))))
    case Some(other) => Err(Expected("string", other))
  }

  /** `z.boolean().optional()`. */
  function CheckCompleted(v: Option<Json.Value>): (r: Result<Option<bool>, string>)
    ensures r.Ok? <==> v.None? || v.value.Bool?
    ensures r.Ok? && v.Some? ==> r.value == Some(v.value.b)
    ensures r.Ok? && v.None? ==> r.value.None?
  {
    match v
    case None => Ok(None)
    case Some(Bool(b)) => Ok(Some(b))
    case Some(other) => Err(Expected("boolean", other))
  }

  /** The issue a failed field check contributes, at the path of its key. */
  function FieldIssues<T>(key: string, r: Result<T, string>): (issues: seq<Issue>)
    ensures |issues| <= 1
    ensures r.Err? <==> |issues| == 1
    ensures r.Err? ==> issues[0] == Issue([Key(key)], r.error)
  {
    if r.Err? then [Issue([Key(key)], r.error)] else []
  }

  /** No two issues point at the same place: at most one issue per field. */
  predicate OneIssuePerPath(issues: seq<Issue>) {
    forall i, j :: 0 <= i < j < |issues| ==> issues[i].path != issues[j].path
  }

  /** Every issue sits at the root or at one of the given keys. */
  predicate IssuesWithin(issues: seq<Issue>, keys: set<string>) {
    forall i :: 0 <= i < |issues| ==> issues[i].path == [] || (|issues[i].path| == 1 && issues[i].path[0] in KeyElems(keys))
  }

  function KeyElems(keys: set<string>): set<PathElem> {
    set k | k in keys :: Key(k)
  }

  /** The issues of three distinct fields: none exactly when all pass, otherwise at most one per field. */
  lemma ThreeFieldIssues<A, B, C>(ka: string, kb: string, kc: string, ra: Result<A, string>, rb: Result<B, string>, rc: Result<C, string>)
    requires ka != kb && kb != kc && ka != kc
    ensures var s := FieldIssues(ka, ra) + FieldIssues(kb, rb) + FieldIssues(kc, rc);
      && (s == [] <==> ra.Ok? && rb.Ok? && rc.Ok?)
      && |s| <= 3 && OneIssuePerPath(s) && IssuesWithin(s, {ka, kb, kc})
  {
    var a, b, c := FieldIssues(ka, ra), FieldIssues(kb, rb), FieldIssues(kc, rc);
    var s := a + b + c;
    forall i | 0 <= i < |s|
      ensures s[i].path == [Key(ka)] || s[i].path == [Key(kb)] || s[i].path == [Key(kc)]
      ensures s[i].path == [Key(ka)] ==> i < |a|
      ensures s[i].path == [Key(kb)] ==> |a| <= i < |a| + |b|
      ensures s[i].path == [Key(kc)] ==> |a| + |b| <= i
    {
      if i < |a| {
        assert s[i] == a[i];
      } else if i < |a| + |b| {
        assert s[i] == b[i - |a|];
      } else {
        assert s[i] == c[i - |a| - |b|];
      }
    }
    assert IssuesWithin(s, {ka, kb, kc}) by {
      forall i | 0 <= i < |s| ensures |s[i].path| == 1 && s[i].path[0] in KeyElems({ka, kb, kc}) {
        assert Key(ka) in KeyElems({ka, kb, kc});
        assert Key(kb) in KeyElems({ka, kb, kc});
        assert Key(kc) in KeyElems({ka, kb, kc});
      }
    }
  }

  /** The parsed body of a create request; `None` stands for a missing or `null` description. */
  datatype CreateBody = CreateBody(title: string, description: Option<string>)

  /**
   * The parsed body of an update request: a missing key is `None`, and the
   * description's inner `None` is an explicit `null`.
   */
  datatype UpdateBody = UpdateBody(title: Option<string>, description: Option<Option<string>>, completed: Option<bool>)

  /** The single issue for a body that is not an object. */
  function NotAnObject(body: Json.Value): seq<Issue> {
    [Issue([], Expected("object", body))]
  }

  /** `createTaskSchema.parse(body)`. */
  function ParseCreate(body: Json.Value, measureAfterTrim: bool): (r: Result<CreateBody, seq<Issue>>)
    ensures r.Ok? <==>
      && body.Obj?
      && "title" in body.fields && TitleAccepted(body.fields["title"], measureAfterTrim)
      && ("description" in body.fields ==> DescriptionAccepted(body.fields["description"], measureAfterTrim))
    ensures r.Ok? ==>
      && r.value.title == Trim(body.fields["title"].s)
      && 1 <= |body.fields["title"].s| && |r.value.title| <= TITLE_MAX_LENGTH
      && (r.value.description.Some? <==> "description" in body.fields && body.fields["description"].Str?)
      && (r.value.description.Some? ==> r.value.description.value == Trim(body.fields["description"].s))
    ensures r.Err? ==> 1 <= |r.error| <= 2 && OneIssuePerPath(r.error) && IssuesWithin(r.error, {"title", "description"})
  {
    if !body.Obj? then Err(NotAnObject(body))
    else
      var t := CheckTitle(Field(body, "title"), measureAfterTrim);
      var d := CheckDescription(Field(body, "description"), measureAfterTrim);
      var issues := FieldIssues("title", t) + FieldIssues("description", d);
      if issues != [] then Err(issues)
      else Ok(CreateBody(t.value, if d.value.Some? then d.value.value else None))
  }

  /** `updateTaskSchema.parse(body)`: every key optional, each checked on its own. */
  function ParseUpdate(body: Json.Value, measureAfterTrim: bool): (r: Result<UpdateBody, seq<Issue>>)
    ensures r.Ok? <==>
      && body.Obj?
      && ("title" in body.fields ==> TitleAccepted(body.fields["title"], measureAfterTrim))
      && ("description" in body.fields ==> DescriptionAccepted(body.fields["description"], measureAfterTrim))
      && ("completed" in body.fields ==> body.fields["completed"].Bool?)
    ensures r.Ok? ==>
      && (r.value.title.Some? <==> "title" in body.fields)
      && (r.value.title.Some? ==> r.value.title.value == Trim(body.fields["title"].s))
      && (r.value.description.Some? <==> "description" in body.fields)
      && ("description" in body.fields && body.fields["description"].Null? ==> r.value.description == Some(None))
      && ("description" in body.fields && body.fields["description"].Str? ==>
            r.value.description == Some(Some(Trim(body.fields["description"].s))))
      && (r.value.completed.Some? <==> "completed" in body.fields)
      && (r.value.completed.Some? ==> r.value.completed.value == body.fields["completed"].b)
    ensures r.Err? ==>
      1 <= |r.error| <= 3 && OneIssuePerPath(r.error) && IssuesWithin(r.error, {"title", "description", "completed"})
  {
    if !body.Obj? then Err(NotAnObject(body))
    else
      var hasTitle := "title" in body.fields;
      var t := if hasTitle then CheckTitle(Field(body, "title"), measureAfterTrim) else Ok("");
      var d := CheckDescription(Field(body, "description"), measureAfterTrim);
      var c := CheckCompleted(Field(body, "completed"));
      var issues := FieldIssues("title", t) + FieldIssues("description", d) + FieldIssues("completed", c);
      ThreeFieldIssues("title", "description", "completed", t, d, c);
      if issues != [] then Err(issues)
      else Ok(UpdateBody(if hasTitle then Some(t.value) else None, d.value, c.value))
  }

  /** `taskIdSchema.parse(params)`: the `id` parameter must be a non-empty string. */
  function ParseTaskId(params: map<string, string>): (r: Result<string, seq<Issue>>)
    ensures r.Ok? <==> "id" in params && params["id"] != ""
    ensures r.Ok? ==> r.value == params["id"]
    ensures r.Err? ==> |r.error| == 1 && r.error[0].path == [Key("id")]
    ensures r.Err? && "id" in params ==> r.error[0].message == TASK_ID_REQUIRED
  {
    if "id" !in params then Err([Issue([Key("id")], REQUIRED)])
    else if params["id"] == "" then Err([Issue([Key("id")], TASK_ID_REQUIRED)])
    else Ok(params["id"])
  }

  /**
   * Measured before trimming, a title of white space passes and is stored
   * empty; measured after trimming, it is rejected as missing.
   */
  lemma BlankTitleDependsOnMeasure()
    ensures ParseCreate(Json.Obj(map["title" := Json.Str(" ")]), false) == Ok(CreateBody("", None))
    ensures ParseCreate(Json.Obj(map["title" := Json.Str(" ")]), true) ==
      Err([Issue([Key("title")], TITLE_REQUIRED)])
  {
    var body := Json.Obj(map["title" := Json.Str(" ")]);
    assert Trim(" ") == "" by {
      assert IsWhitespace(" "[0]);
      assert TrimStart(" ") == TrimStart(" "[1..]);
      assert " "[1..] == "";
    }
    assert Field(body, "title") == Some(Json.Str(" "));
    assert Field(body, "description") == None;
    assert CheckDescription(None, false) == Ok(None);
    assert CheckDescription(None, true) == Ok(None);
    assert CheckTitle(Some(Json.Str(" ")), false) == Ok("");
    assert CheckTitle(Some(Json.Str(" ")), true) == Err(TITLE_REQUIRED);
    assert FieldIssues("description", CheckDescription(None, true)) == [];
    var issue := Issue([Key("title")], TITLE_REQUIRED);
    assert FieldIssues("title", CheckTitle(Some(Json.Str(" ")), true)) == [issue];
    assert [issue] + [] == [issue];
  }
}
