/**
 * The backend's error vocabulary (backend/src/types/error.ts) and the
 * Express error handler that turns whatever a route threw into a status and
 * a JSON error body (backend/src/middleware/error.ts).
 */
module BackendErrors {
  import opened Wrappers
  import opened Strings
  import Json

  /** The error codes the backend may put in a body. */
  datatype ErrorCode =
    | BAD_REQUEST
    | UNAUTHORIZED
    | FORBIDDEN
    | NOT_FOUND
    | CONFLICT
    | VALIDATION_ERROR
    | INTERNAL_SERVER_ERROR

  /** The code as it appears on the wire. */
  function CodeText(c: ErrorCode): string {
    match c
    case BAD_REQUEST => "BAD_REQUEST"
    case UNAUTHORIZED => "UNAUTHORIZED"
    case FORBIDDEN => "FORBIDDEN"
    case NOT_FOUND => "NOT_FOUND"
    case CONFLICT => "CONFLICT"
    case VALIDATION_ERROR => "VALIDATION_ERROR"
    case INTERNAL_SERVER_ERROR => "INTERNAL_SERVER_ERROR"
  }

  /** One entry of a body's `errors` list. */
  datatype FieldError = FieldError(field: string, message: string)

  /** An error body: `errors` is an optional key. */
  datatype ErrorBody = ErrorBody(code: ErrorCode, message: string, errors: Option<seq<FieldError>>)

  /** The application's own error, thrown by the routes and the auth middleware. */
  datatype AppError = AppError(code: ErrorCode, statusCode: int, message: string, errors: Option<seq<FieldError>>)

  /** One element of a Zod issue path: an object key or an array index. */
  datatype PathElem = Key(name: string) | Index(n: nat)

  /** A Zod issue: where it was found and what is wrong there. */
  datatype Issue = Issue(path: seq<PathElem>, message: string)

  /** What a handler can throw: an `AppError`, a `ZodError` with its issues, or any other error. */
  datatype Thrown = App(e: AppError) | Zod(issues: seq<Issue>) | Other(message: string)

  /** A response the error handler writes. */
  datatype ErrorReply = ErrorReply(status: int, body: ErrorBody)

  const VALIDATION_FAILED := "Validation failed"
  const UNEXPECTED := "An unexpected error occurred"

  /** A path element as `Array.prototype.join` renders it. */
  function PathElemText(p: PathElem): (r: string)
    ensures p.Key? ==> r == p.name
    ensures p.Index? ==> '.' !in r && DigitsValue(r) == p.n
  {
    match p
    case Key(name) => name
    case Index(n) => NatToStringValue(n); NatToString(n)
  }

  function PathTexts(path: seq<PathElem>): (r: seq<string>)
    ensures |r| == |path|
    ensures forall k :: 0 <= k < |path| ==> r[k] == PathElemText(path[k])
  {
    if path == [] then [] else [PathElemText(path[0])] + PathTexts(path[1..])
  }

  /** `issue.path.join(".")`. */
  function JoinPath(path: seq<PathElem>): (r: string)
    ensures path == [] ==> r == ""
    ensures |path| == 1 ==> r == PathElemText(path[0])
  {
    Join(PathTexts(path), '.')
  }

  /**
   * A joined path splits back into its elements when no key contains a '.':
   * the field name loses nothing.
   */
  lemma JoinPathSplits(path: seq<PathElem>)
    requires |path| >= 1
    requires forall k :: 0 <= k < |path| && path[k].Key? ==> '.' !in path[k].name
    ensures Split(JoinPath(path), '.') == PathTexts(path)
  {
    SplitJoin(PathTexts(path), '.');
  }

  /** The `{ field, message }` entries for a list of issues, in the same order. */
  function IssuesToErrors(issues: seq<Issue>): (r: seq<FieldError>)
    ensures |r| == |issues|
    ensures forall k :: 0 <= k < |issues| ==>
      r[k].field == JoinPath(issues[k].path) && r[k].message == issues[k].message
  {
    if issues == [] then []
    else [FieldError(JoinPath(issues[0].path), issues[0].message)] + IssuesToErrors(issues[1..])
  }

  /** Mapping issues commutes with concatenation, so each issue maps on its own. */
  lemma {:induction false} IssuesToErrorsAppend(a: seq<Issue>, b: seq<Issue>)
    ensures IssuesToErrors(a + b) == IssuesToErrors(a) + IssuesToErrors(b)
  {
    if a != [] {
      assert (a + b)[1..] == a[1..] + b;
      IssuesToErrorsAppend(a[1..], b);
    }
  }

  /**
   * `errorHandler`. An `AppError` answers with its own status, code and
   * message, carrying `errors` exactly when it has some; a `ZodError` answers
   * 400 with one entry per issue; anything else answers 500, hiding its
   * message in production.
   */
  function ErrorHandler(err: Thrown, production: bool): (r: ErrorReply)
    ensures err.App? ==>
      && r.status == err.e.statusCode
      && r.body.code == err.e.code && r.body.message == err.e.message
      && (r.body.errors.Some? <==> err.e.errors.Some?)
      && (err.e.errors.Some? ==> r.body.errors == err.e.errors)
    ensures err.Zod? ==>
      && r.status == 400 && r.body.code == VALIDATION_ERROR && r.body.message == VALIDATION_FAILED
      && r.body.errors == Some(IssuesToErrors(err.issues))
    ensures err.Other? ==>
      && r.status == 500 && r.body.code == INTERNAL_SERVER_ERROR && r.body.errors.None?
      && r.body.message == (if production then UNEXPECTED else err.message)
  {
    match err
    case App(e) =>
      ErrorReply(e.statusCode, ErrorBody(e.code, e.message, if e.errors.Some? then e.errors else None))
    case Zod(issues) =>
      ErrorReply(400, ErrorBody(VALIDATION_ERROR, VALIDATION_FAILED, Some(IssuesToErrors(issues))))
    case Other(message) =>
      ErrorReply(500, ErrorBody(INTERNAL_SERVER_ERROR, if production then UNEXPECTED else message, None))
  }

  /** In production two unknown errors are answered identically, whatever their messages. */
  lemma ProductionHidesMessages(m1: string, m2: string)
    ensures ErrorHandler(Other(m1), true) == ErrorHandler(Other(m2), true)
  {
  }

  /** The JSON form of an error body; the `errors` key is present only when there are errors. */
  function ErrorBodyToJson(b: ErrorBody): (v: Json.Value)
    ensures v.Obj? && "code" in v.fields && "message" in v.fields
    ensures v.fields["code"] == Json.Str(CodeText(b.code)) && v.fields["message"] == Json.Str(b.message)
    ensures "errors" in v.fields <==> b.errors.Some?
  {
    var base := map["code" := Json.Str(CodeText(b.code)), "message" := Json.Str(b.message)];
    match b.errors
    case None => Json.Obj(base)
    case Some(es) =>
      Json.Obj(base["errors" := Json.Arr(seq(|es|, k requires 0 <= k < |es| =>
        Json.Obj(map["field" := Json.Str(es[k].field), "message" := Json.Str(es[k].message)])))])
  }

  /** The 404 every ownership check throws. */
  const TASK_NOT_FOUND := AppError(NOT_FOUND, 404, "Task not found", None)
}
