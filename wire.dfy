/**
 * What crosses the wire between the two halves: the request bodies the
 * frontend's API client serializes with `JSON.stringify`
 * (frontend/lib/api.ts), and the error bodies the backend sends back. The
 * lemmas here follow a value from one side to the other.
 */
module Wire {
  import opened Wrappers
  import opened Strings
  import opened Types
  import Json
  import Api
  import TaskForms
  import TaskList
  import BackendErrors
  import Validation
  import Schemas
  import TaskRoutes

  /** `JSON.stringify` of a create input: the description key only when it holds a string. */
  function CreateRequestJson(input: CreateTaskInput): (v: Json.Value)
    ensures v.Obj? && "title" in v.fields && v.fields["title"] == Json.Str(input.title)
    ensures "description" in v.fields <==> input.description.Some?
    ensures input.description.Some? ==> v.fields["description"] == Json.Str(input.description.value)
    ensures v.fields.Keys <= {"title", "description"}
  {
    var base := map["title" := Json.Str(input.title)];
    Json.Obj(if input.description.Some? then base["description" := Json.Str(input.description.value)] else base)
  }

  /**
   * `JSON.stringify` of an update input: a key holding `undefined` is dropped
   * exactly like a missing one.
   */
  function UpdateRequestJson(input: UpdateTaskInput): (v: Json.Value)
    ensures v.Obj? && v.fields.Keys <= {"title", "description", "completed"}
    ensures "title" in v.fields <==> input.title.Some?
    ensures input.title.Some? ==> v.fields["title"] == Json.Str(input.title.value)
    ensures "description" in v.fields <==> input.description.Present?
    ensures input.description.Present? ==> v.fields["description"] == Json.Str(input.description.value)
    ensures "completed" in v.fields <==> input.completed.Some?
    ensures input.completed.Some? ==> v.fields["completed"] == Json.Bool(input.completed.value)
  {
    var t: map<string, Json.Value> := if input.title.Some? then map["title" := Json.Str(input.title.value)] else map[];
    var d := if input.description.Present? then t["description" := Json.Str(input.description.value)] else t;
    var c := if input.completed.Some? then d["completed" := Json.Bool(input.completed.value)] else d;
    Json.Obj(c)
  }

  /** An error body as the frontend parses it. */
  function Received(b: BackendErrors.ErrorBody): (r: Api.ErrorResponse)
    ensures r.code == BackendErrors.CodeText(b.code) && r.message == b.message
    ensures r.errors.Some? <==> b.errors.Some?
  {
    var v := BackendErrors.ErrorBodyToJson(b);
    Api.ErrorResponse(BackendErrors.CodeText(b.code), b.message,
      if b.errors.Some? then Some(v.fields["errors"]) else None)
  }

  /** The message the client shows for an error reply of the backend. */
  function Shown(reply: BackendErrors.ErrorReply): (m: string)
    ensures reply.body.code == BackendErrors.VALIDATION_ERROR ==> m == reply.body.message
    ensures reply.body.code == BackendErrors.UNAUTHORIZED ==> m == "Please sign in to continue"
    ensures reply.body.code == BackendErrors.NOT_FOUND ==> m == "Task not found. It may have been deleted."
    ensures reply.body.code == BackendErrors.CONFLICT ==> m == "An account with this email already exists"
    ensures reply.body.code in {BackendErrors.BAD_REQUEST, BackendErrors.FORBIDDEN, BackendErrors.INTERNAL_SERVER_ERROR} ==>
      m == Api.UNEXPECTED_MESSAGE
  {
    Api.GetErrorMessage(Api.HandleError(reply.status, Some(Received(reply.body))))
  }

  const SOMETHING_WENT_WRONG := "Something went wrong. Please try again."

  /**
   * The backend never sends the code "SERVER_ERROR", so the client shows its
   * "Something went wrong" text only for a validation error whose own
   * message is that text.
   */
  lemma SomethingWentWrongNeverChosen(reply: BackendErrors.ErrorReply)
    ensures Shown(reply) == SOMETHING_WENT_WRONG ==>
      reply.body.code == BackendErrors.VALIDATION_ERROR && reply.body.message == SOMETHING_WENT_WRONG
  {
    var code := BackendErrors.CodeText(reply.body.code);
    assert code != "SERVER_ERROR";
  }

  /** An unexpected server failure reaches the user as the generic message, in every environment. */
  lemma UnknownFailureShownAsUnexpected(message: string, production: bool)
    ensures Shown(BackendErrors.ErrorHandler(BackendErrors.Other(message), production)) == Api.UNEXPECTED_MESSAGE
  {
    assert BackendErrors.CodeText(BackendErrors.INTERNAL_SERVER_ERROR) == "INTERNAL_SERVER_ERROR";
  }

  /** The routes' ownership 404 reaches the user as the not-found message. */
  lemma NotFoundShown(production: bool)
    ensures Shown(BackendErrors.ErrorHandler(BackendErrors.App(BackendErrors.TASK_NOT_FOUND), production)) ==
      "Task not found. It may have been deleted."
  {
    assert BackendErrors.CodeText(BackendErrors.NOT_FOUND) == "NOT_FOUND";
  }

  /** A body the schema rejects reaches the user as "Validation failed". */
  lemma RejectedBodyShown<T>(issues: seq<BackendErrors.Issue>)
    ensures Validation.ValidateBody<T>(Err(BackendErrors.Zod(issues))).Respond?
    ensures Shown(Validation.ValidateBody<T>(Err(BackendErrors.Zod(issues))).reply) == BackendErrors.VALIDATION_FAILED
  {
    assert BackendErrors.CodeText(BackendErrors.VALIDATION_ERROR) == "VALIDATION_ERROR";
  }

  /** Every error body the backend sends passes the client's `isErrorResponse` guard. */
  lemma ErrorBodiesPassGuard(b: BackendErrors.ErrorBody)
    ensures IsErrorResponse(BackendErrors.ErrorBodyToJson(b))
  {
  }

  /** A create body whose fields the schema accepts parses to their trimmed values. */
  lemma AcceptedCreateParses(input: CreateTaskInput, measureAfterTrim: bool)
    requires Schemas.TitleAccepted(Json.Str(input.title), measureAfterTrim)
    requires input.description.Some? ==> Schemas.DescriptionAccepted(Json.Str(input.description.value), measureAfterTrim)
    ensures Schemas.ParseCreate(CreateRequestJson(input), measureAfterTrim) ==
      Ok(Schemas.CreateBody(Trim(input.title), if input.description.Some? then Some(Trim(input.description.value)) else None))
  {
    var r := Schemas.ParseCreate(CreateRequestJson(input), measureAfterTrim);
    assert r.Ok?;
  }

  /**
   * A title the create form accepts is accepted by the server's schema,
   * however the schema measures it, and arrives unchanged.
   */
  lemma FormTitleAcceptedByServer(title: string, description: string, measureAfterTrim: bool)
    requires TaskForms.ValidateTitle(title).None?
    requires |description| <= DESCRIPTION_MAX_LENGTH
    ensures var p := TaskForms.CreatePayload(title, description);
            Schemas.ParseCreate(CreateRequestJson(p), measureAfterTrim) == Ok(Schemas.CreateBody(p.title, p.description))
  {
    var p := TaskForms.CreatePayload(title, description);
    Schemas.MeasuredTrimmed(title, measureAfterTrim);
    Schemas.MeasuredTrimmed(description, measureAfterTrim);
    AcceptedCreateParses(p, measureAfterTrim);
    TrimIdempotent(title);
    TrimIdempotent(description);
  }

  /** An edit with an emptied description sends the title alone. */
  lemma ClearedEditSendsTitleOnly(title: string, description: string)
    requires AllWhitespace(description)
    ensures UpdateRequestJson(TaskForms.EditPayload(title, description)) == Json.Obj(map["title" := Json.Str(Trim(title))])
  {
    var p := TaskForms.EditPayload(title, description);
    assert p == UpdateTaskInput(Some(Trim(title)), Undefined, None);
  }

  /** A body holding only an acceptable title parses to an update of the trimmed title alone. */
  lemma TitleOnlyBodyParses(title: string, measureAfterTrim: bool)
    requires Schemas.TitleAccepted(Json.Str(title), measureAfterTrim)
    ensures Schemas.ParseUpdate(Json.Obj(map["title" := Json.Str(title)]), measureAfterTrim) ==
      Ok(Schemas.UpdateBody(Some(Trim(title)), None, None))
  {
    var fields := map["title" := Json.Str(title)];
    assert "description" !in fields && "completed" !in fields by {
      assert |"description"| == 11 && |"completed"| == 9 && |"title"| == 5;
    }
    assert Schemas.ParseUpdate(Json.Obj(fields), measureAfterTrim).Ok?;
  }

  /**
   * Clearing the description in the edit modal does not clear it on the
   * server: the emptied description is sent as `undefined`, which
   * `JSON.stringify` drops, so the server keeps the stored one, while the
   * client's optimistic copy loses it until the server's answer replaces it.
   */
  lemma ClearedDescriptionSurvivesOnServer(t: Task, title: string, description: string, measureAfterTrim: bool, now: int)
    requires TaskForms.ValidateTitle(title).None?
    requires AllWhitespace(description)
    ensures var p := TaskForms.EditPayload(title, description);
            var parsed := Schemas.ParseUpdate(UpdateRequestJson(p), measureAfterTrim);
            && parsed == Ok(Schemas.UpdateBody(Some(Trim(title)), None, None))
            && TaskRoutes.ApplyPatch(t, parsed.value, now).description == t.description
            && TaskList.Merge(t, p, now).description.None?
  {
    Schemas.MeasuredTrimmed(title, measureAfterTrim);
    ClearedEditSendsTitleOnly(title, description);
    TitleOnlyBodyParses(Trim(title), measureAfterTrim);
    TrimIdempotent(title);
  }

  /**
   * For an edit whose strings are already trimmed and that does not send an
   * explicit `undefined` description, the server's PATCH produces exactly
   * the task the client's optimistic spread shows.
   */
  lemma OptimisticUpdateMatchesServer(t: Task, input: UpdateTaskInput, measureAfterTrim: bool, now: int)
    requires !input.description.Undefined?
    requires Schemas.ParseUpdate(UpdateRequestJson(input), measureAfterTrim).Ok?
    requires input.title.Some? ==> Trim(input.title.value) == input.title.value
    requires input.description.Present? ==> Trim(input.description.value) == input.description.value
    ensures TaskRoutes.ApplyPatch(t, Schemas.ParseUpdate(UpdateRequestJson(input), measureAfterTrim).value, now) ==
      TaskList.Merge(t, input, now)
  {
  }
}
