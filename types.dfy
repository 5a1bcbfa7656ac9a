/** The frontend's shared records, limits and runtime type guards (frontend/lib/types.ts). */
module Types {
  import opened Wrappers
  import Json

  /**
   * A to-do item as the client holds it. Timestamps are milliseconds since the
   * epoch; `description` is `None` for both `null` and `undefined`, which the
   * client treats alike.
   */
  datatype Task = Task(
    id: string,
    title: string,
    description: Option<string>,
    completed: bool,
    createdAt: int,
    updatedAt: int)

  /** The body of a create request: `description` is an optional key. */
  datatype CreateTaskInput = CreateTaskInput(title: string, description: Option<string>)

  /** An optional key of an object literal: missing, present holding `undefined`, or present with a value. */
  datatype Slot<T> = Absent | Undefined | Present(value: T)

  /**
   * The body of an update request. Only `description` is ever passed as an
   * explicit `undefined` by a caller, so only it carries three states.
   */
  datatype UpdateTaskInput = UpdateTaskInput(
    title: Option<string>,
    description: Slot<string>,
    completed: Option<bool>)

  const TITLE_MAX_LENGTH: nat := 200
  const DESCRIPTION_MAX_LENGTH: nat := 2000
  const PASSWORD_MIN_LENGTH: nat := 8
  const TITLE_COUNTER_THRESHOLD: nat := 180
  const DESCRIPTION_COUNTER_THRESHOLD: nat := 1900

  /** `isTask`: a non-null object with the keys `id`, `title` and `completed`; their types are not checked. */
  predicate IsTask(v: Json.Value): (b: bool)
    ensures b ==> v.Obj?
    ensures v.Obj? ==> (b <==> {"id", "title", "completed"} <= v.fields.Keys)
  {
    v.Obj? && "id" in v.fields && "title" in v.fields && "completed" in v.fields
  }

  /** `isErrorResponse`: a non-null object with the keys `code` and `message`. */
  predicate IsErrorResponse(v: Json.Value): (b: bool)
    ensures b ==> v.Obj?
    ensures v.Obj? ==> (b <==> {"code", "message"} <= v.fields.Keys)
  {
    v.Obj? && "code" in v.fields && "message" in v.fields
  }

  /** The JSON form of a task as the server sends it. */
  function TaskToJson(t: Task): (v: Json.Value)
    ensures v.Obj? && v.fields.Keys == {"id", "title", "description", "completed", "createdAt", "updatedAt"}
    ensures v.fields["id"] == Json.Str(t.id) && v.fields["completed"] == Json.Bool(t.completed)
  {
    Json.Obj(map[
      "id" := Json.Str(t.id),
      "title" := Json.Str(t.title),
      "description" := (match t.description case Some(d) => Json.Str(d) case None => Json.Null),
      "completed" := Json.Bool(t.completed),
      "createdAt" := Json.Num(t.createdAt),
      "updatedAt" := Json.Num(t.updatedAt)])
  }

  /** Every serialized task passes `isTask`. */
  lemma TaskJsonIsTask(t: Task)
    ensures IsTask(TaskToJson(t))
  {
  }

  /** Both guards reject `null` and every value that is not an object (arrays included). */
  lemma GuardsRejectNonObjects(v: Json.Value)
    requires !v.Obj?
    ensures !IsTask(v) && !IsErrorResponse(v)
  {
  }

  /** `isTask` checks only that the keys exist: an object whose fields all have the wrong types passes. */
  lemma IsTaskIgnoresFieldTypes()
    ensures IsTask(Json.Obj(map["id" := Json.Num(1), "title" := Json.Null, "completed" := Json.Str("no")]))
  {
  }
}
