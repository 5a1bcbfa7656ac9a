/**
 * The task routes (backend/src/routes/tasks.ts) as operations on the task
 * table. Each row belongs to one user; every handler acts on behalf of the
 * authenticated caller and never touches another user's rows. The request
 * has already passed the validation middleware, so the handlers receive the
 * parsed body and id.
 */
module TaskRoutes {
  import opened Wrappers
  import opened Types
  import opened TaskList
  import opened BackendErrors
  import opened Schemas

  /** A stored task and the id of the user who owns it. */
  datatype Row = Row(userId: string, task: Task)

  /** The row under `id` exists and belongs to `userId`. */
  predicate Owns(rows: map<string, Row>, userId: string, id: string) {
    id in rows && rows[id].userId == userId
  }

  /** Every row owned by someone other than `userId` is still there, unchanged. */
  predicate OthersUntouched(before: map<string, Row>, after: map<string, Row>, userId: string) {
    forall k :: k in before && before[k].userId != userId ==> k in after && after[k] == before[k]
  }

  /** The ids of the tasks in a list. */
  function Ids(s: seq<Task>): set<string> {
    set t | t in s :: t.id
  }

  /** The description a create stores: `description || null`, so an empty one is stored as `null`. */
  function StoredDescription(d: Option<string>): (r: Option<string>)
    ensures r.Some? <==> d.Some? && d.value != ""
    ensures r.Some? ==> r == d
  {
    if d == Some("") then None else d
  }

  /**
   * The update data: each of title, description and completed that the body
   * carries replaces the stored one (a `null` description included); the
   * update stamps `updatedAt`.
   */
  function ApplyPatch(t: Task, p: UpdateBody, now: int): (r: Task)
    ensures r.id == t.id && r.createdAt == t.createdAt && r.updatedAt == now
    ensures p.title.None? ==> r.title == t.title
    ensures p.description.None? ==> r.description == t.description
    ensures p.completed.None? ==> r.completed == t.completed
    ensures p.title.Some? ==> r.title == p.title.value
    ensures p.description.Some? ==> r.description == p.description.value
    ensures p.completed.Some? ==> r.completed == p.completed.value
  {
    t.(title := p.title.GetOr(t.title),
       description := p.description.GetOr(t.description),
       completed := p.completed.GetOr(t.completed),
       updatedAt := now)
  }

  /** The patch that applies `q`'s fields over `p`'s. */
  function Combine(p: UpdateBody, q: UpdateBody): UpdateBody {
    UpdateBody(
      if q.title.Some? then q.title else p.title,
      if q.description.Some? then q.description else p.description,
      if q.completed.Some? then q.completed else p.completed)
  }

  /** Applying the same patch twice at the same instant is applying it once. */
  lemma ApplyPatchIdempotent(t: Task, p: UpdateBody, now: int)
    ensures ApplyPatch(ApplyPatch(t, p, now), p, now) == ApplyPatch(t, p, now)
  {
  }

  /** Two updates in a row amount to one update with the later fields winning. */
  lemma ApplyPatchComposes(t: Task, p: UpdateBody, q: UpdateBody, n1: int, n2: int)
    ensures ApplyPatch(ApplyPatch(t, p, n1), q, n2) == ApplyPatch(t, Combine(p, q), n2)
  {
  }

  /** An empty body changes nothing but `updatedAt`. */
  lemma EmptyPatchOnlyStamps(t: Task, now: int)
    ensures ApplyPatch(t, UpdateBody(None, None, None), now) == t.(updatedAt := now)
  {
  }

  /** The entries of a list after an insertion are its old entries and the inserted one. */
  lemma InsertMembers(s: seq<Task>, x: Task)
    ensures forall t :: t in InsertByCreatedAt(s, x) <==> t in s || t == x
  {
    var r := InsertByCreatedAt(s, x);
    InsertAddsOne(s, x);
    forall t ensures t in r <==> t in s || t == x {
      assert t in r <==> t in multiset(r);
      assert t in s <==> t in multiset(s);
    }
  }

  /** Inserting a task adds exactly its id to the ids of a list. */
  lemma InsertIds(s: seq<Task>, x: Task)
    ensures Ids(InsertByCreatedAt(s, x)) == Ids(s) + {x.id}
  {
    InsertMembers(s, x);
  }

  /** Where each entry of an insertion comes from: the entries before the insertion point, the inserted task, then the rest. */
  lemma InsertedAt(s: seq<Task>, x: Task, i: int)
    requires 0 <= i <= |s|
    ensures var k := InsertPos(s, x);
      InsertByCreatedAt(s, x)[i] == if i < k then s[i] else if i == k then x else s[i - 1]
  {
  }

  /** Inserting a task whose id is new keeps the ids distinct. */
  lemma InsertKeepsUniqueIds(s: seq<Task>, x: Task)
    requires UniqueIds(s) && x.id !in Ids(s)
    ensures UniqueIds(InsertByCreatedAt(s, x))
  {
    var k := InsertPos(s, x);
    var r := InsertByCreatedAt(s, x);
    forall i, j | 0 <= i < j < |r| ensures r[i].id != r[j].id {
      InsertedAt(s, x, i);
      InsertedAt(s, x, j);
      if i == k {
        assert s[j - 1] in s;
      } else if j == k {
        assert s[i] in s;
      }
    }
  }

  /** The ids among `keys` of the rows `userId` owns. */
  function OwnedAmong(rows: map<string, Row>, userId: string, keys: set<string>): set<string> {
    set k | k in keys && k in rows && rows[k].userId == userId
  }

  /** Visiting one more key adds it to the owned ids exactly when `userId` owns its row. */
  lemma OwnedAmongAdd(rows: map<string, Row>, userId: string, keys: set<string>, k: string)
    requires k in rows
    ensures OwnedAmong(rows, userId, keys + {k}) ==
      OwnedAmong(rows, userId, keys) + (if rows[k].userId == userId then {k} else {})
  {
  }

  /** One step of building a listing: everything a sorted list of distinct ids keeps when a new id is inserted. */
  lemma InsertStep(s: seq<Task>, x: Task)
    requires Sorted(s) && UniqueIds(s) && x.id !in Ids(s)
    ensures var r := InsertByCreatedAt(s, x);
      && Sorted(r) && UniqueIds(r) && Ids(r) == Ids(s) + {x.id}
      && forall t :: t in r <==> t in s || t == x
  {
    InsertKeepsSorted(s, x);
    InsertKeepsUniqueIds(s, x);
    InsertMembers(s, x);
  }

  /** Every row is filed under its own task's id. */
  predicate FiledById(rows: map<string, Row>) {
    forall k :: k in rows ==> rows[k].task.id == k
  }

  /** `result` lists, newest first and each once, exactly the tasks `userId` owns among the `visited` rows. */
  predicate Listing(rows: map<string, Row>, userId: string, visited: set<string>, result: seq<Task>) {
    && Sorted(result) && UniqueIds(result)
    && Ids(result) == OwnedAmong(rows, userId, visited)
    && forall t :: t in result ==> t.id in rows && rows[t.id] == Row(userId, t)
  }

  /** The listing after visiting the row under `k`: its task is inserted when `userId` owns it. */
  function Visit(rows: map<string, Row>, userId: string, result: seq<Task>, k: string): seq<Task>
    requires k in rows
  {
    if rows[k].userId == userId then InsertByCreatedAt(result, rows[k].task) else result
  }

  /** Visiting an unvisited row extends a listing to that row. */
  lemma VisitExtends(rows: map<string, Row>, userId: string, visited: set<string>, result: seq<Task>, k: string)
    requires FiledById(rows) && Listing(rows, userId, visited, result)
    requires k in rows && k !in visited
    ensures Listing(rows, userId, visited + {k}, Visit(rows, userId, result, k))
  {
    OwnedAmongAdd(rows, userId, visited, k);
    if rows[k].userId == userId {
      var t := rows[k].task;
      assert t.id == k && k !in OwnedAmong(rows, userId, visited);
      InsertStep(result, t);
    }
  }

  /** The task table. */
  class TaskTable {
    var rows: map<string, Row>

    /** Each row is filed under its own task's id. */
    predicate Valid()
      reads this
    {
      FiledById(rows)
    }

    /** The ids of the rows `userId` owns. */
    function OwnedIds(userId: string): set<string>
      reads this
    {
      set k | k in rows && rows[k].userId == userId
    }

    constructor ()
      ensures rows == map[] && Valid()
    {
      rows := map[];
    }

    /**
     * POST /api/tasks: stores a new open task owned by the caller under the
     * fresh id the database chose, and answers 201 with it.
     */
    method Create(userId: string, body: CreateBody, newId: string, now: int) returns (status: int, task: Task)
      requires Valid() && newId !in rows
      modifies this
      ensures Valid()
      ensures status == 201
      ensures task == Task(newId, body.title, StoredDescription(body.description), false, now, now)
      ensures rows == old(rows)[newId := Row(userId, task)]
      ensures OthersUntouched(old(rows), rows, userId)
    {
      task := Task(newId, body.title, StoredDescription(body.description), false, now, now);
      rows := rows[newId := Row(userId, task)];
      status := 201;
    }

    /**
     * GET /api/tasks: exactly the caller's tasks, each once, newest first.
     * Rows are visited one id at a time and each owned task is inserted by
     * `createdAt`, which is what the database's `orderBy` delivers.
     */
    method List(userId: string) returns (result: seq<Task>)
      requires Valid()
      ensures Sorted(result) && UniqueIds(result)
      ensures Ids(result) == OwnedIds(userId)
      ensures forall t :: t in result ==> t.id in rows && rows[t.id] == Row(userId, t)
    {
      result := [];
      var visited: set<string> := {};
      while visited != rows.Keys
        invariant visited <= rows.Keys
        invariant Listing(rows, userId, visited, result)
        decreases |rows.Keys - visited|
      {
        var k :| k in rows.Keys - visited;
        VisitExtends(rows, userId, visited, result, k);
        result := Visit(rows, userId, result, k);
        assert rows.Keys - (visited + {k}) < rows.Keys - visited;
        visited := visited + {k};
      }
    }

    /**
     * PATCH /api/tasks/:id: a task that is missing or belongs to someone else
     * is reported as not found and nothing changes; otherwise the body's
     * fields are applied to it.
     */
    method Update(userId: string, id: string, patch: UpdateBody, now: int) returns (r: Result<Task, AppError>)
      requires Valid()
      modifies this
      ensures Valid()
      ensures !Owns(old(rows), userId, id) ==> r == Err(TASK_NOT_FOUND) && rows == old(rows)
      ensures Owns(old(rows), userId, id) ==>
        && r == Ok(ApplyPatch(old(rows)[id].task, patch, now))
        && rows == old(rows)[id := Row(userId, r.value)]
      ensures OthersUntouched(old(rows), rows, userId)
    {
      if !Owns(rows, userId, id) {
        return Err(TASK_NOT_FOUND);
      }
      var task := ApplyPatch(rows[id].task, patch, now);
      rows := rows[id := Row(userId, task)];
      r := Ok(task);
    }

    /**
     * DELETE /api/tasks/:id: a task that is missing or belongs to someone else
     * is reported as not found and nothing changes; otherwise that row alone
     * is removed.
     */
    method Delete(userId: string, id: string) returns (r: Result<string, AppError>)
      requires Valid()
      modifies this
      ensures Valid()
      ensures !Owns(old(rows), userId, id) ==> r == Err(TASK_NOT_FOUND) && rows == old(rows)
      ensures Owns(old(rows), userId, id) ==> r == Ok("Task deleted successfully") && rows == old(rows) - {id}
      ensures OthersUntouched(old(rows), rows, userId)
    {
      if !Owns(rows, userId, id) {
        return Err(TASK_NOT_FOUND);
      }
      rows := rows - {id};
      r := Ok("Task deleted successfully");
    }
  }
}
