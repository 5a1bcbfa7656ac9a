/**
 * The client task store (frontend/hooks/useTasks.ts): the task list, the
 * loading flag, the list-level error, the edit/delete selections and the map
 * of debounced toggle timers. Every asynchronous action is split into a
 * begin step (the optimistic change, taken at once) and a settle step (taken
 * when the remote call answers), so that other actions may interleave.
 */
module TaskStore {
  import opened Wrappers
  import opened Types
  import opened TaskList
  import Api
  import Strings

  /**
   * What a scheduled toggle timer's callback captured: the task id, the
   * `completed` value it will send, and the value to fall back to if the
   * call fails.
   */
  datatype Toggle = Toggle(id: string, target: bool, revertTo: bool)

  /** How `updateTask` proceeds after its synchronous part. */
  datatype UpdateStart =
    | UpdateNotFound            // resolves to null
    | UpdateDone(task: Task)    // demo mode: resolves to the merged task
    | UpdateSent(original: Task) // awaits the server, holding the snapshot

  /** How `deleteTask` proceeds after its synchronous part. */
  datatype DeleteStart =
    | DeleteNotFound            // resolves to false
    | DeleteDone                // demo mode: resolves to true
    | DeleteSent(original: Task) // awaits the server, holding the removed task

  /**
   * The task placed at the head of the list by `createTask` before the server
   * answers: id `demo-<now>` or `temp-<now>`, not completed, and no
   * description when the input has none or an empty one.
   */
  function Placeholder(input: CreateTaskInput, now: nat, demo: bool): (t: Task)
    ensures t.title == input.title && !t.completed
    ensures t.createdAt == now && t.updatedAt == now
    ensures t.description.None? <==> input.description.None? || input.description == Some("")
    ensures t.description.Some? ==> t.description == input.description
    ensures t.id == (if demo then "demo-" else "temp-") + Strings.NatToString(now)
  {
    var id := (if demo then "demo-" else "temp-") + Strings.NatToString(now);
    var description := if input.description == Some("") then None else input.description;
    Task(id, input.title, description, false, now, now)
  }

  /** Placeholders created at different instants in the same mode carry different ids. */
  lemma PlaceholderIdsDistinct(a: CreateTaskInput, b: CreateTaskInput, n1: nat, n2: nat, demo: bool)
    requires n1 != n2
    ensures Placeholder(a, n1, demo).id != Placeholder(b, n2, demo).id
  {
    var prefix := if demo then "demo-" else "temp-";
    var s1, s2 := Strings.NatToString(n1), Strings.NatToString(n2);
    if prefix + s1 == prefix + s2 {
      assert s1 == (prefix + s1)[|prefix|..];
      assert s2 == (prefix + s2)[|prefix|..];
      Strings.NatToStringInjective(n1, n2);
    }
  }

  class Store {
    var tasks: seq<Task>
    var isLoading: bool
    var error: Option<string>
    var editingTask: Option<Task>
    var deletingTask: Option<Task>
    var isMounted: bool
    /** `pendingTogglesRef`: the last timer handle set for each task id. */
    var pendingToggles: map<string, nat>
    /** The toggle timers scheduled and not yet fired or cleared, by handle. */
    var timers: map<nat, Toggle>

    /** The hook's first render. */
    constructor ()
      ensures tasks == [] && isLoading && error.None?
      ensures editingTask.None? && deletingTask.None?
      ensures !isMounted && pendingToggles == map[] && timers == map[]
    {
      tasks := [];
      isLoading := true;
      error := None;
      editingTask := None;
      deletingTask := None;
      isMounted := false;
      pendingToggles := map[];
      timers := map[];
    }

    /** The mount effect. */
    method Mount()
      modifies this
      ensures isMounted
      ensures tasks == old(tasks) && isLoading == old(isLoading) && error == old(error)
      ensures editingTask == old(editingTask) && deletingTask == old(deletingTask)
      ensures pendingToggles == old(pendingToggles) && timers == old(timers)
    {
      isMounted := true;
    }

    /** `fetchTasks` up to its await: nothing at all happens before mount. */
    method BeginFetch() returns (started: bool)
      modifies this
      ensures started == old(isMounted)
      ensures !started ==> unchanged(this)
      ensures started ==> isLoading && error.None?
      ensures tasks == old(tasks) && isMounted == old(isMounted)
      ensures editingTask == old(editingTask) && deletingTask == old(deletingTask)
      ensures pendingToggles == old(pendingToggles) && timers == old(timers)
    {
      started := isMounted;
      if started {
        isLoading := true;
        error := None;
      }
    }

    /**
     * The end of a real-mode `fetchTasks`: on success the list becomes the
     * server's tasks, newest first; on failure the list is kept and the error
     * message is set. Loading stops either way.
     */
    method SettleFetch(result: Result<seq<Task>, Api.ApiError>)
      modifies this
      ensures !isLoading
      ensures result.Ok? ==> tasks == SortByCreatedAt(result.value) && error == old(error)
      ensures result.Err? ==> tasks == old(tasks) && error == Some(Api.GetErrorMessage(result.error))
      ensures isMounted == old(isMounted)
      ensures editingTask == old(editingTask) && deletingTask == old(deletingTask)
      ensures pendingToggles == old(pendingToggles) && timers == old(timers)
    {
      isLoading := false;
      match result
      case Ok(data) =>
        tasks := SortByCreatedAt(data);
      case Err(e) =>
        error := Some(Api.GetErrorMessage(e));
    }

    /** The end of a demo-mode `fetchTasks`: the three sample tasks replace the list. */
    method SettleDemoFetch(now: int)
      modifies this
      ensures tasks == DemoTasks(now) && !isLoading
      ensures error == old(error) && isMounted == old(isMounted)
      ensures editingTask == old(editingTask) && deletingTask == old(deletingTask)
      ensures pendingToggles == old(pendingToggles) && timers == old(timers)
    {
      tasks := DemoTasks(now);
      isLoading := false;
    }

    /** `createTask` up to its await: the placeholder goes to the head of the list. */
    method BeginCreate(input: CreateTaskInput, now: nat, demo: bool) returns (placeholder: Task)
      modifies this
      ensures placeholder == Placeholder(input, now, demo)
      ensures tasks == [placeholder] + old(tasks)
      ensures isLoading == old(isLoading) && error == old(error) && isMounted == old(isMounted)
      ensures editingTask == old(editingTask) && deletingTask == old(deletingTask)
      ensures pendingToggles == old(pendingToggles) && timers == old(timers)
    {
      placeholder := Placeholder(input, now, demo);
      tasks := [placeholder] + tasks;
    }

    /**
     * The end of a real-mode `createTask`: the server's task replaces every
     * entry with the placeholder id, or, on failure, those entries are
     * dropped and the error message is thrown to the caller.
     */
    method SettleCreate(placeholderId: string, result: Result<Task, Api.ApiError>)
      returns (outcome: Result<Task, string>)
      modifies this
      ensures result.Ok? ==> tasks == MapById(old(tasks), placeholderId, _ => result.value)
      ensures result.Ok? ==> outcome == Ok(result.value)
      ensures result.Err? ==> tasks == RemoveById(old(tasks), placeholderId)
      ensures result.Err? ==> outcome == Err(Api.GetErrorMessage(result.error))
      ensures isLoading == old(isLoading) && error == old(error) && isMounted == old(isMounted)
      ensures editingTask == old(editingTask) && deletingTask == old(deletingTask)
      ensures pendingToggles == old(pendingToggles) && timers == old(timers)
    {
      match result
      case Ok(created) =>
        tasks := MapById(tasks, placeholderId, _ => created);
        outcome := Ok(created);
      case Err(e) =>
        tasks := RemoveById(tasks, placeholderId);
        outcome := Err(Api.GetErrorMessage(e));
    }

    /**
     * `updateTask` up to its await. An unknown id changes nothing. Otherwise
     * the input is spread over the entry; in demo mode every entry with the id
     * becomes the merged snapshot, in real mode each entry is merged.
     */
    method BeginUpdate(id: string, input: UpdateTaskInput, now: int, demo: bool)
      returns (start: UpdateStart)
      modifies this
      ensures Find(old(tasks), id).None? <==> start.UpdateNotFound?
      ensures start.UpdateNotFound? ==> unchanged(this)
      ensures start.UpdateDone? <==> Find(old(tasks), id).Some? && demo
      ensures start.UpdateDone? ==>
        && start.task == Merge(Find(old(tasks), id).value, input, now)
        && tasks == MapById(old(tasks), id, _ => start.task)
      ensures start.UpdateSent? ==>
        && start.original == Find(old(tasks), id).value
        && tasks == MapById(old(tasks), id, (t: Task) => Merge(t, input, now))
      ensures isLoading == old(isLoading) && error == old(error) && isMounted == old(isMounted)
      ensures editingTask == old(editingTask) && deletingTask == old(deletingTask)
      ensures pendingToggles == old(pendingToggles) && timers == old(timers)
    {
      var found := Find(tasks, id);
      if found.None? {
        return UpdateNotFound;
      }
      var original := found.value;
      if demo {
        var updated := Merge(original, input, now);
        tasks := MapById(tasks, id, _ => updated);
        start := UpdateDone(updated);
      } else {
        tasks := MapById(tasks, id, (t: Task) => Merge(t, input, now));
        start := UpdateSent(original);
      }
    }

    /**
     * The end of a real-mode `updateTask`: the server's task, or on failure
     * the snapshot taken before the update, replaces every entry with the id.
     */
    method SettleUpdate(id: string, original: Task, result: Result<Task, Api.ApiError>)
      returns (outcome: Result<Task, string>)
      modifies this
      ensures result.Ok? ==> tasks == MapById(old(tasks), id, _ => result.value)
      ensures result.Ok? ==> outcome == Ok(result.value)
      ensures result.Err? ==> tasks == MapById(old(tasks), id, _ => original)
      ensures result.Err? ==> outcome == Err(Api.GetErrorMessage(result.error))
      ensures isLoading == old(isLoading) && error == old(error) && isMounted == old(isMounted)
      ensures editingTask == old(editingTask) && deletingTask == old(deletingTask)
      ensures pendingToggles == old(pendingToggles) && timers == old(timers)
    {
      match result
      case Ok(updated) =>
        tasks := MapById(tasks, id, _ => updated);
        outcome := Ok(updated);
      case Err(e) =>
        tasks := MapById(tasks, id, _ => original);
        outcome := Err(Api.GetErrorMessage(e));
    }

    /**
     * `toggleComplete`: flips `completed` (and stamps `updatedAt`) on every
     * entry with the task's id at once. In real mode it clears the timer the
     * ref holds for that id, if that timer has not fired yet, schedules a new
     * one under the fresh handle the browser returns, and records that handle
     * for the id.
     */
    method ToggleComplete(task: Task, now: int, demo: bool, handle: nat)
      requires handle !in timers
      modifies this
      ensures tasks == MapById(old(tasks), task.id, (t: Task) => t.(completed := !task.completed, updatedAt := now))
      ensures demo ==> pendingToggles == old(pendingToggles) && timers == old(timers)
      ensures !demo ==> pendingToggles == old(pendingToggles)[task.id := handle]
      ensures !demo ==>
        var cleared := if task.id in old(pendingToggles) then old(timers) - {old(pendingToggles)[task.id]} else old(timers);
        timers == cleared[handle := Toggle(task.id, !task.completed, task.completed)]
      ensures isLoading == old(isLoading) && error == old(error) && isMounted == old(isMounted)
      ensures editingTask == old(editingTask) && deletingTask == old(deletingTask)
    {
      var target := !task.completed;
      tasks := MapById(tasks, task.id, (t: Task) => t.(completed := target, updatedAt := now));
      if !demo {
        if task.id in pendingToggles {
          timers := timers - {pendingToggles[task.id]};
        }
        timers := timers[handle := Toggle(task.id, target, task.completed)];
        pendingToggles := pendingToggles[task.id := handle];
      }
    }

    /**
     * The timer under `handle` fires: it leaves the scheduled timers and its
     * call, sending the captured target value, goes out. The ref still holds
     * the handle.
     */
    method FireToggle(handle: nat) returns (call: Toggle)
      requires handle in timers
      modifies this
      ensures call == old(timers)[handle]
      ensures timers == old(timers) - {handle}
      ensures tasks == old(tasks) && pendingToggles == old(pendingToggles)
      ensures isLoading == old(isLoading) && error == old(error) && isMounted == old(isMounted)
      ensures editingTask == old(editingTask) && deletingTask == old(deletingTask)
    {
      call := timers[handle];
      timers := timers - {handle};
    }

    /**
     * A fired toggle's call answers. Success deletes the ref's entry for the
     * id, whichever handle it holds by then; failure sets `completed` back to
     * the captured value on every entry with the id and records the error.
     */
    method SettleToggle(call: Toggle, failure: Option<Api.ApiError>)
      modifies this
      ensures failure.None? ==> tasks == old(tasks) && error == old(error)
      ensures failure.None? ==> pendingToggles == old(pendingToggles) - {call.id}
      ensures failure.Some? ==>
        && tasks == MapById(old(tasks), call.id, (t: Task) => t.(completed := call.revertTo))
        && error == Some(Api.GetErrorMessage(failure.value))
        && pendingToggles == old(pendingToggles)
      ensures timers == old(timers)
      ensures isLoading == old(isLoading) && isMounted == old(isMounted)
      ensures editingTask == old(editingTask) && deletingTask == old(deletingTask)
    {
      match failure
      case None =>
        pendingToggles := pendingToggles - {call.id};
      case Some(e) =>
        tasks := MapById(tasks, call.id, (t: Task) => t.(completed := call.revertTo));
        error := Some(Api.GetErrorMessage(e));
    }

    /**
     * `deleteTask` up to its await. An unknown id changes nothing. Otherwise
     * every entry with the id leaves the list and the delete selection is
     * cleared; the edit selection is left alone.
     */
    method BeginDelete(id: string, demo: bool) returns (start: DeleteStart)
      modifies this
      ensures Find(old(tasks), id).None? <==> start.DeleteNotFound?
      ensures start.DeleteNotFound? ==> unchanged(this)
      ensures start.DeleteDone? <==> Find(old(tasks), id).Some? && demo
      ensures start.DeleteSent? ==> start.original == Find(old(tasks), id).value
      ensures !start.DeleteNotFound? ==> tasks == RemoveById(old(tasks), id) && deletingTask.None?
      ensures start.DeleteNotFound? ==> deletingTask == old(deletingTask)
      ensures isLoading == old(isLoading) && error == old(error) && isMounted == old(isMounted)
      ensures editingTask == old(editingTask) && pendingToggles == old(pendingToggles) && timers == old(timers)
    {
      var found := Find(tasks, id);
      if found.None? {
        return DeleteNotFound;
      }
      tasks := RemoveById(tasks, id);
      deletingTask := None;
      start := if demo then DeleteDone else DeleteSent(found.value);
    }

    /**
     * The end of a real-mode `deleteTask`: success resolves to true; failure
     * appends the removed task, re-sorts newest first, records the error and
     * resolves to false.
     */
    method SettleDelete(original: Task, failure: Option<Api.ApiError>) returns (deleted: bool)
      modifies this
      ensures deleted <==> failure.None?
      ensures failure.None? ==> unchanged(this)
      ensures failure.Some? ==>
        && tasks == SortByCreatedAt(old(tasks) + [original])
        && error == Some(Api.GetErrorMessage(failure.value))
      ensures isLoading == old(isLoading) && isMounted == old(isMounted)
      ensures editingTask == old(editingTask) && deletingTask == old(deletingTask)
      ensures pendingToggles == old(pendingToggles) && timers == old(timers)
    {
      match failure
      case None =>
        deleted := true;
      case Some(e) =>
        tasks := SortByCreatedAt(tasks + [original]);
        error := Some(Api.GetErrorMessage(e));
        deleted := false;
    }

    /** `setEditingTask`: a plain selection setter. */
    method SetEditingTask(task: Option<Task>)
      modifies this
      ensures editingTask == task
      ensures tasks == old(tasks) && isLoading == old(isLoading) && error == old(error)
      ensures isMounted == old(isMounted) && deletingTask == old(deletingTask)
      ensures pendingToggles == old(pendingToggles) && timers == old(timers)
    {
      editingTask := task;
    }

    /** `setDeletingTask`: a plain selection setter. */
    method SetDeletingTask(task: Option<Task>)
      modifies this
      ensures deletingTask == task
      ensures tasks == old(tasks) && isLoading == old(isLoading) && error == old(error)
      ensures isMounted == old(isMounted) && editingTask == old(editingTask)
      ensures pendingToggles == old(pendingToggles) && timers == old(timers)
    {
      deletingTask := task;
    }
  }

  /**
   * A task toggled again while its first call is in flight: that call's
   * success deletes the second timer's handle from the ref, so a third
   * toggle has nothing to clear, and two timers for the one task are
   * scheduled at once.
   */
  method TogglesCanDoubleSchedule(task: Task) returns (store: Store)
    ensures store.timers.Keys == {2, 3}
    ensures store.timers[2].id == task.id && store.timers[3].id == task.id
  {
    store := new Store();
    store.ToggleComplete(task, 1, false, 1);
    var call := store.FireToggle(1);
    store.ToggleComplete(task, 2, false, 2);
    store.SettleToggle(call, None);
    store.ToggleComplete(task, 3, false, 3);
  }
}
