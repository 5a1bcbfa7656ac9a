# TodoFlow in Dafny

A Dafny model of TodoFlow, a small to-do application. It has a Next.js
frontend and an Express backend.

**Frontend.**
- The client task store (the `useTasks` hook). Every asynchronous action is split into a *begin* step, the optimistic change, and a *settle* step, the server's answer. The debounced toggle timer becomes explicit: `ToggleComplete` schedules it, `FireToggle` fires it and sends the call, and `SettleToggle` takes the call's answer.
- The create form and the edit modal for tasks.
- The sign-up and sign-in forms.
- The route guard `AuthRedirect`.
- The API client's error handling and its code-to-message table.
- The runtime type guards.
- The base-URL computation of the auth client.

**Backend.**
- The task routes, as methods on an abstract table of owned rows.
- The Zod request schemas, as parsers.
- The validation middleware.
- The error handler.
- The CORS origin check.

**Layout.**
- Each source file or component is one module:
  - `task_store.dfy` and `task_list.dfy`: the hook;
  - `task_forms.dfy`: both task forms;
  - `auth_forms.dfy`: both auth forms;
  - `api.dfy` and `types.dfy`: the client library;
  - `task_routes.dfy`, `schemas.dfy`, `validation.dfy` and `backend_errors.dfy`: the backend;
  - `auth_redirect.dfy`, `auth_client.dfy` and `cors.dfy`: the three small decision functions.
- `strings.dfy` holds the JavaScript string operations the code relies on: `trim`, `includes`, `replace`, `split` and `join`.
- `json.dfy` holds JSON values.
- `wire.dfy` follows values across the network:
  - the request bodies `JSON.stringify` produces;
  - the error bodies the backend writes and the client parses.

**Modelling choices.**
- Stateful code keeps its form:
  - the hook, the four forms and the task table are classes whose methods overwrite their fields;
  - the list transforms the hook applies (`find`, `map` by id, `filter`, object spread, the newest-first sort) are functions with lemmas;
  - the validators, schemas and error mappings are functions.
- Things the code reads from outside become parameters:
  - remote outcomes;
  - the demo-mode flag;
  - "now";
  - the environment settings;
  - the window origin.

One consequence shows up across the two halves (`Wire.ClearedDescriptionSurvivesOnServer`):
- The edit modal sends an emptied description as an explicit `undefined`.
- The client's optimistic merge clears the description.
- `JSON.stringify` drops the key, so the server keeps the stored description.
- When the server's answer arrives, it replaces the optimistic copy, and the old description comes back.

## Model

| member | source | states |
|---|---|---|
| TaskStore.PlaceholderIdsDistinct | frontend/hooks/useTasks.ts:110-111 | placeholders made at different instants in the same mode get different ids |
| TaskStore.Placeholder | frontend/hooks/useTasks.ts:110-119 | the optimistic task has id `demo-<now>` or `temp-<now>`, the input's title, completed false, both timestamps now, and no description exactly when the input's is missing or empty |
| TaskStore.Store.constructor | frontend/hooks/useTasks.ts:55-63 | empty list, loading, no error, no selections, not mounted, no pending toggles |
| TaskStore.Store.Mount | frontend/hooks/useTasks.ts:66-68 | only `isMounted` becomes true |
| TaskStore.Store.BeginFetch | frontend/hooks/useTasks.ts:70-75 | before mount nothing changes at all; after mount loading starts and the error clears, nothing else changes |
| TaskStore.Store.SettleFetch | frontend/hooks/useTasks.ts:86-98 | success: the list becomes the server's list sorted newest first (sorted, same entries); failure: the list is kept and the error is the code's message; loading stops in both cases |
| TaskStore.Store.SettleDemoFetch | frontend/hooks/useTasks.ts:78-84 | the demo list replaces the tasks and loading stops |
| TaskStore.Store.BeginCreate | frontend/hooks/useTasks.ts:121-128 | exactly the placeholder is put in front of the unchanged list; nothing else changes |
| TaskStore.Store.SettleCreate | frontend/hooks/useTasks.ts:130-142 | success: entries with the temporary id become the server task and the task is returned; failure: those entries are filtered out and the code's message is thrown |
| TaskStore.Store.BeginUpdate | frontend/hooks/useTasks.ts:149-168 | an unknown id returns null and changes nothing; demo mode maps every entry with the id to the merged snapshot; otherwise each such entry is merged and the snapshot is returned for rollback |
| TaskStore.Store.SettleUpdate | frontend/hooks/useTasks.ts:170-179 | success: entries with the id become the server's task; failure: they become the snapshot again, and the code's message is thrown |
| TaskStore.Store.ToggleComplete | frontend/hooks/useTasks.ts:182-224 | only entries with the task's id get `completed := !task.completed` and the new `updatedAt`; outside demo mode the timer the ref holds for the id is cleared if still scheduled, a new timer capturing the id, the new value and the old one is scheduled under the fresh handle, and the ref maps the id to that handle |
| TaskStore.Store.FireToggle | frontend/hooks/useTasks.ts:207-209 | the timer leaves the scheduled set and its captured call goes out; the ref still holds its handle |
| TaskStore.Store.SettleToggle | frontend/hooks/useTasks.ts:209-220 | success deletes the ref's entry for the id, whatever handle it holds by then; failure restores the captured `completed` on every entry with the id and sets the error |
| TaskStore.TogglesCanDoubleSchedule | frontend/hooks/useTasks.ts:200-223 | toggle, fire, toggle again, let the first call succeed, toggle a third time: two timers for the same task are then scheduled, because the success deleted the handle the third toggle needed to clear |
| TaskStore.Store.BeginDelete | frontend/hooks/useTasks.ts:226-237 | an unknown id returns false and changes nothing; otherwise the id's entries are filtered out and `deletingTask` is cleared while `editingTask` is untouched |
| TaskStore.Store.SettleDelete | frontend/hooks/useTasks.ts:239-253 | success returns true and changes nothing; failure appends the original, re-sorts newest first, sets the error and returns false |
| TaskStore.Store.SetEditingTask | frontend/hooks/useTasks.ts:58 | only the edit selection changes |
| TaskStore.Store.SetDeletingTask | frontend/hooks/useTasks.ts:59 | only the delete selection changes |
| TaskList.Find | frontend/hooks/useTasks.ts:149 | `find` is None iff no entry has the id, otherwise the first entry with it |
| TaskList.MapById | frontend/hooks/useTasks.ts:134 | the id-keyed `map` keeps the length and changes exactly the entries with the id |
| TaskList.RemoveById | frontend/hooks/useTasks.ts:139 | the `filter` leaves no entry with the id, returns the list unchanged when none has it, and never grows the list |
| TaskList.RemoveByIdCounts | frontend/hooks/useTasks.ts:139 | after the `filter` an entry with the id occurs zero times and every other entry exactly as often as before |
| TaskList.RemoveByIdAppend | frontend/hooks/useTasks.ts:139 | the `filter` works piece by piece over a concatenation, so the kept entries stay in their order |
| TaskList.Merge | frontend/hooks/useTasks.ts:153 | the spread overwrites each key the input carries (an explicit `undefined` description clears it), keeps id and `createdAt`, and stamps `updatedAt` |
| TaskList.MergeIdempotent | frontend/hooks/useTasks.ts:162-168 | applying the same optimistic update twice equals applying it once |
| TaskList.InsertPos | frontend/hooks/useTasks.ts:89-91 | the insertion point lies after every entry at least as new and before the first strictly older one |
| TaskList.InsertAddsOne | frontend/hooks/useTasks.ts:245-248 | an insertion step adds exactly the one entry (multiset) |
| TaskList.InsertKeepsSorted | frontend/hooks/useTasks.ts:245-248 | inserting into a newest-first list keeps it newest first |
| TaskList.SortByCreatedAt | frontend/hooks/useTasks.ts:89-91 | the comparator sort returns its input newest first |
| TaskList.SortPermutes | frontend/hooks/useTasks.ts:89-91 | the sort neither adds, drops nor duplicates an entry: its result is a permutation of its input |
| TaskList.InsertOldestAppends | frontend/hooks/useTasks.ts:245-248 | an entry no newer than any other is appended, so the sort is stable |
| TaskList.SortSortedIsIdentity | frontend/hooks/useTasks.ts:89-91 | sorting an already sorted list leaves it as it is |
| TaskList.SortAppended | frontend/hooks/useTasks.ts:245-248 | sorting a sorted list plus one appended entry inserts that entry in place |
| TaskList.RemoveFreshHead | frontend/hooks/useTasks.ts:128-139 | filtering out the id of a head whose id is fresh returns the tail |
| TaskList.CreateRollbackRestores | frontend/hooks/useTasks.ts:128-139 | a failed create restores the list from before the insert when no other entry had the temporary id |
| TaskList.CreateConfirmReplacesHead | frontend/hooks/useTasks.ts:128-135 | a confirmed create swaps the placeholder for the server's task and keeps the rest |
| TaskList.FindUnique | frontend/hooks/useTasks.ts:149 | with distinct ids, the entry `find` returns is the only one with its id |
| TaskList.UpdateRollbackRestores | frontend/hooks/useTasks.ts:162-176 | a failed update restores the list exactly |
| TaskList.ToggleRollbackKeepsTimestamp | frontend/hooks/useTasks.ts:187-217 | a failed toggle restores `completed` but keeps the new `updatedAt` |
| TaskList.RemoveThenAddBack | frontend/hooks/useTasks.ts:231-245 | removing the one entry with an id and adding it back gives the same multiset |
| TaskList.RemoveKeepsSorted | frontend/hooks/useTasks.ts:231 | filtering keeps a newest-first list sorted |
| TaskList.DeleteRollbackRestores | frontend/hooks/useTasks.ts:231-249 | a failed delete on a sorted list of distinct ids gives back the same entries, sorted, with the task re-inserted by `createdAt` |
| TaskList.DemoTasks | frontend/hooks/useTasks.ts:9-37 | the three demo tasks are newest first, have distinct ids and were never updated |
| Api.HandleError | frontend/lib/api.ts:40-58 | the error carries the response status and the body's code, message and errors; an unparseable body gives `UNKNOWN_ERROR` with "An unexpected error occurred" |
| Api.GetErrorMessage | frontend/lib/api.ts:60-75 | the four fixed codes map to their texts, `VALIDATION_ERROR` to the error's own message, every other code to "An unexpected error occurred" |
| Api.MessageDependsOnlyOnCode | frontend/lib/api.ts:60-75 | for every code except `VALIDATION_ERROR`, the message depends on the code alone |
| Api.UnparseableBodyMessage | frontend/lib/api.ts:45-73 | an unparseable body is shown as the generic message, whatever the status |
| Types.IsTask | frontend/lib/types.ts:152-160 | true only for an object, and for an object exactly when its keys include `id`, `title` and `completed` |
| Types.IsErrorResponse | frontend/lib/types.ts:162-169 | true only for an object, and for an object exactly when its keys include `code` and `message` |
| Types.TaskToJson | frontend/lib/types.ts:4-22 | a serialized task has exactly the six keys of `Task` |
| Types.TaskJsonIsTask | frontend/lib/types.ts:152-160 | every serialized task passes `isTask` |
| Types.GuardsRejectNonObjects | frontend/lib/types.ts:152-169 | both guards reject null and every non-object |
| Types.IsTaskIgnoresFieldTypes | frontend/lib/types.ts:152-160 | `isTask` accepts an object whose keys hold values of the wrong types |
| TaskForms.TooLongTitleShowsCounter | frontend/components/tasks/TaskCreateForm.tsx:26-67 | whenever the title is rejected as too long, its untrimmed length has reached the counter threshold, so the counter is showing |
| TaskForms.ValidateTitle | frontend/components/tasks/TaskCreateForm.tsx:21-30 | "Title is required" iff the title is only white space; the too-long message iff the trimmed title is non-empty and over 200; no error iff the trimmed length is 1..200 |
| TaskForms.RejectionText | frontend/components/tasks/TaskCreateForm.tsx:53 | an `Error` shows its message, anything else the form's fallback |
| TaskForms.CreatePayload | frontend/components/tasks/TaskCreateForm.tsx:45-48 | the trimmed title; no description iff the description is only white space, otherwise its trimmed, non-empty form |
| TaskForms.EditPayload | frontend/components/tasks/TaskEditModal.tsx:65-68 | the trimmed title; an explicit `undefined` description iff the description is only white space, otherwise its trimmed form; no `completed` |
| TaskForms.CreateForm.constructor | frontend/components/tasks/TaskCreateForm.tsx:15-19 | empty fields, no errors, not submitting |
| TaskForms.CreateForm.BeginSubmit | frontend/components/tasks/TaskCreateForm.tsx:32-48 | the submit error clears; an invalid title sets the title error and submits nothing; a valid one starts submitting with the payload |
| TaskForms.CreateForm.SettleSubmit | frontend/components/tasks/TaskCreateForm.tsx:49-56 | success empties both fields; failure keeps them and sets the submit error ("Failed to create task" fallback); submitting stops either way |
| TaskForms.CreateForm.ChangeTitle | frontend/components/tasks/TaskCreateForm.tsx:59-65 | stores the title and re-validates it only while an error is shown |
| TaskForms.CreateForm.ChangeDescription | frontend/components/tasks/TaskCreateForm.tsx:16 | only the description changes |
| TaskForms.EditModal.constructor | frontend/components/tasks/TaskEditModal.tsx:23-27 | empty fields, no errors, not submitting |
| TaskForms.EditModal.TaskChanged | frontend/components/tasks/TaskEditModal.tsx:30-37 | a task loads its title and its description (or "") and clears both errors; no task changes nothing |
| TaskForms.EditModal.BeginSubmit | frontend/components/tasks/TaskEditModal.tsx:50-68 | no task does nothing; an invalid title sets the title error and does not save; a valid one saves the task's id with the edit payload |
| TaskForms.EditModal.SettleSubmit | frontend/components/tasks/TaskEditModal.tsx:69-74 | closes iff the save succeeded; on failure the submit error is set ("Failed to update task" fallback); submitting stops |
| TaskForms.EditModal.ChangeTitle | frontend/components/tasks/TaskEditModal.tsx:77-83 | stores the title and re-validates it only while an error is shown |
| TaskForms.EditModal.ChangeDescription | frontend/components/tasks/TaskEditModal.tsx:24 | only the description changes |
| AuthForms.ValidEmail | frontend/components/auth/SignUpForm.tsx:38 | the scan accepts exactly the strings of `^[^\s@]+@[^\s@]+\.[^\s@]+$` |
| AuthForms.EmailScan | frontend/components/auth/SignUpForm.tsx:38 | with the first '@' fixed, the scan's conditions and the pattern agree |
| AuthForms.ScanMatches | frontend/components/auth/SignUpForm.tsx:38 | a successful scan yields the pattern's split |
| AuthForms.MatchScans | frontend/components/auth/SignUpForm.tsx:38 | every split of the pattern puts its '@' at the first '@', so the scan succeeds |
| AuthForms.EmailError | frontend/components/auth/SignUpForm.tsx:39-43 | "Email is required" iff empty; the invalid-address message iff non-empty and not of the pattern; no error iff of the pattern |
| AuthForms.ValidateSignUp | frontend/components/auth/SignUpForm.tsx:34-61 | per field at most one error: email as above; password required iff empty, too short iff length 1..7; confirmation required iff empty, mismatch iff non-empty and different |
| AuthForms.SignUpValidIff | frontend/components/auth/SignUpForm.tsx:59-60 | the sign-up form is valid iff the email is of the pattern, the password has at least 8 characters and the confirmation equals it |
| AuthForms.ValidateSignIn | frontend/components/auth/SignInForm.tsx:30-48 | the email rule as for sign-up; the password only has to be non-empty |
| AuthForms.SignInValidIff | frontend/components/auth/SignInForm.tsx:46-47 | the sign-in form is valid iff the email is of the pattern and the password non-empty |
| AuthForms.DerivedName | frontend/components/auth/SignUpForm.tsx:86 | the name is the prefix of the email before its first '@' (all of it when there is none) |
| AuthForms.DerivedNameIsLocalPart | frontend/components/auth/SignUpForm.tsx:86 | for an accepted email the name is exactly the local part |
| AuthForms.SignUpFailureText | frontend/components/auth/SignUpForm.tsx:89-95 | a message containing "already exists" gives the duplicate-account text; otherwise the message itself, or the fallback when missing or empty |
| AuthForms.SignInFailureText | frontend/components/auth/SignInForm.tsx:79-85 | a message containing "invalid" or "credentials" gives "Invalid email or password"; otherwise the message itself, or the fallback |
| AuthForms.SignUpForm.constructor | frontend/components/auth/SignUpForm.tsx:25-32 | empty values, no errors, not submitting |
| AuthForms.SignUpForm.BeginSubmit | frontend/components/auth/SignUpForm.tsx:63-87 | errors are recomputed; an invalid form never reaches sign-up; demo mode redirects to the dashboard; otherwise the credentials with the derived name are sent |
| AuthForms.SignUpForm.SettleSubmit | frontend/components/auth/SignUpForm.tsx:89-108 | success redirects to the dashboard; an error result sets its mapped text; a throw sets the unexpected-error text; submitting stops |
| AuthForms.SignUpForm.HandleChange | frontend/components/auth/SignUpForm.tsx:111-119 | stores the field's value and clears only that field's error |
| AuthForms.SignInForm.constructor | frontend/components/auth/SignInForm.tsx:22-28 | empty values, no errors, not submitting |
| AuthForms.SignInForm.BeginSubmit | frontend/components/auth/SignInForm.tsx:50-75 | errors are recomputed; an invalid form never calls sign-in; demo mode redirects; otherwise the credentials are sent |
| AuthForms.SignInForm.SettleSubmit | frontend/components/auth/SignInForm.tsx:79-97 | success redirects to the dashboard; an error result sets its mapped text; a throw sets the unexpected-error text; submitting stops |
| AuthForms.SignInForm.HandleChange | frontend/components/auth/SignInForm.tsx:100-108 | stores the field's value and clears only that field's error |
| TaskRoutes.StoredDescription | backend/src/routes/tasks.ts:34 | a missing or empty description is stored as null, any other as given |
| TaskRoutes.ApplyPatch | backend/src/routes/tasks.ts:87-97 | each field the body carries replaces the stored one (a null description included), each missing field is kept, and the id and `createdAt` are kept |
| TaskRoutes.ApplyPatchIdempotent | backend/src/routes/tasks.ts:87-97 | repeating a patch at the same instant changes nothing more |
| TaskRoutes.ApplyPatchComposes | backend/src/routes/tasks.ts:87-97 | two patches in a row equal one patch with the later fields winning |
| TaskRoutes.EmptyPatchOnlyStamps | backend/src/routes/tasks.ts:87-97 | an empty body changes only `updatedAt` |
| TaskRoutes.InsertKeepsUniqueIds | backend/src/routes/tasks.ts:53-56 | inserting a task with a new id keeps the ids distinct |
| TaskRoutes.InsertMembers | backend/src/routes/tasks.ts:53-56 | after an insertion the entries are the old ones and the inserted one |
| TaskRoutes.InsertIds | backend/src/routes/tasks.ts:53-56 | an insertion adds exactly the inserted task's id |
| TaskRoutes.InsertStep | backend/src/routes/tasks.ts:53-56 | inserting a task with a new id into a sorted list of distinct ids keeps it sorted and distinct and adds exactly that task |
| TaskRoutes.VisitExtends | backend/src/routes/tasks.ts:53-56 | visiting one more row extends a listing of the caller's rows to that row |
| TaskRoutes.TaskTable.constructor | backend/src/routes/tasks.ts:30 | an empty table |
| TaskRoutes.TaskTable.Create | backend/src/routes/tasks.ts:22-44 | stores an open task owned by the caller under the fresh id, with its description stored as above, and answers 201; other users' rows are untouched |
| TaskRoutes.TaskTable.List | backend/src/routes/tasks.ts:49-62 | returns exactly the caller's tasks, each once, newest first, each as stored |
| TaskRoutes.TaskTable.Update | backend/src/routes/tasks.ts:67-105 | a missing or foreign id raises NOT_FOUND/404 and changes nothing; otherwise that row alone becomes the patched task; other users' rows are untouched |
| TaskRoutes.TaskTable.Delete | backend/src/routes/tasks.ts:110-136 | a missing or foreign id raises NOT_FOUND/404 and changes nothing; otherwise that row alone is removed and the success message is returned |
| Schemas.Measured | backend/src/schemas/task.ts:5-9 | the string the bounds apply to is never shorter than the trimmed one |
| Schemas.MeasuredTrimmed | backend/src/schemas/task.ts:5-9 | an already trimmed string measures the same whether the bounds are checked before or after `.trim()` |
| Schemas.CheckTitle | backend/src/schemas/task.ts:5-9 | accepted iff a string of 1..200 characters; the output is trimmed and at most 200 long; a missing key gives "Required" |
| Schemas.CheckDescription | backend/src/schemas/task.ts:10-15 | accepted iff missing, null, or a string of at most 2000 characters; the output keeps that distinction and is trimmed |
| Schemas.CheckCompleted | backend/src/schemas/task.ts:32 | accepted iff missing or a boolean, which is passed through |
| Schemas.Field | backend/src/schemas/task.ts:4 | a key's value, or none when the key is missing |
| Schemas.FieldIssues | backend/src/schemas/task.ts:4-16 | a failed field contributes exactly one issue, at its own key |
| Schemas.ThreeFieldIssues | backend/src/schemas/task.ts:19-33 | three distinct fields give no issue exactly when all pass, and otherwise at most one issue each, at their own keys |
| Schemas.ParseCreate | backend/src/schemas/task.ts:4-16 | accepted iff an object with an accepted title and an accepted (or missing) description; output trimmed; otherwise one or two issues, at most one per field |
| Schemas.ParseUpdate | backend/src/schemas/task.ts:19-33 | every key optional and each present one checked; the output carries exactly the keys present, the title trimmed, a string description trimmed and a null one as an explicit null, `completed` as sent; otherwise one to three issues, at most one per field |
| Schemas.ParseTaskId | backend/src/schemas/task.ts:36-38 | accepted iff `id` is a non-empty string; otherwise one issue at `id` |
| Schemas.BlankTitleDependsOnMeasure | backend/src/schemas/task.ts:5-9 | a title of white space passes if measured before trimming and is rejected if measured after |
| BackendErrors.PathElemText | backend/src/middleware/error.ts:32 | a key renders as its own name; an index renders as a numeral without a '.' that denotes the index |
| BackendErrors.PathTexts | backend/src/middleware/error.ts:32 | each path element is rendered in place |
| BackendErrors.JoinPath | backend/src/middleware/error.ts:32 | an empty path joins to "", a one-element path to that element |
| BackendErrors.JoinPathSplits | backend/src/middleware/error.ts:32 | a joined path splits back into its elements when no key contains '.' |
| BackendErrors.IssuesToErrors | backend/src/middleware/error.ts:31-34 | one `{field, message}` per issue, in the same order, with the joined path as the field |
| BackendErrors.IssuesToErrorsAppend | backend/src/middleware/error.ts:31-34 | the mapping commutes with concatenation |
| BackendErrors.ErrorHandler | backend/src/middleware/error.ts:5-49 | an `AppError` answers with its own status, code and message, with `errors` iff it has some; a `ZodError` answers 400 `VALIDATION_ERROR` "Validation failed" with the issues mapped in order, each entry's `field` the joined path and its message copied; anything else answers 500 `INTERNAL_SERVER_ERROR`, hiding its message in production |
| BackendErrors.ProductionHidesMessages | backend/src/middleware/error.ts:41-48 | in production two unknown errors are answered identically |
| BackendErrors.ErrorBodyToJson | backend/src/types/error.ts:15-19 | a body has `code` and `message`, and an `errors` key iff it has errors |
| Validation.Validate | backend/src/middleware/validation.ts:8-29 | success continues with the parsed value; a `ZodError` answers 400 `VALIDATION_ERROR` with the mapped issues; anything else is forwarded unchanged |
| Validation.ValidateBody | backend/src/middleware/validation.ts:8-29 | as above with the message "Validation failed" |
| Validation.ValidateParams | backend/src/middleware/validation.ts:34-55 | as above with the message "Invalid parameters" |
| Validation.BodyRejectionMatchesErrorHandler | backend/src/middleware/validation.ts:14-24 | a rejected body gets the same reply the error handler gives the same `ZodError` |
| Validation.ParamsRejectionDiffersOnlyInMessage | backend/src/middleware/validation.ts:40-50 | rejected parameters differ from a rejected body only in the message |
| Validation.ForwardedErrorsReachHandler | backend/src/middleware/validation.ts:26 | only non-Zod errors are forwarded, and the handler answers them as if thrown directly |
| AuthRedirect.Redirect | frontend/components/auth/AuthRedirect.tsx:22-32 | no redirect in demo mode or before the session is known; otherwise /sign-in iff signed out on a signed-in page, /dashboard iff signed in on a signed-out page |
| AuthRedirect.Render | frontend/components/auth/AuthRedirect.tsx:35-65 | demo mode: spinner until mounted, then the page; otherwise spinner while unmounted or pending, nothing iff misplaced, else the page |
| AuthRedirect.RenderMatchesRedirect | frontend/components/auth/AuthRedirect.tsx:22-65 | the guard renders nothing iff it redirects, and the page iff it does not redirect and is neither loading nor unmounted |
| AuthClient.ApiUrl | frontend/lib/auth.ts:5 | a missing or empty setting falls back to "/api" |
| AuthClient.BaseUrl | frontend/lib/auth.ts:6-12 | a relative URL gives the window origin (or ""); an absolute one without "/api" is kept; in one with "/api" the first occurrence, and only it, is cut out |
| AuthClient.DefaultUsesOrigin | frontend/lib/auth.ts:5-11 | with no setting the base is the page's own origin |
| AuthClient.AbsoluteDropsApiSuffix | frontend/lib/auth.ts:12 | "https://host/api" becomes "https://host" when the host part has no "/api" |
| Cors.AllowedOrigins | backend/src/index.ts:14-17 | the configured origin (default http://localhost:3000) and http://localhost:3001 |
| Cors.CheckOrigin | backend/src/index.ts:20-27 | allowed iff there is no origin or it equals a listed one; otherwise rejected with "Not allowed by CORS" |
| Cors.DefaultAllowsOnlyLocalhost | backend/src/index.ts:14-27 | without configuration exactly the two local origins pass |
| Cors.ExtensionIsRejected | backend/src/index.ts:22 | the match is exact: an allowed origin with anything appended is rejected |
| Wire.CreateRequestJson | frontend/lib/api.ts:93-98 | the create body has the title, and a description key iff the input has a description |
| Wire.UpdateRequestJson | frontend/lib/api.ts:108-113 | a key holding `undefined` is dropped like a missing one |
| Wire.Received | frontend/lib/api.ts:40-58 | the client reads the backend body's code text and message unchanged, with `errors` iff present |
| Wire.Shown | frontend/lib/api.ts:40-75 | the message the client shows for each code the backend can send: the body's own message for `VALIDATION_ERROR`, the fixed texts for `UNAUTHORIZED`, `NOT_FOUND` and `CONFLICT`, and the unexpected-error text for `BAD_REQUEST`, `FORBIDDEN` and `INTERNAL_SERVER_ERROR` |
| Wire.SomethingWentWrongNeverChosen | frontend/lib/api.ts:70-71 | the backend never sends `SERVER_ERROR`, so that text appears only as a validation message |
| Wire.UnknownFailureShownAsUnexpected | frontend/lib/api.ts:72-73 | a 500 from the backend is shown as "An unexpected error occurred" |
| Wire.NotFoundShown | frontend/lib/api.ts:64-65 | the routes' 404 is shown as the not-found text |
| Wire.RejectedBodyShown | frontend/lib/api.ts:66-67 | a rejected body is shown as "Validation failed" |
| Wire.ErrorBodiesPassGuard | frontend/lib/types.ts:162-169 | every error body the backend writes passes `isErrorResponse` |
| Wire.AcceptedCreateParses | backend/src/schemas/task.ts:4-16 | a create body whose title and description the schema accepts parses to exactly their trimmed values |
| Wire.ClearedEditSendsTitleOnly | frontend/components/tasks/TaskEditModal.tsx:64-68 | an edit whose description is emptied sends a body holding the trimmed title and nothing else |
| Wire.TitleOnlyBodyParses | backend/src/schemas/task.ts:19-33 | a body holding only an acceptable title parses to an update of the trimmed title alone, leaving description and completed unset |
| Wire.FormTitleAcceptedByServer | backend/src/schemas/task.ts:4-16 | a title and description the create form accepts pass the server's schema unchanged, however the schema measures them |
| Wire.OptimisticUpdateMatchesServer | backend/src/routes/tasks.ts:87-97 | for an accepted edit with trimmed strings and no explicit `undefined`, the server's PATCH of the stored task equals the client's optimistic spread |
| Wire.ClearedDescriptionSurvivesOnServer | frontend/hooks/useTasks.ts:165 | an emptied description is dropped from the request, so the server keeps the old description while the optimistic copy loses it |
| Strings.Trim | frontend/components/tasks/TaskCreateForm.tsx:22 | the trimmed string is no longer than the original and neither starts nor ends with white space |
| Strings.TrimStartKeeps | frontend/components/tasks/TaskCreateForm.tsx:22 | what trimming the start keeps is a tail of the original, character for character |
| Strings.TrimStartDrops | frontend/components/tasks/TaskCreateForm.tsx:22 | every character trimming the start drops is white space |
| Strings.TrimEndKeeps | frontend/components/tasks/TaskCreateForm.tsx:22 | what trimming the end keeps is a head of the original, character for character |
| Strings.TrimEndDrops | frontend/components/tasks/TaskCreateForm.tsx:22 | every character trimming the end drops is white space |
| Strings.TrimEmptyIffBlank | frontend/components/tasks/TaskCreateForm.tsx:22-25 | the trimmed string is empty iff the string is only white space |
| Strings.TrimIdempotent | backend/src/schemas/task.ts:9 | trimming twice is trimming once |
| Strings.Contains | frontend/components/auth/SignUpForm.tsx:90 | `includes` holds iff the pattern occurs somewhere |
| Strings.ReplaceFirst | frontend/lib/auth.ts:12 | `replace` with a string pattern rewrites only the first occurrence |
| Strings.PrefixBefore | frontend/components/auth/SignUpForm.tsx:86 | `split(c)[0]` is the prefix before the first `c` |
| Strings.SplitJoin | backend/src/middleware/error.ts:32 | splitting a join on its separator recovers the parts |
| Strings.NatToString | frontend/hooks/useTasks.ts:111 | the decimal rendering uses digits only, with no leading zero |
| Strings.NatToStringValue | frontend/hooks/useTasks.ts:111 | the digits, read by Horner's rule, denote the number rendered |
| Strings.NatToStringInjective | frontend/hooks/useTasks.ts:111 | different numbers render differently |

## Left out

- **Network I/O.** `fetchWithTimeout`, the abort timeout, `fetch` and JSON parsing of responses are not modelled. The remote outcome of each call is a parameter of the corresponding settle step.
- **Timers and delays.** The 300 ms toggle debounce and the simulated demo delays are not modelled. Timers are identified by the handle `setTimeout` returns, a parameter of `ToggleComplete`; a scheduled timer is an entry of `timers`, and the ref is `pendingToggles`. JavaScript's truthiness test on a handle is taken to hold, as browsers return positive handles.
- **Closures and batching.** React's closures, dependency lists and state batching are not modelled. Each step reads the store's current list, which serves as the snapshot.
- **Rendering.** Markup, styling and focus are not modelled. The dashboard glue that passes callbacks to the forms and closes the modal is also left out.
- **Authentication.** The auth library (sessions, the sign-up and sign-in calls, the auth middleware) is not modelled. Its outcome is the `AuthOutcome` parameter, and the session state is a flag of the route guard.
- **Database.** The table is an abstract map from id to row. The fresh id is a parameter. `createdAt` and `updatedAt` are taken to be the request's "now", standing in for the database defaults and `@updatedAt`.
- **Rate limiting** is not modelled.
- **Schema library internals.**
  - Whether Zod checks the length bounds before or after `.trim()` is left open as the parameter `measureAfterTrim`.
  - The type-error wording of the issues ("Expected string, received …") is approximate.
- **Configuration.** Environment reads, startup and logging are not modelled. The demo-mode flag, `NODE_ENV`, `CORS_ORIGIN`, `NEXT_PUBLIC_API_URL`, "now" and the window origin are parameters.
- **String lengths.** They are counted in Unicode scalar values; JavaScript counts UTF-16 code units. The two differ only for characters outside the Basic Multilingual Plane.
- **White space** is the ECMAScript WhiteSpace and LineTerminator set, written out in `Strings.IsWhitespace`.
- **Number formats.** Timestamps are integers (milliseconds) rather than ISO strings, and JSON numbers are integers.
- **Null versus undefined.** On the client, a task's description conflates `null` and `undefined`, which the client treats alike.
- **Explicit undefined.** Only `description` of a client `UpdateTaskInput` can be an explicit `undefined`. No caller passes `title` or `completed` that way.
- **Middleware side effects.** The in-place replacement of `req.body` and `req.params`, and the calls to `next`, are the `Continue` and `Forward` results of `Validation.Validate`.
- **Counters.** `ShowTitleCounter` and `ShowDescriptionCounter` are plain reads of the field lengths. They carry no contract of their own; `TaskForms.TooLongTitleShowsCounter` states that a title rejected as too long always has its counter showing.
