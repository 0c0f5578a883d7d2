# To-do list: tasks endpoint, task controllers and user registry

This Dafny project models the logic of a small to-do web application. The logic sits under its React views.

- **Tasks endpoint** (`api/tasks.js`, module `TasksApi`). A serverless handler keeps a module-level task list. It routes a request by its URL segments and HTTP method. POST appends to the list, PUT/PATCH rewrites one element and DELETE splices one out. The answers use the status codes of section 15 of RFC 9110: 200, 201, 204, 400, 404 and 405. `Respond` specifies one request as a function: the response and the task list afterwards. `TaskStore` holds the module state (`tasks`, `initialized`), and its `Handle` method is the handler itself, with the same early returns. It is proved to follow `Respond`.
- **Multi-user client** (`src/Options.jsx`, module `Options`). A registry of users with a bootstrap administrator, plus login, registration and logout. A user's task controller applies each change to the list at once. After the server's answer it reconciles the change or rolls it back to the exact snapshot. It loads tasks from the server, or else from local storage with missing ids backfilled. The administrator gets a per-user view of the stored tasks. The class `SelectOption` has one field per state cell of the component.
- **Single-user client** (`src/options-DESKTOP-8LU0NJT.jsx`, module `OptionsDesktop`). It starts from a seeded list of tasks without ids. Its handlers accept an id or a position. Its add reconciles by object identity.
- **Standalone list** (`src/App-DESKTOP-8LU0NJT.jsx`, module `AppDesktop`). The list component shows the parent's tasks and input when it is given them. Each of its handlers hands over to the parent's handler when there is one. Otherwise it edits a local list by position.

Shared pieces: module `Js` gives JavaScript truthiness, `String()`, `String.prototype.trim` and decimal rendering. Module `TaskLists` defines the `Task` type and the id-based `findIndex`/`find`/`filter`/`map` used by the server and by both clients.

Modelling conventions:

- A task with no id (or a falsy one) has id `""`.
- The answer of each remote call is a parameter of the handler that makes it. It is a `bool` for DELETE and PUT, an `Option<Task>` for the created task, and an `Option<seq<Task>>` for a load.
- Each handler returns the request it sends (`RemoteCall`). A `RemoteCall` keeps only the fields the server reads. The `user: currentUser` field that src/Options.jsx adds to each body (lines 173, 197 and 221) is dropped, because api/tasks.js never reads it (lines 105-109 and 134-138).
- A localStorage entry, once read and parsed, is a `Stored` value: missing, corrupt, not an array, or an array.
- The clock (`Date.now()`) and `Math.random()` become `nat` parameters.
- Each handler runs to completion before the next one starts.

## Model

| member | source | states |
|---|---|---|
| `Js.Trim` | src/Options.jsx:161 | the trimmed text has no whitespace at either end, and it is empty exactly when the input is all whitespace |
| `Js.TrimIsSlice` | src/Options.jsx:161 | the trimmed text is a slice of the input with only whitespace before and after it, so trimming removes that whitespace and nothing else |
| `Js.TrimStart` | src/Options.jsx:161 | the result is a suffix of the input, every character dropped is whitespace, and the result does not start with whitespace |
| `Js.TrimEnd` | src/Options.jsx:161 | the result is a prefix of the input, every character dropped is whitespace, and the result does not end with whitespace |
| `Js.Truthy` | api/tasks.js:109 | `!!v` is false exactly for `undefined`, `null`, `false`, `0` and `""` |
| `Js.ToString` | api/tasks.js:137 | `String(v)`: a string is unchanged; `true`/`false`, `null` and `undefined` give their names; a plain object gives `[object Object]`; a number gives its decimal rendering |
| `Js.NatToString` | api/tasks.js:108 | the rendering of a natural number is non-empty, all digits, and has no leading zero: only 0 starts with `0`, and it is written as that single digit |
| `Js.NatToStringValue` | api/tasks.js:108 | the digits of the rendering denote the number rendered |
| `Js.IntToString` | api/tasks.js:137 | a minus sign exactly for a negative number, followed by the rendering of its magnitude |
| `TaskLists.FindIndex` | api/tasks.js:125 | -1 exactly when no task has the id; otherwise the position of the first task that has it |
| `TaskLists.FindById` | src/Options.jsx:211 | nothing exactly when no task has the id; otherwise the first task of the list that has it |
| `TaskLists.WithoutId` | src/Options.jsx:191 | no task left carries the id, and the result is no longer than the input |
| `TaskLists.WithoutIdMembers` | src/Options.jsx:191 | a task is in the result iff it is in the input and its id differs |
| `TaskLists.WithoutIdAppend` | src/Options.jsx:191 | filtering distributes over concatenation, so kept tasks keep their relative order |
| `TaskLists.WithoutAbsentId` | src/Options.jsx:191 | filtering out an id that no task has returns the list unchanged |
| `TaskLists.WithoutUniqueId` | src/Options.jsx:191 | when exactly one task has the id, filtering equals removing that one position |
| `TaskLists.ToggleId` | src/Options.jsx:215 | same length; id and text kept everywhere; `completed` flipped exactly on the tasks with the id |
| `TaskLists.ToggleIdTwice` | src/Options.jsx:215 | toggling the same id twice gives back the original list |
| `TaskLists.ToggleAbsentId` | src/Options.jsx:215 | toggling an id that no task has changes nothing |
| `TasksApi.ServerId` | api/tasks.js:108 | a created task's id is non-empty and starts with `t` |
| `TasksApi.Split` | api/tasks.js:92 | split yields at least one piece, and no piece contains the separator |
| `TasksApi.JoinSplit` | api/tasks.js:92 | joining the pieces of a split gives back the original string |
| `TasksApi.SplitJoin` | api/tasks.js:92 | splitting a join of separator-free pieces gives back those pieces |
| `TasksApi.NonEmpty` | api/tasks.js:92 | `filter(Boolean)` keeps exactly the non-empty strings |
| `TasksApi.Segments` | api/tasks.js:90-92 | every path segment is non-empty and free of `/` |
| `TasksApi.PathSegments` | api/tasks.js:92 | a path `/s1/.../sn` of non-empty, slash-free segments yields exactly `[s1, ..., sn]` |
| `TasksApi.Route` | api/tasks.js:86-123 | OPTIONS (and only OPTIONS) is the preflight; otherwise two segments with `tasks` second are the collection, three segments with `tasks` second are the item named by the third, and anything else is unmatched |
| `TasksApi.RouteIgnoresFirstSegment` | api/tasks.js:95 | the first segment is never checked, so replacing it does not change the route |
| `TasksApi.TaskPaths` | api/tasks.js:94-123 | `/<p>/tasks` reaches the collection route and `/<p>/tasks/<id>` the item route for `<id>`, for every verb except OPTIONS |
| `TasksApi.QueryStringUnmatched` | api/tasks.js:90-95 | a query string glued to `tasks`, as in `/api/tasks?user=...`, matches no route |
| `TasksApi.QueryStringNotFound` | api/tasks.js:157 | so such a request, whatever its verb (bar OPTIONS) and body, is answered 404 "Not Found" with the list unchanged |
| `TasksApi.ReadPayload` | api/tasks.js:102-104 | the body can be read unless it is text that JSON.parse rejects |
| `TasksApi.NewTask` | api/tasks.js:105-109 | a task is created iff `text` is a non-empty string (checked before trimming); it gets the given id, the trimmed text and the truthiness of `completed` |
| `TasksApi.Patch` | api/tasks.js:134-138 | a `null` payload fails; otherwise the id is kept, `text` becomes `String(text)` and `completed` becomes `!!completed` when the payload carries them, and each is unchanged when it does not |
| `TasksApi.Respond` | api/tasks.js:81-158 | every status is one of 200/201/204/400/404/405; OPTIONS (and only OPTIONS) is 204 and touches nothing; every error and every GET leaves the list unchanged; a 201 comes from a POST and appends the created task, with the new id, at the end; only a 201 or a 200 to PUT/PATCH/DELETE changes the list |
| `TasksApi.PostOutcome` | api/tasks.js:100-116 | a POST creates and appends the task (201) iff the body parses and `text` is a non-empty string; otherwise it is a 400 and the list is unchanged |
| `TasksApi.UnsupportedVerbNotAllowed` | api/tasks.js:119-154 | any verb but GET and POST on the collection, and any verb but GET, PUT, PATCH and DELETE on a known item, gets 405 and leaves the list unchanged |
| `TasksApi.UnknownIdNotFound` | api/tasks.js:124-126 | on the item route an unknown id is 404 for every verb (bar OPTIONS), before any 405, and the list is unchanged |
| `TasksApi.WhitespaceTextStoredEmpty` | api/tasks.js:105-109 | a whitespace-only `text` passes the check and is stored as an empty text |
| `TasksApi.UpdateTouchesOneTask` | api/tasks.js:132-141 | a successful PUT/PATCH rewrites only the first task with the id; the length and all other tasks are unchanged, the id is kept, and `text`/`completed` are overwritten only when present |
| `TasksApi.DeleteRemovesOneTask` | api/tasks.js:148-151 | DELETE answers with the first task that has the id and removes exactly that position; the length drops by one and the others keep their order |
| `TasksApi.DeleteAgreesWithClientFilter` | api/tasks.js:149 | with unique ids, the server's splice leaves the same list as the client's optimistic filter |
| `TasksApi.TaskStore.constructor` | api/tasks.js:35-39 | the store starts with the two seeded tasks and is not yet initialized |
| `TasksApi.TaskStore.InitStore` | api/tasks.js:69-73 | the first call adopts the data file's list if there is one; later calls change nothing |
| `TasksApi.RouterStatuses` | api/tasks.js:86-157 | an unmatched path is 404 "Not Found" with the list unchanged; GET on the collection is 200 with the whole list; GET on a known item is 200 with the first task carrying the id; PUT/PATCH on a known item is 200 exactly when the body parses to something other than `null`, and otherwise 400 "Invalid JSON body" with the list unchanged |
| `TasksApi.TaskStore.Handle` | api/tasks.js:81-158 | after initialization, the response and the new list are exactly what `Respond` gives for the loaded list |
| `TasksApi.TaskStore.HandleCollection` | api/tasks.js:95-120 | the collection branch answers and updates the list exactly as `Respond` does |
| `TasksApi.TaskStore.HandleItem` | api/tasks.js:123-155 | the item branch answers and updates the list exactly as `Respond` does, whatever id a POST would have used |
| `Options.WithAdmin` | src/Options.jsx:35-40 | stored users are kept in order; the bootstrap admin `Admin`/`admin123` is appended iff no stored user is an admin; afterwards some user is an admin |
| `Options.WithAdminIdempotent` | src/Options.jsx:36 | bootstrapping an already bootstrapped registry changes nothing |
| `Options.FindLogin` | src/Options.jsx:72 | -1 exactly when no user matches both name and password; otherwise the first user that matches |
| `Options.BootstrapAdminLogsIn` | src/Options.jsx:36-77 | when no stored user is an admin, `Admin`/`admin123` logs in after bootstrap; it gets the admin role iff no stored user has that name and password |
| `Options.Register` | src/Options.jsx:83-90 | refused iff a trimmed field is empty, or the trimmed name already exists (exact match); otherwise exactly one non-admin user with the trimmed fields is appended and the others are unchanged |
| `Options.RegisterTwiceRefused` | src/Options.jsx:88 | registering a name a second time is refused as existing |
| `Options.TempTask` | src/Options.jsx:165 | the optimistic task has a non-empty id, the given text and `completed` false |
| `Options.Merged` | src/Options.jsx:178 | the server's task, whose id is replaced by the temporary one only when it is empty |
| `Options.Reconcile` | src/Options.jsx:178 | same length; exactly the tasks with the temporary id are replaced by the merged server task |
| `Options.ReconcileReplacesLast` | src/Options.jsx:165-178 | when no earlier task has the temporary id, reconciling replaces only the optimistic task at the end |
| `Options.BackfillId` | src/Options.jsx:133 | a backfilled id is non-empty |
| `Options.BackfillFrom` | src/Options.jsx:131-134 | order, text and `completed` are kept; a truthy id is kept; a missing id becomes `t<user><index><now>` |
| `Options.Backfill` | src/Options.jsx:126-135 | every loaded task has a non-empty id; order, text, `completed` and existing ids are kept |
| `Options.BackfillReloadStable` | src/Options.jsx:126-135 | backfilling an already backfilled list, at any later time, changes nothing |
| `Options.AdminView` | src/Options.jsx:52-68 | there is one entry per non-admin user name, holding that user's stored tasks, or `[]` |
| `Options.SelectOption.constructor` | src/Options.jsx:16-27 | all state cells start empty, logged out |
| `Options.SelectOption.LoadUsers` | src/Options.jsx:30-46 | the registry becomes the bootstrapped stored list; an unparsable entry changes nothing |
| `Options.SelectOption.LoadAllUsersTasks` | src/Options.jsx:49-69 | only while an admin is logged in, the per-user view is rebuilt from storage |
| `Options.SelectOption.HandleLogin` | src/Options.jsx:71-81 | succeeds iff some user matches both fields; on success the session is that user's, with the admin flag of the first match, and the form is cleared; on failure nothing changes |
| `Options.SelectOption.HandleRegister` | src/Options.jsx:83-96 | the registry follows `Register`; the form is cleared only on success; a refusal changes nothing |
| `Options.SelectOption.HandleLogout` | src/Options.jsx:98-106 | the session, selection, input and tasks are cleared |
| `Options.SelectOption.LoadTasks` | src/Options.jsx:109-148 | only for a logged-in non-admin user: the server's array wins; else the stored array with ids backfilled; `[]` for a missing or corrupt entry; a stored non-array keeps the list |
| `Options.SelectOption.AddTask` | src/Options.jsx:160-184 | a blank input changes nothing; otherwise it appends the trimmed text as an open temporary task, clears the input and POSTs the text; on success it reconciles, on failure the optimistic task stays |
| `Options.SelectOption.RemoveTask` | src/Options.jsx:187-206 | a falsy id changes nothing; otherwise it sends the DELETE; the list is filtered on success and is exactly the snapshot on failure |
| `Options.SelectOption.ToggleComplete` | src/Options.jsx:208-230 | a falsy or absent id changes nothing; otherwise the PUT carries the negated old value; the list is toggled on success and is exactly the snapshot on failure |
| `Options.RemoveAbsentIdUnchanged` | src/Options.jsx:187-205 | removing an id no task has leaves the list unchanged on either path |
| `OptionsDesktop.ResolveId` | src/options-DESKTOP-8LU0NJT.jsx:96-98 | a number picks the id at that position (none when out of range); anything else is the id itself |
| `OptionsDesktop.IdlessTasksAreInert` | src/options-DESKTOP-8LU0NJT.jsx:18-24 | in a list without ids, no argument makes remove or toggle change the list |
| `OptionsDesktop.SelectOption.constructor` | src/options-DESKTOP-8LU0NJT.jsx:16-24 | the list starts as the five seeded id-less tasks |
| `OptionsDesktop.SelectOption.Load` | src/options-DESKTOP-8LU0NJT.jsx:27-53 | the server's array, else the stored array, else the list is kept; no id backfill |
| `OptionsDesktop.SelectOption.AddTask` | src/options-DESKTOP-8LU0NJT.jsx:68-93 | a blank input changes nothing; otherwise one task goes at the end and the input is cleared; that task is the server's task as returned on success, or the temporary one on failure |
| `OptionsDesktop.SelectOption.RemoveTask` | src/options-DESKTOP-8LU0NJT.jsx:95-114 | without a resolved id nothing happens; otherwise DELETE; the list is filtered on success and is exactly the snapshot on failure |
| `OptionsDesktop.SelectOption.ToggleComplete` | src/options-DESKTOP-8LU0NJT.jsx:116-138 | without a resolved id nothing happens; the PUT carries the negation of the pre-toggle value (`true` for no task); the list is toggled on success and is exactly the snapshot on failure |
| `AppDesktop.RemoveAtFrom` | src/App-DESKTOP-8LU0NJT.jsx:37 | removes exactly the element at the matching position, or nothing when no position matches |
| `AppDesktop.RemoveAt` | src/App-DESKTOP-8LU0NJT.jsx:37 | an existing position is removed and the others keep their order; any other argument leaves the list unchanged |
| `AppDesktop.ToggleAtFrom` | src/App-DESKTOP-8LU0NJT.jsx:43 | flips `completed` exactly at the matching position |
| `AppDesktop.ToggleAt` | src/App-DESKTOP-8LU0NJT.jsx:43 | only the element at the position changes, and only its `completed` flag |
| `AppDesktop.ToggleAtTwice` | src/App-DESKTOP-8LU0NJT.jsx:43 | toggling the same position twice gives back the original list |
| `AppDesktop.IdArgumentsLeaveLocalList` | src/App-DESKTOP-8LU0NJT.jsx:77-81 | the rendered buttons pass `task.id`, not a number, so local remove and toggle change nothing |
| `AppDesktop.App.constructor` | src/App-DESKTOP-8LU0NJT.jsx:4-19 | the props are recorded, and the local list starts as the three seeded tasks with an empty input |
| `AppDesktop.App.Tasks` | src/App-DESKTOP-8LU0NJT.jsx:21 | the shown list is the prop when given, else the local list |
| `AppDesktop.App.InputValue` | src/App-DESKTOP-8LU0NJT.jsx:22 | the shown input is the prop when given, else the local input |
| `AppDesktop.App.AddTask` | src/App-DESKTOP-8LU0NJT.jsx:25-33 | with a parent handler it delegates and the local state is untouched; otherwise a non-blank shown input is appended trimmed, as an open id-less task, and the local input is cleared |
| `AppDesktop.App.RemoveTask` | src/App-DESKTOP-8LU0NJT.jsx:35-39 | it delegates when there is a parent handler and the local list is untouched; otherwise it removes by position |
| `AppDesktop.App.ToggleComplete` | src/App-DESKTOP-8LU0NJT.jsx:41-45 | it delegates when there is a parent handler and the local list is untouched; otherwise it toggles by position |

## Left out

- File persistence in api/tasks.js is not modelled: `ensureDataDir`, `loadFromFile`, `saveToFile` and the `USE_FILE` flag are I/O. `InitStore` and `Handle` take the file's list as an `Option` parameter instead. It is `None` when file storage is off, the file is missing or unreadable, or it holds no array. Writes to the file are not modelled.
- CORS headers, `res.json` serialisation, `Notify` toasts, `console` logging and all JSX rendering are left out.
- `fetch` is replaced by the outcome parameters described above. Network errors, non-2xx answers and bodies that fail to parse are all the same failed outcome, as in the source.
- localStorage is not modelled. Reads arrive as `Stored` or `Option` parameters. The effect that writes the task list back after every change (src/Options.jsx:150-158, src/options-DESKTOP-8LU0NJT.jsx:59-66) is left out.
- `Options.BackfillFrom`: one `now` serves the whole list, whereas src/Options.jsx:133 calls `Date.now()` once per task without an id, so the ids filled in by one load may carry different timestamps. No lemma depends on the timestamps being equal.
- Because the write-back effect is left out, the model does not show that a regular user's stored tasks are overwritten at every login. The load effect (src/Options.jsx:109-148) and the write-back effect (src/Options.jsx:151-158) both run after the login commit, load first. The load suspends at its `fetch`, and the write-back then stores the current list under the user's key. That list is `[]`, left by logout or the initial state. The fallback read afterwards finds `[]`. The fetch cannot rescue it, because its query string reaches no route (`TasksApi.QueryStringUnmatched`). The desktop variant writes its seed list over `todo.tasks` on mount in the same way (src/options-DESKTOP-8LU0NJT.jsx:27-66). `Options.BackfillReloadStable` is about the backfill alone, not about a save followed by a reload.
- Uniqueness of generated ids is not claimed. The source gives no such guarantee.
- Asynchronous interleaving and the `mounted` flag are left out. The snapshot taken from the closure equals the `prev` list of the optimistic update only because each handler runs to completion.
- Numbers in request bodies are unbounded integers. JavaScript numbers lose precision above 2^53, and `String()` writes them in exponent form from 1e21; neither is modelled. Floating-point values, `NaN`, and `String()` of arrays and of objects with their own `toString` are not modelled either.
- `Options.SelectOption.LoadTasks`: the elements of a stored array are taken to be task objects (`Present(items: seq<Task>)`). A `null` element would make `t.id` throw inside the backfill `map` (src/Options.jsx:131-133), and the catch would then set `[]` (src/Options.jsx:140-142). That input is not represented.
- `Options.SelectOption.LoadUsers`: a stored registry that parses to a non-array is not representable. The source puts that value in its state and then fails on `find`.
- `Options.AdminView`: a stored entry that parses to a non-array is shown as `[]`. The source keeps the raw value. A falsy value (`0`, `false`, `null`, `""`) then shows "No tasks" exactly as `[]` does (src/Options.jsx:386). A truthy non-array whose `length` is not 0 reaches `.filter` (src/Options.jsx:393-394) and the rendering throws.
- `OptionsDesktop.SelectOption.AddTask`: reconciliation by object identity (`t === temp`) is modelled as replacing the position just appended. That is the temporary object while handlers run to completion.
- `OptionsDesktop.ResolveId`: a non-integer number is not modelled. The source would look up `tasks[1.5]` and find no id.
- The password-change operation is not part of the modelled code. Passwords are plain strings with no security modelling.
- src/App.jsx, src/Completed.jsx, src/AllWorks.jsx and src/main.jsx are presentation views and are not part of this model.
