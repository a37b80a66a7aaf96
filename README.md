# Task-management client: store and guard model

A Dafny model of the state bookkeeping in a React single-page client for a
task-management service. The client keeps two stores and one route guard:

- the **task collection store** (`TaskProvider`): the list of tasks, a `loading`
  flag and an `error` message. Each operation — fetch, create, update, delete,
  export, download template, import — changes these from the outcome of one HTTP
  request;
- the **session store** (`AuthProvider`): the signed-in `user` and the session
  `token`, plus an effect that copies the token into `localStorage` after each
  change;
- the **route table** with its `PrivateRoute` guard. The guard reads the token
  from `localStorage` and either renders a view or redirects to `/login`.

The HTTP API is an oracle. Each operation takes the outcome of its request as a
parameter: `Ok(data)`, or `Err(failure)`, where the failure carries the status
and the body's `error` field, or nothing for a network error. Each operation
also returns how its promise settles: `Fulfilled`, or `Rejected(failure)` when
it re-raises.

Both stores hold a reference to the same `LocalStorage` object.
`fetchTasks` and the guard read the token there, and only the session store
writes it, which is how the source shares it.

Modules, one per source component:

| module | file | models |
|---|---|---|
| `Js` | js.dfy | null-or-value, JavaScript truthiness of a string, `localStorage['token']` |
| `Api` | api.dfy | request outcomes, rejected requests, how a promise settles |
| `TaskList` | task_list.dfy | the task record and the append / `map` / `filter` list transforms |
| `TaskContext` | task_context.dfy | class `TaskStore` and the error messages |
| `AuthContext` | auth_context.dfy | class `SessionStore` and the storage sync rule |
| `App` | app.dfy | `PrivateRoute`, the route table, following redirects |
| `Wiring` | wiring.dfy | the guard against the session, scenarios across both stores |

Main properties proved:

- Every task in the list is one the server returned. Each operation pins the
  new list exactly and states which server responses it adds to the ghost set
  `served`; `TaskStore.Valid` (every listed task is in `served`) is kept by
  every operation, so no update is optimistic.
- Update is a position-by-position replacement. It is idempotent, and it is a
  no-op for an absent id.
- Delete is a filter. Its result is fully fixed by its behaviour on one entry
  and on a concatenation, so order is preserved. It is idempotent, and a
  delete after a create with a fresh id restores the list.
- Without a truthy token, no sequence of redirects ever renders a protected
  view. With one, the guard lets every path through.

## Model

| member | source | states |
|---|---|---|
| `TaskList.Append` | src/contexts/TaskContext.js:37 | a create adds exactly one entry, at the end, with every earlier entry in its place |
| `TaskList.ReplaceById` | src/contexts/TaskContext.js:48 | an update keeps the length of the list |
| `TaskList.ReplaceByIdAt` | src/contexts/TaskContext.js:48 | after an update, each entry with the id is the server's task and every other entry is unchanged in place |
| `TaskList.ReplaceByIdAbsent` | src/contexts/TaskContext.js:48 | an update whose id is not in the list leaves the list identical |
| `TaskList.ReplaceByIdIdempotent` | src/contexts/TaskContext.js:48 | applying the same update twice equals applying it once |
| `TaskList.ReplaceByIdKeepsIds` | src/contexts/TaskContext.js:47-48 | when the server echoes the requested id, the ids of the list do not change position by position |
| `TaskList.RemoveById` | src/contexts/TaskContext.js:59 | a delete never lengthens the list, leaves no entry with the id, and keeps only entries that were there |
| `TaskList.RemoveByIdConcat` | src/contexts/TaskContext.js:59 | the survivors of a concatenation are the survivors of each part in the same order, so order is preserved |
| `TaskList.RemoveByIdSingle` | src/contexts/TaskContext.js:59 | a single entry is dropped exactly when its id matches (strict equality) |
| `TaskList.RemoveByIdCounts` | src/contexts/TaskContext.js:59 | after a delete, no copy of a task with the id survives and every other task keeps all of its copies |
| `TaskList.RemoveByIdAbsent` | src/contexts/TaskContext.js:59 | a delete whose id is not in the list leaves the list identical |
| `TaskList.RemoveByIdShrinks` | src/contexts/TaskContext.js:59 | the list gets shorter if and only if it held the id |
| `TaskList.RemoveByIdIdempotent` | src/contexts/TaskContext.js:59 | deleting the same id twice equals deleting it once |
| `TaskList.RemoveAfterAppend` | src/contexts/TaskContext.js:36-59 | creating a task with a new id and then deleting that id restores the list |
| `TaskList.ReplaceAfterAppend` | src/contexts/TaskContext.js:36-48 | updating a task just created with a new id changes only that last entry |
| `TaskContext.FetchErrorMessage` | src/contexts/TaskContext.js:22-28 | a failed fetch always leaves a non-empty message: 'Session expired' on 401, otherwise the server's message when one was sent, else 'Failed to fetch tasks' |
| `TaskContext.ExpiredIsNotGeneric` | src/contexts/TaskContext.js:24-27 | a 401 is reported differently from a failure the server did not explain |
| `TaskContext.TaskStore.constructor` | src/contexts/TaskContext.js:7-9 | the store starts with an empty list, not loading, and no error |
| `TaskContext.TaskStore.FetchTasks` | src/contexts/TaskContext.js:11-32 | with no truthy stored token, no request is made, the list is kept and the error is 'Not authenticated'; on success the list is exactly the server's and the error is cleared; on failure the list is kept and the error comes from FetchErrorMessage; loading is false afterwards in every case, and it never re-raises |
| `TaskContext.TaskStore.CreateTask` | src/contexts/TaskContext.js:34-43 | success appends the server's task and clears the error; failure keeps the list, sets 'Failed to create task' and re-raises |
| `TaskContext.TaskStore.UpdateTask` | src/contexts/TaskContext.js:45-54 | success replaces the entries with the id by the server's task and clears the error; failure keeps the list, sets 'Failed to update task' and re-raises |
| `TaskContext.TaskStore.DeleteTask` | src/contexts/TaskContext.js:56-65 | success filters out the id and clears the error; failure keeps the list, sets 'Failed to delete task' and re-raises |
| `TaskContext.TaskStore.ExportTasks` | src/contexts/TaskContext.js:67-80 | only the error can change: failure sets 'Failed to export tasks', success keeps the previous error; never re-raises |
| `TaskContext.TaskStore.DownloadTemplate` | src/contexts/TaskContext.js:82-95 | only the error can change: failure sets 'Failed to download template', success keeps the previous error; never re-raises |
| `TaskContext.TaskStore.ImportTasks` | src/contexts/TaskContext.js:97-112 | a successful upload runs the fetch and then clears the error whatever the fetch did; a failed upload keeps list and loading, sets 'Failed to import tasks' and re-raises |
| `AuthContext.Persisted` | src/contexts/AuthContext.js:10-16 | storage holds a truthy value exactly when the token is truthy, whatever it holds is the token itself, and a null or empty token leaves no entry at all |
| `AuthContext.SessionStore.constructor` | src/contexts/AuthContext.js:7-16 | the session starts with no user and the token read from storage, and storage then mirrors it |
| `AuthContext.SessionStore.SyncStorage` | src/contexts/AuthContext.js:10-16 | the effect writes a truthy token and removes a falsy one |
| `AuthContext.SessionStore.SetSession` | src/contexts/AuthContext.js:10-23 | setting user and token keeps storage mirroring the token, whether or not the effect had to run |
| `AuthContext.SessionStore.Login` | src/contexts/AuthContext.js:18-27 | success takes user and token from the response; failure changes nothing, storage included, and re-raises |
| `AuthContext.SessionStore.Register` | src/contexts/AuthContext.js:29-38 | the same contract as Login |
| `AuthContext.SessionStore.Logout` | src/contexts/AuthContext.js:40-43 | user and token become null and the stored token is removed; the result does not depend on the prior state, so the operation is idempotent |
| `App.PrivateRoute` | src/App.js:10-13 | renders the child if and only if the stored token is truthy, with no validity check, and otherwise redirects to /login |
| `App.Route` | src/App.js:20-40 | exactly the five declared paths match a route |
| `App.Resolve` | src/App.js:10-39 | following redirects: an unmatched path renders nothing and /login renders at once; what else it reaches is stated by the lemmas below |
| `App.PublicRoutesIgnoreToken` | src/App.js:21-22 | /login and /register render their views whatever the token |
| `App.GuardedRoutes` | src/App.js:23-38 | /tasks and /tasks/new render with a truthy token and redirect to /login otherwise |
| `App.NoProtectedViewWithoutToken` | src/App.js:10-40 | without a truthy token, following any number of redirects from any path renders only login or register |
| `App.WithTokenEveryPathRendersItsView` | src/App.js:10-40 | with a truthy token every declared path ends on its own view, and / ends on the task list |
| `App.EveryRouteSettles` | src/App.js:23-39 | every declared path settles within two redirects, and / ends on the task list with a token and on login without one |
| `Wiring.GuardAgreesWithSession` | src/App.js:11-12 | while storage mirrors the session token, the guard decides on storage exactly as it would on the in-memory token |

## Left out

- The HTTP requests and the server are not modelled. Each operation receives its request's outcome as a parameter, and the request bodies (credentials, task drafts, the uploaded file) are not represented.
- The browser's file download in `exportTasks` and `downloadTemplate` is not modelled. This covers the Blob, the object URL, the link element and the `tasks.xlsx` / `task_template.xlsx` names. Only their effect on `error` is kept.
- The `FormData` construction in `importTasks` is not modelled.
- `console.error` logging is not modelled.
- The mount-time `fetchTasks` (src/contexts/TaskContext.js:114-116) is left out because it is framework lifecycle. Calling `TaskStore.FetchTasks` after the constructor gives the same state.
- Calls are modelled as running one after another. `createTask` and `updateTask` read the `tasks` captured when the component last rendered, so two overlapping calls can lose one result. That concurrency is not modelled.
- React's batching of state updates is not modelled, and neither is the `loading = true` state seen while a fetch is in flight. Only the state after each operation completes is modelled.
- `useTasks` and `useAuth` and their "must be used within a provider" errors are framework plumbing and are not modelled.
- src/pages/TaskForm.js is not part of this model. It is a form that hands its fields to `createTask`.
- Route matching is modelled as exact string equality. The router library's case-insensitive and trailing-slash matching is not modelled.
- `Navigate` is modelled only by the view it ends on, not by the browser history entry it pushes.
- `localStorage` is modelled for the single key `token`, and only the session store writes it. Other tabs and other writers are not modelled.
- Values the server sends of the wrong type (a numeric token, an `error` field that is not a string) are not modelled. A token is a string or null, and the body's `error` is a string or absent.

Behaviours of the code worth knowing:

- After a successful login, the task list is not fetched again. `fetchTasks` runs only when the task provider mounts and when a caller asks.
- Storage is written or cleared according to the token's truthiness, not its presence. An empty-string token is removed from storage even though it is present in memory.
- A 401 from the task API sets "Session expired" but clears neither the session nor the stored token. The guard therefore keeps rendering protected views, as `Wiring.ExpiredSessionKeepsToken` shows.
