# Todo app: server table, optimistic cache, and the two input components

This project models, in Dafny, the working parts of a small todo web app:

- **The collection route** (`GET` / `POST /api/todos`). It keeps a process-wide table of
  `{id, title, completed}` records and a counter `nextId`. `POST` reads the JSON body and checks
  `title` with `!title || typeof title !== 'string'`. It then stores the trimmed title under the
  next id with `completed: false`. Otherwise it answers 400. The table is the class
  `TodosRoute.TodoStore`. Its `Valid()` invariant says that ids are positive, strictly
  increasing in table order, and all below `nextId`, so ids are unique.
- **The client data layer** (`useTodos.ts`). The fetch wrappers shape requests: the update puts
  the id in the path and the other fields in the body. They turn any response that is not ok into
  a fixed message per operation. The update mutation snapshots the cached list, patches it with
  `{...todo, ...patch}`, writes the snapshot back on failure, and always invalidates. Create and
  delete invalidate only on success. The cache is the class `UseTodos.QueryCache`: an optional
  list plus a stale flag.
- **The row component** (`TodoItem.tsx`). `isEditing` and `editTitle` form a small state
  machine. Each handler is a method that returns the mutation it would issue.
- **The add form** (`AddTodo.tsx`). It has a one-field buffer and a trim-and-test submit guard.
  The buffer is cleared only in the create's success callback.
- **End to end** (`EndToEnd`). The form, the client wrapper and the route are connected. What the
  form submits passes the route's check and is stored unchanged, because it is already trimmed.

`trim` is `Text.Trim`. It removes leading and trailing characters that satisfy `IsWhitespace`,
the ECMAScript white-space and line-terminator set. No proof depends on which characters are in
that set.

Two behaviours of the code are worth knowing:

- `POST` checks the title before trimming it, so a title of white space only is accepted and
  stored as the empty string (`BlankTitleStoredEmpty`).
- `app/api/todos/[id]/route.ts` declares its own `todos` table, so `PUT` and `DELETE` never see
  a record that `POST` created. That file is not part of this model.

## Model

| member | source | states |
|---|---|---|
| `Text.Trim` | app/api/todos/route.ts:32 | `trim()` is empty exactly when the string is all white space. Otherwise it starts and ends with a non-white-space character. |
| `Text.TrimRemovesBlankEnds` | app/api/todos/route.ts:32 | `trim()` is an infix of its input. What it drops before and after that infix is all white space. |
| `Text.TrimIdempotent` | app/components/AddTodo.tsx:13-16 | Trimming an already trimmed title changes nothing. |
| `TodosRoute.DestructureTitle` | app/api/todos/route.ts:21 | `const { title } = body` throws exactly on JSON `null`. A defined `title` comes only from an object that has that key, and is its value. |
| `TodosRoute.TitleCheckRefusesAllButNonEmptyStrings` | app/api/todos/route.ts:23 | `!title \|\| typeof title !== 'string'` (`Truthy`, `TypeofIsString`) lets through exactly the non-empty strings. |
| `TodosRoute.AcceptedTitle` | app/api/todos/route.ts:19-43 | `POST`'s checks succeed exactly when the body is an object whose `title` is a non-empty string, and then yield that raw string. A body that does not parse, or is JSON `null`, fails with "Invalid JSON". Every other body fails with "Title is required and must be a string". |
| `TodosRoute.TodoStore.constructor` | app/api/todos/route.ts:4-10 | The table starts with ids 1, 2, 3 and their titles and flags, with `nextId` 4. The store invariant holds. |
| `TodosRoute.TodoStore.Get` | app/api/todos/route.ts:13-15 | `GET` answers 200 with the whole table in insertion order and changes nothing. |
| `TodosRoute.TodoStore.Post` | app/api/todos/route.ts:18-44 | A rejected body gets a 400 with its message, and `todos` and `nextId` are unchanged. An accepted one appends exactly one record `{old nextId, trim(title), false}` at the end and increments `nextId` by one. It answers 201 with that record. The invariant (unique, increasing ids, all below `nextId`) is preserved. |
| `TodosRoute.InvariantGivesFreshId` | app/api/todos/route.ts:30-31 | Under the store invariant, ids are pairwise distinct and `nextId` is not among them. |
| `TodosRoute.InitialStoreValid` | app/api/todos/route.ts:4-10 | The starting table satisfies the invariant and has unique ids. |
| `TodosRoute.AppendKeepsInvariant` | app/api/todos/route.ts:30-36 | Appending a record under `nextId` and incrementing `nextId` keeps the invariant and id uniqueness. |
| `TodosRoute.BadTitlesRefused` | app/api/todos/route.ts:23-28 | A missing `title`, an empty string, or any non-string value is refused with the title message, whatever else the body holds. |
| `TodosRoute.BlankTitleStoredEmpty` | app/api/todos/route.ts:23-32 | A non-empty, all-white-space title is accepted, and its trim, which gets stored, is the empty string. |
| `TodosRoute.CompletedIgnored` | app/api/todos/route.ts:21-33 | Adding or changing a `completed` field in the body does not change what `POST` accepts. |
| `UseTodos.FetchTodosRequest` | app/hooks/useTodos.ts:11-12 | `GET /api/todos` with no body. `WrappersReachTheirHandlers` and `ListThroughRoute` state where it goes and what it returns. |
| `UseTodos.CreateTodoRequest` | app/hooks/useTodos.ts:19-24 | `POST /api/todos` with the new todo as body. `SubmittedTitleStoredAsSent` states that the route accepts and stores what it carries. |
| `UseTodos.DeleteTodoRequest` | app/hooks/useTodos.ts:43-46 | `DELETE /api/todos/${id}` with no body. `DeleteRequestNamesItem` states its meaning. |
| `UseTodos.IntToString` | app/hooks/useTodos.ts:32 | `${id}` for an integer: a minus sign for negative ids, then the decimal digits (`Decimal`, whose contract says every character is a digit). |
| `UseTodos.UpdateTodoRequest` | app/hooks/useTodos.ts:31-36 | `PUT /api/todos/${id}` with the other fields as body. Its meaning is stated by `UpdateRequestRoundTrip`, `UpdateBodyCarriesPatchFields` and `WrappersReachTheirHandlers`. |
| `UseTodos.ItemPath` | app/hooks/useTodos.ts:32 | `/api/todos/${id}`, with `IntToString` writing the id in decimal. `ItemPathRoundTrip` states that the id reads back from it. |
| `UseTodos.DeleteRequestNamesItem` | app/hooks/useTodos.ts:43-46 | A delete is a `DELETE` with no body whose path reads back as the id. |
| `UseTodos.ItemPathRoundTrip` | app/hooks/useTodos.ts:32 | The id can be read back from `/api/todos/${id}` exactly, for every integer id, negative ones included. |
| `UseTodos.UpdateRequestRoundTrip` | app/hooks/useTodos.ts:31-36 | The update request carries exactly the patch: the id in the path, the remaining fields in the body, nothing lost or added. |
| `UseTodos.ItemPathInjective` | app/hooks/useTodos.ts:44 | Updates and deletes of different ids go to different paths. |
| `UseTodos.FailureMessage` | app/hooks/useTodos.ts:14-48 | The fixed message of each wrapper. `FailureMessagesDistinct` states that they are pairwise different. |
| `UseTodos.CheckResponse` | app/hooks/useTodos.ts:11-51 | A wrapper succeeds exactly when the status is 200-299, and then returns the body. Otherwise it fails with the operation's fixed message. |
| `UseTodos.FailureDiscardsBody` | app/hooks/useTodos.ts:37-39 | Two failed responses of one operation give the same result, whatever their status codes or bodies: the server's error body never reaches the caller. |
| `UseTodos.FailureMessagesDistinct` | app/hooks/useTodos.ts:14-48 | The four failure messages are pairwise different. |
| `UseTodos.Merge` | app/hooks/useTodos.ts:86 | `{ ...todo, ...patch }`. `PatchedRecordFields` states which fields it takes from where, and `PatchIdempotent` that repeating it changes nothing. |
| `UseTodos.OptimisticPatch` | app/hooks/useTodos.ts:84-88 | `old?.map(...)`: undefined stays undefined, a list goes through `PatchList`. `OptimisticPatchShape` states its shape. |
| `UseTodos.Rollback` | app/hooks/useTodos.ts:95-97 | `onError` writes the snapshot back when there is one. `RollbackRestoresSnapshot` states that this undoes the optimistic patch. |
| `UseTodos.PatchList` | app/hooks/useTodos.ts:84-88 | The optimistic map keeps the list's length, order and ids. Records with another id are unchanged. The record with the patch's id becomes the merge of record and patch. |
| `UseTodos.PatchedRecordFields` | app/hooks/useTodos.ts:86 | In the matching record, each field the patch supplies is overwritten and each field it omits keeps its old value. |
| `UseTodos.PatchOfAbsentId` | app/hooks/useTodos.ts:84-88 | A patch whose id is in no record leaves the list unchanged. |
| `UseTodos.PatchIdempotent` | app/hooks/useTodos.ts:86 | Applying the same patch twice gives the same list as applying it once. |
| `UseTodos.OptimisticPatchShape` | app/hooks/useTodos.ts:84-85 | An undefined cache stays undefined. A present cache keeps its length. The patch is idempotent on the cache. |
| `UseTodos.RollbackRestoresSnapshot` | app/hooks/useTodos.ts:92-98 | Rolling back the optimistic patch with the snapshot taken just before it gives exactly the old cache. This covers an empty list (a truthy snapshot) and an undefined cache. |
| `UseTodos.QueryCache.constructor` | app/hooks/useTodos.ts:54-58 | The `['todos']` entry starts with no data and not invalidated. |
| `UseTodos.QueryCache.Invalidate` | app/hooks/useTodos.ts:101 | Invalidation marks the list stale and leaves the data alone. |
| `UseTodos.QueryCache.OnMutateUpdate` | app/hooks/useTodos.ts:78-91 | `onMutate` returns the cache as it was and replaces it with the optimistic patch. |
| `UseTodos.QueryCache.OnErrorUpdate` | app/hooks/useTodos.ts:92-98 | `onError` writes the snapshot back whenever there is one. Otherwise it leaves the cache alone. |
| `UseTodos.QueryCache.RunUpdate` | app/hooks/useTodos.ts:73-104 | After one update the cache is the patched list on success and exactly the old cache on failure. The list is stale either way. The request sent carries the patch. |
| `UseTodos.QueryCache.RunCreate` | app/hooks/useTodos.ts:61-71 | A create never touches the cached data. It marks the list stale only when the response is ok. |
| `UseTodos.QueryCache.RunDelete` | app/hooks/useTodos.ts:106-115 | A delete never touches the cached data. It marks the list stale only when the response is ok. |
| `TodoItem.TogglePatch` | app/components/TodoItem.tsx:18-21 | The checkbox's patch. `ToggleFlipsCachedRecord` states its effect on the cache. |
| `TodoItem.ControlDisabled` | app/components/TodoItem.tsx:56-93 | The disabled rules of the checkbox and the two buttons. `UpdatePendingBlocksControls` and `Click` state their consequences. |
| `TodoItem.CommitPatch` | app/components/TodoItem.tsx:24-32 | An edit is committed exactly when the buffer is not blank. It carries the row's id, the non-empty trimmed buffer as title, and no `completed`. |
| `TodoItem.TodoItemView.constructor` | app/components/TodoItem.tsx:11-12 | A row starts out of edit mode, with the todo's title in the buffer. |
| `TodoItem.TodoItemView.ReceiveProps` | app/components/TodoList.tsx:48-49 | New props for the same id (rows are keyed by id) replace the todo and keep the edit state. |
| `TodoItem.TodoItemView.ChangeText` | app/components/TodoItem.tsx:60-69 | Typing into the text input, which exists only in edit mode, replaces the buffer. |
| `TodoItem.TodoItemView.StartEditing` | app/components/TodoItem.tsx:70-78 | Double-clicking the title, which is shown only out of edit mode, enters edit mode. |
| `TodoItem.TodoItemView.ToggleComplete` | app/components/TodoItem.tsx:17-22 | The checkbox issues one update with the row's id, `completed = !todo.completed` and no title. |
| `TodoItem.TodoItemView.CommitEdit` | app/components/TodoItem.tsx:24-32 | Only in edit mode, where the input exists: Enter or blur with a blank buffer issues nothing and stays in edit mode. With a non-blank buffer it issues one update with the trimmed title and leaves edit mode. The buffer is untouched. |
| `TodoItem.TodoItemView.KeyDown` | app/components/TodoItem.tsx:40-47 | Only in edit mode: Enter behaves as `CommitEdit`. Escape leaves edit mode, resets the buffer to the todo's title and issues nothing. Other keys change nothing. |
| `TodoItem.TodoItemView.ToggleEditing` | app/components/TodoItem.tsx:84 | The edit/cancel button flips edit mode and leaves the buffer untouched. |
| `TodoItem.TodoItemView.Delete` | app/components/TodoItem.tsx:34-38 | A delete of the row's id is issued exactly when the confirmation returned true. |
| `TodoItem.TodoItemView.Click` | app/components/TodoItem.tsx:51-96 | A disabled control issues nothing and changes nothing. The checkbox is disabled while an update is pending. The edit and delete buttons are disabled while either mutation is pending. An enabled control runs its handler. |
| `TodoItem.ToggleFlipsCachedRecord` | app/components/TodoItem.tsx:17-22 | The checkbox's update, patched into a cached list holding the row's todo, flips only that record's flag. |
| `TodoItem.CommitRenamesCachedRecord` | app/components/TodoItem.tsx:24-30 | A committed edit, patched into the cache, renames only that record to the trimmed buffer. |
| `TodoItem.UpdatePendingBlocksControls` | app/components/TodoItem.tsx:56-93 | While an update is pending, the checkbox and both buttons are disabled. |
| `AddTodo.SubmitPayload` | app/components/AddTodo.tsx:13-18 | A submit sends a create exactly when the buffer is not blank. The create carries the non-empty trimmed title and `completed: false`. |
| `AddTodo.InputDisabled` | app/components/AddTodo.tsx:37 | The input is disabled while a create is pending. `SubmitForm` states that no submit happens then. |
| `AddTodo.SubmitDisabled` | app/components/AddTodo.tsx:41 | The submit button is disabled exactly when a submit would send nothing or a create is pending. |
| `AddTodo.AddTodoForm.constructor` | app/components/AddTodo.tsx:7 | The buffer starts empty. |
| `AddTodo.AddTodoForm.ChangeText` | app/components/AddTodo.tsx:34 | Typing replaces the buffer. |
| `AddTodo.AddTodoForm.Submit` | app/components/AddTodo.tsx:10-26 | `handleSubmit` hands the mutation exactly the guarded payload and leaves the buffer alone. |
| `AddTodo.AddTodoForm.CreateSettled` | app/components/AddTodo.tsx:19-23 | The buffer is cleared when the create succeeds and kept when it fails. |
| `AddTodo.SubmitForm` | app/components/AddTodo.tsx:10-41 | Nothing is sent while a create is pending or when the buffer is blank. Otherwise the trimmed create is sent, and only an ok response clears the buffer and marks the list stale. |
| `EndToEnd.ServerBody` | app/hooks/useTodos.ts:23-35 | `JSON.stringify` of a create or update body as the route's `request.json()` reads it back: an object holding exactly the fields sent. `SubmittedTitleStoredAsSent` and `UpdateBodyCarriesPatchFields` state what the route sees. |
| `EndToEnd.Dispatch` | app/api/todos/route.ts:13-18 | Routing to the handlers of the collection route and of `app/api/todos/[id]/route.ts` (`PUT`, `DELETE`). |
| `EndToEnd.WrappersReachTheirHandlers` | app/hooks/useTodos.ts:11-46 | Fetch reaches `GET`, create reaches `POST`, and update and delete reach the item route with the decimal text of the id. |
| `EndToEnd.UpdateBodyCarriesPatchFields` | app/hooks/useTodos.ts:31-35 | An update's body never holds the id. It holds `title` and `completed` exactly when the patch supplies them, with the patch's values. |
| `EndToEnd.ListThroughRoute` | app/hooks/useTodos.ts:11-17 | The route's `GET` answer, read by the fetch wrapper, gives the caller the whole table. |
| `EndToEnd.SubmittedTitleStoredAsSent` | app/api/todos/route.ts:21-32 | Any title the form submits passes the route's check, and the route's trim leaves it unchanged. |
| `EndToEnd.RouteStatusesAsClientSees` | app/hooks/useTodos.ts:25-28 | The route's 201 reaches the caller as the created record. Its 400 reaches the caller as "Failed to create todo". |
| `EndToEnd.CreateThroughRoute` | app/api/todos/route.ts:18-37 | A form submit carried through the route changes nothing when the buffer is blank. Otherwise it appends `{nextId, trim(buffer), false}`, clears the buffer and marks the list stale. |

## Left out

- `PUT` and `DELETE` on the server (`app/api/todos/[id]/route.ts`) are not part of this model. Only the client wrappers that call them are modelled.
- The list query `useTodos` is left out: filling the cache from a fetch, refetching after invalidation, retries and deduplication are library behaviour. Invalidation is only the `stale` flag.
- `cancelQueries` and the async ordering of callbacks are concurrency. `UseTodos.QueryCache.RunUpdate` runs `onMutate`, the request, `onError` and `onSettled` in order, with nothing else touching the cache in between.
- `fetch`, `response.json()` and JSON parsing are abstracted. The route sees a decoded body or a parse failure. The client sees a status and a decoded body. A response that is ok but fails to parse as JSON is not modelled. Nor is a network failure: there `fetch` rejects and the wrapper throws fetch's own error, not the fixed message that `CheckResponse` gives for a response that is not ok (an update still rolls back then).
- JSON numbers are integers here. Only their type and truthiness matter to the route. Ids are integers, and `${id}` is modelled for integers only.
- `{...todo, ...patch}` is modelled for patches whose keys are either absent or hold a value. A key present with the value `undefined` does not occur in the callers.
- React rendering, JSX, CSS, the loading/error/empty branches and the progress figure of `TodoList.tsx` (floating-point division and `Math.round`), and the static page are not modelled. The browser's `confirm` dialog is an input boolean. Of keyboard events, only Enter, Escape and "any other key" are distinguished.
- `TodoItem.TodoItemView.Click` and `TodoItem.TodoItemView.ToggleEditing` model a click alone. In the browser, a click on any control while editing first blurs the text input, which runs `CommitEdit`. A cancel with a non-blank buffer therefore commits the edit before the click is handled. Whether the click is then delivered depends on re-rendering in between, which the model does not capture.
- `TodosRoute.TodoStore.Post`, `TodosRoute.StoreInvariant` and `UseTodos.ItemPath` treat ids and `nextId` as unbounded integers. In the source they are JavaScript numbers: `nextId++` stops increasing at 2^53, so later creates would reuse that id, and `${id}` switches to exponent notation from 1e21. The uniqueness of ids holds in the source only below 2^53.
