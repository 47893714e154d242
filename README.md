# Weekly task planner, modelled in Dafny

The planner has three parts:

- **Board.** A React board (`src/App.tsx`) shows one week as seven day columns. Tasks can be dragged between columns, edited, created and deleted. Each change is applied to the screen at once; the server is asked afterwards.
- **API client.** `src/services/api.ts` turns `fetch` outcomes into returned tasks, a status-carrying `CustomApiError`, or a plain network `Error`.
- **Server.** An Express server (`server/src/index.js`) keeps the tasks in a MongoDB collection through a Mongoose model (`server/src/models/Task.js`). Its handlers are guarded by two validation middlewares (`server/src/middleware/validateTask.js`). Two more pieces sit beside it:
  - an alternative router (`server/src/routes/tasks.js`) that is never mounted;
  - a Redis cache service (`server/src/services/redis.js`) that no handler calls.

The model's modules, one per source file plus shared value modules:

- `Wrappers` (`wrappers.dfy`): the `Option` type.
- `Json` (`json.dfy`): JavaScript values and the coercions the code relies on: truthiness, `String(v)`, `join`, `trim`.
- `Dates` (`dates.dfy`): instants (milliseconds) and day numbers, `setHours`, Monday-start weeks, `new Date(...)`.
- `Validation` (`validation.dfy`): the two middlewares as ordered guard chains.
- `TaskModel` (`task_model.dfy`): the document: ObjectId casting, schema defaults and `trim`, the `pre('save')` hook (a class whose `date` the hook overwrites), `toJSON`.
- `Http` (`http.dfy`): the responses both handler sets send and their JSON.
- `Store` (`store.dfy`): the collection as a class holding a sequence of documents with distinct ids, with `find().sort()`, `save`, `findByIdAndUpdate` and `findByIdAndDelete`.
- `Server` (`server.dfy`): the four mounted handlers of `index.js`.
- `Router` (`router.dfy`): the four handlers of `routes/tasks.js`.
- `Cache` (`cache.dfy`): the key scheme, and get, set-with-expiry and delete on a Redis key space (a class holding a map).
- `Api` (`api.dfy`): the requests the client sends and how each outcome maps to a result.
- `Week` (`week.dfy`): the board's transitions as functions on a list of column values, and what they guarantee.
- `Board` (`board.dfy`): the same transitions on a heap of column objects, as `setWeekData` updaters mutate them.
- `Integration` (`integration.dfy`): what happens when the client's requests reach the mounted handlers.

Nondeterministic or external inputs are parameters:

- the JavaScript engine's date-string parser (`parse`);
- the moment of a request (`now`);
- the ObjectId MongoDB assigns (`newId`);
- a store error thrown mid-operation (`fault`, carrying its message);
- the settled outcome of every `fetch` (`HttpReply`, `ApiResult`).

Time zones are not modelled: local time is UTC, so `setHours(0, 0, 0, 0)` is "the start of the instant's day".

The code has these cross-file quirks, which the model follows:

- The mounted list handler sits behind `validateDateRange`, which requires `startDate`/`endDate`. The handler then reads `start`/`end`, and the client sends only `start`/`end`. Every list request from the client is therefore answered 400 (`Integration.FetchWeek`).
- The board creates tasks with empty content, which `validateTask` refuses (`Integration.ClientCreateRequestRejected`). If `optimisticApi.createTask` sends that task unchanged through `api.createTask`, every board create is answered 400 (`Integration.CreateFromBoard`).
- The cache service exists but no handler uses it.
- A mounted delete answers 204 with no body. The router's delete answers 200 with a message.
- A mounted create, update or delete turns a thrown error into 400 with the error's message. The router turns one into 500 with a fixed message.

## Model

| member | source | states |
|---|---|---|
| `Validation.ValidateTask` | server/src/middleware/validateTask.js:2-22 | `next()` happens exactly when content is a string with non-whitespace text, the date has the `YYYY-MM-DD` form and the date parses. Otherwise the 400 carries the first failing guard's message, in the order content, format, validity. |
| `Validation.ValidateDateRange` | server/src/middleware/validateTask.js:25-50 | `next()` happens exactly when `startDate` and `endDate` are both present, well-formed and parseable, and start is not after end. Each failure gets its own message, in that order; a missing bound is reported first. |
| `Validation.FormatGuard` | server/src/middleware/validateTask.js:10-13 | The guard `!date \|\| !dateRegex.test(date)` passes exactly on strings (or arrays that stringify to one) of the form `YYYY-MM-DD`. |
| `Validation.ContentGuard` | server/src/middleware/validateTask.js:5-7 | The content guard passes exactly on strings with a non-whitespace character. |
| `Validation.ContentCheckedFirst` | server/src/middleware/validateTask.js:5-19 | A body without text gets the content message, whatever its date. |
| `Validation.RangeIgnoresOtherKeys` | server/src/middleware/validateTask.js:26-30 | Query keys other than `startDate`/`endDate`, such as `start` and `end`, do not change the range verdict. |
| `Validation.OneDayRangeAccepted` | server/src/middleware/validateTask.js:45-49 | A range whose start and end are the same valid day is accepted. |
| `Validation.AcceptedRangeIsOrdered` | server/src/middleware/validateTask.js:38-49 | An accepted range has both bounds parsing, with start ≤ end. |
| `Json.Trim` | server/src/models/Task.js:4-8 | `trim()` is the infix of the string between a whitespace-only prefix and a whitespace-only suffix, and itself has no whitespace at either end, so exactly the edge whitespace is removed. It is empty exactly when the string is all whitespace. |
| `Json.TrimIdempotent` | server/src/models/Task.js:4-8 | Trimming twice is trimming once. |
| `Json.DashAtFourOnlyInStringsOrArrays` | server/src/middleware/validateTask.js:10-11 | Only a string, or an array joining to one, can have a 10-character string form with '-' at index 4; numbers, Booleans, null and objects cannot. |
| `Dates.StartOfDay` | server/src/models/Task.js:22-30 | `setHours(0,0,0,0)` gives the midnight at or before the instant, on the same day. |
| `Dates.EndOfDay` | server/src/index.js:43-44 | `setHours(23,59,59,999)` gives the last millisecond of the instant's day. |
| `Dates.StartOfDayIdempotent` | server/src/models/Task.js:22-30 | Normalising to midnight twice is normalising once. |
| `Dates.WholeDayRange` | server/src/index.js:41-52 | An instant lies between start-of-day(a) and end-of-day(b) exactly when its day lies between a's day and b's day. |
| `Dates.MondayOf` | src/App.tsx:19-22 | `startOf('week')` under the Monday-start locale is a Monday at most six days before the date. |
| `Dates.MondayOfWeek` | src/App.tsx:66-68 | Every day of a Monday-start week has that Monday as its week start. |
| `Dates.NewDate` | server/src/middleware/validateTask.js:16 | `new Date(v)` on a string or array is the engine's parse of its string form; `undefined` is an invalid date. |
| `TaskModel.CastObjectId` | server/src/index.js:76-80 | An `:id` casts exactly when it is 24 hex digits, and casts to its lower-case form. |
| `TaskModel.ObjectIdIsNeverTemporary` | src/App.tsx:298-300 | No ObjectId starts with `temp_`. |
| `TaskModel.ApplyDefaults` | server/src/models/Task.js:3-16 | Missing content becomes '' and given content is `Trim` of it. `completed` is true only when given as true. A missing date is the moment of creation, and a given date is kept. |
| `TaskModel.CastBoolean` | server/src/models/Task.js:9-12 | The Boolean cast maps exactly `true`, 1, 'true', '1' and 'yes' to true and `false`, 0, 'false', '0' and 'no' to false; anything else fails. |
| `TaskModel.SavedRecord` | server/src/models/Task.js:3-30 | A saved new document has the given id, the defaulted fields, its date at midnight on the same day, both timestamps at the save time, and version 0. |
| `TaskModel.ToJsonForgetsOnlyVersion` | server/src/models/Task.js:33-43 | Two documents have the same `toJSON` form exactly when they agree on every field except the version key. |
| `TaskModel.TaskDocument.NormaliseDate` | server/src/models/Task.js:22-30 | The hook moves the document's date to the midnight of its day and changes nothing else. |
| `TaskModel.TaskDocument.Save` | server/src/models/Task.js:18-30 | Saving sets both timestamps, normalises the date and yields the stored record. |
| `TaskModel.NormaliseTwice` | server/src/models/Task.js:22-30 | Running the hook twice gives the same date as running it once. |
| `Store.IndexOf` | server/src/index.js:76-80 | Finds the position of the document with an id, and reports absence exactly when no document has it. |
| `Store.InRange` | server/src/index.js:47-52 | The query `$gte`/`$lte` selects exactly the documents dated within the window. |
| `Store.InsertByDate` | server/src/index.js:55 | Inserting into a date-sorted list keeps it sorted and adds exactly that element. |
| `Store.SortByDate` | server/src/index.js:55 | `.sort({ date: 1 })` yields a date-sorted permutation. |
| `Store.ListingIsSortedSelection` | server/src/index.js:55 | The listing is sorted by date, is a permutation of the matching documents, and holds exactly the documents dated in the window. |
| `Store.ListingIsWholeDays` | server/src/index.js:41-57 | With bounds at start-of-day and end-of-day, the listing holds exactly the stored documents whose day lies between the two days. |
| `Store.ApplyPatch` | server/src/index.js:76-80 | An update sets the given fields, keeps the others, the id and the creation time, and sets `updatedAt`. |
| `Store.RemoveAtKeepsOthers` | server/src/index.js:92 | Deleting one document keeps ids distinct, removes one element and keeps exactly the documents with other ids. |
| `Store.RemoveAtIds` | server/src/index.js:92 | After a delete the ids are the old ids less the deleted one. |
| `Store.ReplaceAtKeepsIds` | server/src/index.js:76-80 | Replacing a document with an updated one of the same id keeps the set of ids and their distinctness. |
| `Store.TaskStore.Find` | server/src/index.js:47-55 | The loop collects exactly the documents in the window, and the result is that listing, sorted by date. |
| `Store.TaskStore.Insert` | server/src/index.js:67 | `save()` appends the new document and keeps ids distinct. |
| `Store.TaskStore.FindByIdAndUpdate` | server/src/index.js:76-80 | An unknown id returns nothing and changes nothing. Otherwise exactly that document is replaced by its patched form, which is returned. |
| `Store.TaskStore.FindByIdAndDelete` | server/src/index.js:92 | An unknown id returns nothing and changes nothing. Otherwise exactly that document is removed and returned. |
| `Server.ListTasks` | server/src/index.js:36-62 | A rejected range answers 400 with the validator's message. Bounds that do not cast answer 500. A store error answers 500 with its message. Otherwise the answer is 200 with the whole-day listing as JSON. |
| `Server.CreateTask` | server/src/index.js:64-72 | An invalid body answers 400 and stores nothing, and so does a failed cast or save. Otherwise exactly one new saved record is appended and answered with 201. |
| `Server.UpdateTask` | server/src/index.js:74-88 | An invalid body, a bad id, a failed cast or a store error answers 400 and changes nothing. An unknown id answers 404 and changes nothing. Otherwise only that document changes, and it is answered with 200. |
| `Server.DeleteTask` | server/src/index.js:90-100 | A bad id or a store error answers 400, and an unknown id 404; neither changes anything. Otherwise that document alone is removed and the answer is 204 with no body. |
| `Router.RouterCompleted` | server/src/routes/tasks.js:38 | `completed \|\| false` is false for a missing or falsy value, and the Boolean cast of a truthy one. |
| `Router.CreateVariantsAgree` | server/src/routes/tasks.js:34-41 | When both handler sets accept a body, they store the same document. |
| `Router.CompletedDefaultsAgree` | server/src/routes/tasks.js:38 | `completed \|\| false` is true exactly when the schema's Boolean cast of `completed` is true. |
| `Router.RouterIgnoresOtherKeys` | server/src/routes/tasks.js:34-39 | Body keys other than `content`, `date` and `completed` change nothing the router stores. |
| `Router.ListTasks` | server/src/routes/tasks.js:8-29 | A rejected range answers 400. A store error answers 500 "Failed to fetch tasks". Otherwise the answer is the whole-day listing for `startDate`..`endDate`. |
| `Router.CreateTask` | server/src/routes/tasks.js:31-46 | An invalid body answers 400. A failed cast or save answers 500 "Failed to create task" and stores nothing. Otherwise one record is appended and answered with 201. |
| `Router.UpdateTask` | server/src/routes/tasks.js:48-65 | An invalid body answers 400. A bad id, a failed cast or a store error answers 500 "Failed to update task". An unknown id answers 404. Only the matching document changes. |
| `Router.DeleteTask` | server/src/routes/tasks.js:67-79 | A bad id or store error answers 500 "Failed to delete task" and an unknown id 404. Otherwise exactly that document is removed and the answer is 200 with "Task deleted successfully". |
| `Cache.TasksKey` | server/src/services/redis.js:24 | A list key starts with `weekly-schedule:tasks:` and its length is 23 plus the lengths of the bounds. |
| `Cache.TaskKey` | server/src/services/redis.js:43 | A task key starts with `weekly-schedule:task:` and its length is 21 plus the id's length. |
| `Cache.KeyNamespacesDisjoint` | server/src/services/redis.js:16-43 | A list key never equals a task key. |
| `Cache.TasksKeyInjective` | server/src/services/redis.js:24 | When neither start bound contains ':', equal list keys mean equal bounds. |
| `Cache.TasksKeyCollision` | server/src/services/redis.js:24 | With a ':' inside a bound, two different ranges share a key. |
| `Cache.DayRangeKeysDistinct` | server/src/services/redis.js:24 | Distinct ranges with `YYYY-MM-DD` start bounds have distinct keys. |
| `Cache.GetAfterSet` | server/src/services/redis.js:23-33 | A get after a set of the same key returns the value up to and including 3600 s later, and nothing once that deadline has passed. |
| `Cache.OtherKeysUntouched` | server/src/services/redis.js:30-39 | A set or delete leaves every other key's lookup unchanged, and a deleted key reads as absent. |
| `Cache.RedisClient.Get` | server/src/services/redis.js:25 | `get` returns the live value, or nothing for an absent or expired key. |
| `Cache.GetTasksCache` | server/src/services/redis.js:23-27 | Returns the live entry under the range's key, or nothing. |
| `Cache.SetTasksCache` | server/src/services/redis.js:30-33 | Writes the range's key with a 3600-second expiry, and nothing else. |
| `Cache.InvalidateTasksCache` | server/src/services/redis.js:36-39 | Removes exactly the range's key. |
| `Cache.GetTaskCache` | server/src/services/redis.js:42-46 | Returns the live entry under the task's key, or nothing. |
| `Cache.SetTaskCache` | server/src/services/redis.js:49-52 | Writes the task's key with a 3600-second expiry, and nothing else. |
| `Cache.InvalidateTaskCache` | server/src/services/redis.js:55-58 | Removes exactly the task's key. |
| `Cache.CachesAreIndependent` | server/src/services/redis.js:23-52 | Caching a task leaves every list entry as it was, and the task reads back while live. |
| `Api.ErrorMessage` | src/services/api.ts:20-24 | The message is the joined `errors` when they are an array. Otherwise it is `error` when truthy, and otherwise the fallback. |
| `Api.JsonCall` | src/services/api.ts:13-85 | The result is a value exactly on an ok status with a JSON body. It is a status-carrying error exactly on a failed status with a non-null JSON body. Everything else is a network error, including a non-JSON body on an ok status. |
| `Api.DeleteCall` | src/services/api.ts:87-115 | Any ok status succeeds without reading the body. Every failed status gives a status-carrying error: the failure message of a parsed body, or the fallback when the body is not JSON. Only a rejected `fetch` is a network error. |
| `Api.DeleteMessage` | src/services/api.ts:103-107 | A falsy body, an empty joined `errors` or a falsy `error` all give the fallback message. |
| `Api.FetchRequest` | src/services/api.ts:15-17 | The list request is a GET whose query has exactly the keys `start` and `end`. |
| `Api.CreateRequest` | src/services/api.ts:37-43 | The create request is a POST whose body holds the three task fields. |
| `Api.UpdateRequest` | src/services/api.ts:63-69 | The update is a PUT to `/api/tasks/<id>` whose body holds exactly the fields given. |
| `Api.DeleteRequest` | src/services/api.ts:89-95 | The delete is a DELETE to `/api/tasks/<id>` without a body. |
| `Api.ErrorFieldSurfaces` | src/services/api.ts:20-107 | A failed `{ error }` reply surfaces its message unchanged, with the status, in all four operations. |
| `Api.EmptyErrorsArray` | src/services/api.ts:21-106 | An empty `errors` array gives an empty message in `fetchTasks` but the fallback in `deleteTask`. |
| `Api.UnparseableBody` | src/services/api.ts:18-103 | A non-JSON body is a network error in the three JSON-reading operations, even on an ok status. In `deleteTask` an ok status succeeds, and a failed one gives the fallback with the status. |
| `Week.OnDay` | src/App.tsx:56-63 | The reference filter holds exactly the tasks of the day. |
| `Week.GroupByDayIsFilter` | src/App.tsx:56-72 | The `reduce` bucket of a day (`[]` when absent) is that day's tasks in list order. |
| `Week.WeekColumns` | src/App.tsx:42-75 | The week has exactly 7 columns, dated Monday to Sunday of the anchor's week, each holding its day's tasks in fetched order. |
| `Week.WeekPlacement` | src/App.tsx:56-75 | The first column is a Monday and the week holds the anchor. A fetched task is in the column of its day, and in no column when its day lies outside the week. |
| `Week.FirstWithDate` | src/App.tsx:111 | `find` returns the first column with the date, or nothing exactly when no column has it. |
| `Week.FindTask` | src/App.tsx:92-94 | The task to move is found exactly when the first source-date column holds a task with the id. |
| `Week.Without` | src/App.tsx:107 | `filter` keeps exactly the tasks with other ids. |
| `Week.RemoveFromAll` | src/App.tsx:105-108 | Every column keeps its date and loses exactly the tasks with the id. |
| `Week.DeleteRemovesOnlyThatId` | src/App.tsx:233-240 | After the optimistic delete no column holds the id, every other task stays in its column, and deleting again changes nothing. |
| `Week.Splice` | src/App.tsx:117-118 | `splice(i, 0, x)` inserts x at the clamped position and keeps everything else in order. |
| `Week.InsertPos` | src/App.tsx:118 | For a non-negative index the insert position is min(index, length). |
| `Week.MovePlacesTask` | src/App.tsx:111-120 | With a target column, the moved task sits there at min(toIndex, length after removal), with the target date. |
| `Week.MoveOccursOnce` | src/App.tsx:101-123 | After a move into an existing column the id occurs exactly once on the board, at that position. |
| `Week.MoveKeepsOthers` | src/App.tsx:101-123 | Every other task keeps its column and relative order. |
| `Week.WithoutAround` | src/App.tsx:107 | Filtering out the id of one task placed between two runs without that id leaves the two runs joined. |
| `Week.WithoutSplice` | src/App.tsx:107-118 | Filtering the moved id back out of the target column after the insert gives the column as it was after removal. |
| `Week.MoveWithoutTarget` | src/App.tsx:105-120 | Without a target column the task is removed everywhere and not reinserted. |
| `Week.SameFirstAfterRemoval` | src/App.tsx:105-111 | Filtering tasks out keeps the column dates, so the target column stays the same. |
| `Week.InColumn` | src/App.tsx:209-214 | Replacing the tasks of the first column with a date changes that column only, and nothing when no column has the date. |
| `Week.ReplaceOnlyInNamedColumn` | src/App.tsx:207-216 | Reconciling replaces exactly the tasks with the reply's id, in the named column only; other columns, even ones holding a stale copy, are untouched. |
| `Week.AppendGoesLast` | src/App.tsx:275-281 | The optimistic create appends the placeholder to the end of the column matching the date. |
| `Week.ConfirmReplacesEveryTemp` | src/App.tsx:294-303 | Confirming replaces every `temp_` task of that column by the created task and keeps the others; no placeholder is left. |
| `Week.TwoTempsBecomeOneTask` | src/App.tsx:296-301 | Two pending placeholders both become the same created task. |
| `Week.DragEnd` | src/App.tsx:154-168 | Nothing happens exactly when the source or destination is missing or the drop is where it started. Otherwise the move gets (draggableId, source, destination, index). |
| `Week.ReorderIsMove` | src/App.tsx:159-167 | Dropping at another index in the same column moves within that column. |
| `Board.NewColumns` | src/App.tsx:236-239 | Building the column array allocates fresh, distinct column objects showing exactly the given columns. |
| `Board.MovedColumns` | src/App.tsx:101-123 | The move's new array is fresh column objects showing the moved board. |
| `Board.WithNewColumn` | src/App.tsx:236-239 | A new column object replaces the k-th one; the board shows the new column there and every other object is kept. |
| `Board.CopiedColumns` | src/App.tsx:236-239 | The first column object with the date, if any, is replaced by a new one holding the tasks; the board shows exactly that change. |
| `Board.SetTasks` | src/App.tsx:117-118 | Replacing one column object's tasks changes that column of the board and no other. |
| `Board.Board.Load` | src/App.tsx:40-83 | A successful fetch replaces the board with fresh columns showing the week and clears the error. A failure keeps the columns and shows the message. |
| `Board.Board.Move` | src/App.tsx:92-123 | A missing task sets the not-found error and changes nothing. Otherwise the board shows the moved view in fresh column objects, and the found task is returned. |
| `Board.Board.ShowMoved` | src/App.tsx:101-123 | The board shows the moved view in fresh column objects and keeps the error. |
| `Board.Board.Reconcile` | src/App.tsx:133-142 | The reconciling updater changes the first matching column object in place to the reconciled view. |
| `Board.Board.AppendPlaceholder` | src/App.tsx:275-282 | The optimistic create appends in place to the column object with the date. |
| `Board.Board.ConfirmCreate` | src/App.tsx:294-303 | The confirming create replaces placeholders in place in the column object with the date. |
| `Board.Board.DeleteEverywhere` | src/App.tsx:233-240 | The optimistic delete shows the board without the id, in fresh column objects. |
| `Board.Board.Rollback` | src/App.tsx:219 | `setWeekData(originalWeekData)` shows the captured column objects again. |
| `Board.Board.RollBackWith` | src/App.tsx:196-221 | The captured column objects are shown again. The error is the rollback callback's message, or the caught message when `optimisticApi` throws an `Error`; a thrown value that is not an `Error` gives the same fallback message. |
| `Board.Board.HandleMove` | src/App.tsx:89-152 | The update is sent exactly when the task is found. On success the reply is reconciled in the target column and the error is kept. A failed lookup or update re-fetches and shows the week; if the re-fetch fails too, the move's effect stays and the message is shown. |
| `Board.Board.Settle` | src/App.tsx:126-151 | A successful reply is reconciled in the target column. A failure re-fetches: on success the week is shown and the error cleared, otherwise the board stays and the re-fetch's message is shown. |
| `Board.Board.DeleteRolledBack` | src/App.tsx:226-257 | A failed delete's rollback shows the board exactly as before, since the delete built new column objects. The error is the caught message, or the handler's fallback when nothing is thrown or the thrown value is not an `Error`. |
| `Board.Board.UpdateRolledBack` | src/App.tsx:170-224 | A failed update's rollback still shows the optimistic edit, because that edit was made in place on a captured column object. The error is the caught message, or the handler's fallback when the thrown value is not an `Error`. |
| `Board.Board.CreateRolledBack` | src/App.tsx:260-311 | A failed create's rollback still shows the placeholder whenever the date has a column, so the board differs from before. The error is the caught message, or the handler's fallback when the thrown value is not an `Error`. |
| `Board.Board.CreateRolledBackCopying` | src/App.tsx:275-284 | With the append building a new column object, a failed create's rollback shows the board exactly as before. The error is the caught message, or the handler's fallback when the thrown value is not an `Error`. |
| `Board.Board.UpdateRolledBackCopying` | src/App.tsx:184-199 | With the replacement building a new column object, a failed update's rollback shows the board exactly as before. The error is the caught message, or the handler's fallback when the thrown value is not an `Error`. |
| `Board.Board.SetColumnCopying` | src/App.tsx:233-240 | Replacing a column by a new object shows the changed column and leaves every existing column object as it was. |
| `Integration.Deliver` | src/services/api.ts:15-18 | The client sees the server's status, and a parsed body exactly when the server sent one, equal to the body's JSON text. |
| `Integration.BoardTask` | server/src/models/Task.js:33-42 | A stored document as `toJSON` sends it and the board holds it: the same id, content and completion, dated by the document's day. |
| `Integration.ClientListRequestRejected` | src/services/api.ts:15-17 | Every list request the client builds fails `validateDateRange` with "Both startDate and endDate are required". |
| `Integration.FetchWeek` | server/src/index.js:36-39 | A week fetch end to end comes back as a 400 error with the range message, whatever the bounds and the store. |
| `Integration.ClientCreateRequestRejected` | src/App.tsx:264-268 | The board's create body (`content: ''`) fails `validateTask` with the content message. |
| `Integration.CreateFromBoard` | src/App.tsx:264-272 | Assuming `optimisticApi.createTask` passes the board's task unchanged to `api.createTask`, a board create end to end comes back as a 400 error with the content message and stores nothing. |
| `Integration.DeleteFromBoard` | src/services/api.ts:87-115 | A board delete succeeds exactly when the id names a stored document and no store error occurs, and only then is the document removed. An unknown id surfaces as 404 "Task not found" and a bad id as 400. |
| `Integration.ServerTasksSurviveConfirm` | src/App.tsx:296-301 | Tasks that came from the server are never replaced when a create is confirmed. |

## Findings

| source | as written | input that shows it | evidently intended | confidence | as-written member | corrected member |
|---|---|---|---|---|---|---|
| src/App.tsx:271-290 | The optimistic create assigns `column.tasks` on a column object that `originalWeekData` shares (277-279), so the rollback `setWeekData(originalWeekData)` shows the placeholder still appended. | A failed create on a date that has a column | The rollback restores the board as it was before the create. | not executed | `Board.Board.CreateRolledBack` | `Board.Board.CreateRolledBackCopying` |
| src/App.tsx:184-203 | The optimistic update assigns `column.tasks` on a shared column object (188-191), so the rollback still shows the edited task. | A failed update of a task in a column that has the date | The rollback restores the board as it was before the update. | not executed | `Board.Board.UpdateRolledBack` | `Board.Board.UpdateRolledBackCopying` |

## Left out

- User interface: the components, the JSX, toasts and timers are presentation only.
- `optimisticApi` is not part of this model. It is imported from `src/services/api.ts` (App.tsx:9), which does not define it, so it is treated as opaque. Only its callbacks (the updaters) and the rollback are modelled, each applied whole, in the order the handlers issue them. The failure scenarios assume the optimistic callback ran before the failure.
- React's asynchronous state scheduling and the races on the captured `weekData` are concurrency concerns and are not modelled.
- Week navigation (`WeekNavigator`) and the `useEffect` that re-fetches on a date change are UI wiring.
- Time zones and dayjs locales are not modelled: local time is UTC, and a day is the day number an instant falls on.
- Date strings are left out. The board holds day numbers rather than `YYYY-MM-DD` strings. A `toJSON` date is kept as the instant that `toISOString()` would write.
- Numbers are integers; floating-point values in JSON are not modelled.
- Mongoose is simplified:
  - `null` for `completed` is treated as a cast failure.
  - Its error messages are constants, not the library's exact texts.
  - Schema validators and ObjectIds given as 12-byte strings are not modelled.
  - `_id`, `createdAt` and `updatedAt` keys in a create or update body are not modelled. `new Task(req.body)` (server/src/index.js:65) keeps them as schema paths, so a client-supplied `_id` becomes the document's id or causes a duplicate-key error answered 400, and a supplied `createdAt` survives the save; the model's mounted create always uses the assigned id and the save time. The router builds its document from the three task fields only, so it is unaffected.
- `Server.CreateTask`: the ObjectId a new document receives is a parameter assumed unused, because MongoDB generates it; a body's `_id`, `createdAt` and `updatedAt` are not honoured, as the Mongoose lines above say.
- `Cache`: values are stored as the JSON value itself. The `JSON.stringify`/`JSON.parse` text round trip is taken as exact, and Redis expiry is a millisecond deadline: a key is returned up to and including its deadline and expires once the clock is past it.
- `Board.Board.UpdateRolledBack`, `Board.Board.CreateRolledBack` and their copying variants: an `optimisticApi` that calls the rollback callback and then returns normally is not modelled. In that case the handler's success updater (App.tsx:207-217 for an update, 294-304 for a create) and its success toast run after the rollback, and the board is not what these members state.
- `Integration.CreateFromBoard`: `optimisticApi.createTask` is not defined in `src/services/api.ts`; the member assumes it hands the board's task unchanged to `api.createTask`.
- `Integration.Deliver`: the JSON text of a response is its parsed value, and query strings are not URL-encoded or decoded.
- Express, CORS, the health endpoint, logging, configuration, and the MongoDB and Redis connections are setup with no logic to model.
- `Board.Board.HandleMove`: the re-fetch after a failure is modelled as settled before anything else happens, and the toasts are not modelled.
