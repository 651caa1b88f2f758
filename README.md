# clockwork-frontend task-list view-model in Dafny

This project models the client-side view-model of the clockwork task manager. That is everything the React front end computes or changes about tasks, without the rendering:

- **Dashboard** (`Dashboard`): the counters, the productivity insights and the list of open tasks. The list is filtered by a date window and a case-insensitive priority, then sorted by creation time, else due date.
- **Completed view** (`CompletedTasks`): the completed tasks, sorted newest first, oldest first or by priority weight.
- **Task cache** (`Layout`): the layout loads the task list from the remote store. It normalises the three response shapes, sorts failures into authorisation failures and other errors, and derives the summary statistics.
- **Task row** (`TaskItem`):
  - the optimistic completion toggle, which reverts on failure;
  - the status resync;
  - the subtask checkboxes and their progress;
  - the word-based truncation of the description.
- **Task form** (`AddTask`):
  - prefilling from an existing task;
  - editing one field at a time;
  - the due-date check, which compares strings;
  - dispatch as a create (POST without id) or an edit (PUT to the task's path);
  - error reporting.
- **Endpoint paths** (`ApiPaths`).

Shared modules:

- `Tasks`: the task record, JavaScript truthiness and `||` on optional strings, and ASCII lower-casing.
- `Seqs`: `Array.prototype.filter` with its counting lemmas.
- `Sorting`: a stable insertion sort by an integer key. This is `Array.prototype.sort` with a `key(a) - key(b)` comparator.
- `Requests`: the outcome of a request. It is `Ok(payload)`, `Failed(status?, serverMessage?, message?)` or `Cancelled`.

The pure parts are functions with lemmas. The three components whose state changes step by step are classes. `Layout.TaskCache` holds `tasks`, `loading` and `error`. `TaskItem.TaskItemState` holds `task`, `isCompleted` and `subtasks`. `AddTask.TaskForm` holds `taskData`, `loading` and `error`. Each handler is a method, and its postcondition states the whole new state.

Dates are integers. The dashboard gets a `Clock` record as input. It holds:

- local midnight and the day boundaries;
- `new Date(text).getTime()` as a function `parse`;
- `getMonth`, `getFullYear` and `toDateString` as functions.

Its ghost `Valid()` states the calendar facts that some lemmas need. The form gets today's `YYYY-MM-DD` string as a parameter.

Two behaviours of the code that are easy to assume otherwise:

- Only the task-list load treats 403 as an authorisation failure. The row and form handlers end the session on 401 alone.
- A load that fails keeps the previously cached list. It is not cleared.

## Model

| member | source | states |
|---|---|---|
| Tasks.Lower | src/pages/Dashboard.jsx:87-89 | lower-casing keeps the length and lower-cases every character in place |
| Tasks.LowerIdempotent | src/pages/Dashboard.jsx:87-89 | lower-casing twice is lower-casing once, so filter values compare equal in any casing |
| Seqs.Filter | src/pages/Dashboard.jsx:93 | the filtered list is a subsequence of the input whose every element passes; if every element passes it is the input |
| Seqs.FilterMultiset | src/components/CompletedTasks.jsx:14-15 | each value occurs in the filtered list exactly as often as in the input if it passes, otherwise never |
| Seqs.FilterMember | src/components/CompletedTasks.jsx:15 | a value is in the filtered list iff it is in the input and passes |
| Seqs.FilterMonotone | src/pages/Dashboard.jsx:42-52 | a predicate implying another keeps no more elements than it |
| Seqs.FilterDisjointSum | src/pages/Dashboard.jsx:30-32 | two mutually exclusive predicates together keep as many elements as their disjunction |
| Seqs.FilterComplement | src/components/Layout.jsx:104-106 | a predicate and its negation split the list: the two counts add up to its length |
| Sorting.SortByPermutes | src/pages/Dashboard.jsx:119-129 | the sort is a permutation of its input (equal multisets) |
| Sorting.SortBySorted | src/pages/Dashboard.jsx:119-129 | the sort's output has non-decreasing keys |
| Sorting.InsertFilterKey | src/components/CompletedTasks.jsx:16-29 | inserting an element puts it before the elements of the rest that have the same key (in the sort, those come later in the input), so among equal keys the order is kept |
| Sorting.SortByStable | src/components/CompletedTasks.jsx:16-29 | the sort is stable: for every key value, the elements with that key come out in their input order |
| Sorting.SortSortedIsIdentity | src/components/CompletedTasks.jsx:16-29 | input already in key order comes back unchanged |
| Sorting.ConstantKeyIsIdentity | src/components/CompletedTasks.jsx:26-27 | a comparator that always answers 0 keeps the input order |
| Sorting.SortIdempotent | src/pages/Dashboard.jsx:119-129 | sorting a sorted copy again changes nothing |
| Sorting.NegatedKeyDescending | src/pages/Dashboard.jsx:128 | ascending order by the negated key (`tb - ta`) is non-increasing order by the key |
| ApiPaths.Delete | src/utils/apiPath.js:12 | the delete path is "/api/tasks/" followed by exactly the id |
| ApiPaths.Update | src/utils/apiPath.js:13 | the update path is "/api/tasks/" followed by exactly the id |
| ApiPaths.UpdateStatus | src/utils/apiPath.js:14 | the status path starts with "/api/tasks/" and is 7 characters longer than the id path |
| ApiPaths.AddIsGetAll | src/utils/apiPath.js:10-11 | creating and listing use the same path "/api/tasks" |
| ApiPaths.DeleteIsUpdate | src/utils/apiPath.js:12-13 | DELETE(id) and UPDATE(id) are the same path |
| ApiPaths.UpdateStatusExtendsUpdate | src/utils/apiPath.js:13-14 | UPDATE_STATUS(id) is UPDATE(id) followed by "/status" |
| ApiPaths.UpdateInjective | src/utils/apiPath.js:13 | two ids give the same task path iff they are equal |
| ApiPaths.TaskPathsAreNotAuthPaths | src/utils/apiPath.js:5-14 | the login and signup paths differ, and no task path equals either |
| Requests.FailureMessage | src/components/Layout.jsx:79-82 | the message is the server's if non-empty, else the error's if non-empty, else the fallback; an aborted request has no response and its error message is "canceled"; non-empty when the fallback is |
| Dashboard.TaskStats | src/pages/Dashboard.jsx:28-34 | total is the list length; the low, medium and high counters count the tasks whose priority is that level in any casing; completed counts the tasks with status COMPLETED; each is at most the total |
| Dashboard.PriorityCountsBounded | src/pages/Dashboard.jsx:30-32 | low + medium + high is at most the total, with equality when every priority is low, medium or high in some casing |
| Dashboard.ProductivityInsights | src/pages/Dashboard.jsx:37-71 | completed today counts the completed tasks updated since local midnight, completed this week those updated since seven days before it; overdue and due-today count the open tasks due before today and due today; completed today is at most completed this week, which is at most the list length |
| Dashboard.OverdueAndDueTodayDisjoint | src/pages/Dashboard.jsx:54-64 | on a valid clock no task is both overdue and due today, so the two counts add up to at most the open tasks with a due date |
| Dashboard.DashboardTasks | src/pages/Dashboard.jsx:91-129 | no completed task; a permutation of the filtered subsequence of the cache; keys non-increasing for "newest", non-decreasing for any other order |
| Dashboard.DashboardMember | src/pages/Dashboard.jsx:91-116 | a task is listed iff it is in the cache, not completed, inside the date window and matching the priority filter |
| Dashboard.DateFilterNeedsDueDate | src/pages/Dashboard.jsx:97-99 | any date filter other than "all" lists only tasks with a due date |
| Dashboard.UnknownDateFilterKeepsDated | src/pages/Dashboard.jsx:97-109 | an unrecognised date filter lists exactly the open tasks that have a due date and match the priority |
| Dashboard.TodayWindow | src/pages/Dashboard.jsx:102 | "today" lists exactly the open tasks due from today's midnight to 23:59:59.999 |
| Dashboard.MonthWindow | src/pages/Dashboard.jsx:105-108 | "month" lists exactly the open tasks due in today's calendar month and year |
| Dashboard.TodayAndTomorrowWithinWeek | src/pages/Dashboard.jsx:78-104 | on a valid clock every task listed under "today" or "tomorrow" is listed under "week" |
| Dashboard.PriorityFilterMatches | src/pages/Dashboard.jsx:113-116 | with a priority filter, every listed task's lower-cased priority equals the lower-cased filter |
| Dashboard.FiltersIgnoreCase | src/pages/Dashboard.jsx:87-89 | filter settings that agree up to case give the same list |
| Dashboard.EmptyFiltersAreDefaults | src/pages/Dashboard.jsx:87-89 | empty settings behave as "all", "all" and "newest" |
| Dashboard.UnfilteredIsAllOpen | src/pages/Dashboard.jsx:91-116 | with both filters at "all" the list holds exactly the open tasks |
| CompletedTasks.CompletedView | src/components/CompletedTasks.jsx:13-30 | exactly the completed tasks, each as often as in the cache; "newest"/"oldest" order by creation time descending/ascending; "priority" by weight descending; any other value keeps the filtered order |
| CompletedTasks.CompletedViewMember | src/components/CompletedTasks.jsx:14-15 | a task is in the view iff it is in the cache and completed |
| CompletedTasks.ViewsPartitionTasks | src/components/CompletedTasks.jsx:15 | with the dashboard's filters at "all", the dashboard length plus the completed view length is the cache length |
| CompletedTasks.SortThree | src/components/CompletedTasks.jsx:22-25 | three elements ranked second, third and first by key come out in that order |
| CompletedTasks.PrioritySortExample | src/components/CompletedTasks.jsx:22-25 | completed tasks LOW, HIGH, MEDIUM sorted by priority are HIGH, MEDIUM, LOW |
| Layout.NormaliseBody | src/components/Layout.jsx:50-56 | a bare array is used as is; else an array under `tasks`, which wins over `data`; else an array under `data`; anything else gives the empty list |
| Layout.WrappedListsReadAsBare | src/components/Layout.jsx:50-56 | a list under `tasks` or under `data` reads the same as the bare list |
| Layout.Percentage | src/components/Layout.jsx:107-109 | 0 for an empty list; otherwise the nearest integer to completed·100/total, halves rounded up; always within 0 to 100 |
| Layout.Stats | src/components/Layout.jsx:103-117 | total is the length; completed counts the tasks with status COMPLETED; pending is total − completed; the percentage is the rounded share of completed tasks, within 0 to 100 and 0 when total is 0 |
| Layout.PendingCountsOpenTasks | src/components/Layout.jsx:104-106 | the pending count is the number of tasks not completed |
| Layout.QuarterIs25 | src/components/Layout.jsx:107-109 | one completed task out of four gives 25 percent |
| Layout.LoadErrorMessage | src/components/Layout.jsx:64-83 | 401 and 403 give "Request failed with status code 401" or "…403"; any other failure gives the server message, else the error message, else "Could not load tasks. Please try again."; an abort gives "canceled" |
| Layout.CancelledLoadShowsError | src/components/Layout.jsx:59-64 | an aborted load reaches the generic branch: it is no authorisation failure and its message is "canceled" |
| Layout.TaskCache.constructor | src/components/Layout.jsx:12-14 | the cache starts empty, loading, without an error |
| Layout.TaskCache.Load | src/components/Layout.jsx:30-87 | as written: without a token, no request, logout, list unchanged. Success replaces the list with the normalised body. Any other end, an abort included, keeps the list and sets the error; 401/403 log out. Loading ends false in every case |
| Layout.TaskCache.LoadIntended | src/components/Layout.jsx:59-64 | as the abort guard intends: an aborted load keeps the list and shows no error and does not log out; every other case is as in `Load` |
| TaskItem.ClickStatus | src/components/TaskItem.jsx:33 | the status sent is COMPLETED exactly when the row was not completed, IN_PROGRESS otherwise |
| TaskItem.RefreshAgreesWithFlip | src/components/TaskItem.jsx:28-40 | once the server stores the sent status, the resynced checkbox equals the optimistic one |
| TaskItem.ToggleAt | src/components/TaskItem.jsx:204-206 | toggling subtask i keeps the length, flips only entry i's `completed` and keeps its title |
| TaskItem.ToggleTwice | src/components/TaskItem.jsx:204-206 | toggling the same subtask twice restores the list |
| TaskItem.ToggleOutOfRange | src/components/TaskItem.jsx:204-206 | an index outside the list changes nothing |
| TaskItem.ToggleCount | src/components/TaskItem.jsx:204-206 | a toggle changes the completed-subtask count by exactly one, up or down as the entry was open or done |
| TaskItem.Progress | src/components/TaskItem.jsx:77 | with subtasks, exactly 100 · done / count; within 0 to 100; 0 without subtasks or with none done; 100 exactly when there are subtasks and all are done |
| TaskItem.AllDoneIffFull | src/components/TaskItem.jsx:77 | the completed count equals the length iff every subtask is completed |
| TaskItem.Split | src/components/TaskItem.jsx:91 | splitting on ' ' gives at least one word and no word contains a space |
| TaskItem.JoinSplit | src/components/TaskItem.jsx:91-93 | joining the words of a text with ' ' gives the text back |
| TaskItem.SplitJoin | src/components/TaskItem.jsx:91-93 | splitting a non-empty list of space-free words joined with ' ' gives the words back |
| TaskItem.Truncate | src/components/TaskItem.jsx:89-94 | "" stays ""; at most 29 words are returned unchanged; longer text becomes a proper prefix of it holding exactly its first 29 words, followed by "..." |
| TaskItem.TruncateIdempotent | src/components/TaskItem.jsx:89-94 | truncating a truncated description changes nothing |
| TaskItem.ShownDescription | src/components/TaskItem.jsx:163-166 | a missing or empty description shows no paragraph; otherwise the whole text when expanded and the truncated text when collapsed; shown text differs from the description only when the row flags it as long |
| TaskItem.TruncatedIsFlagged | src/components/TaskItem.jsx:97 | a description that truncation changes is always flagged as needing truncation |
| TaskItem.FlaggedButWhole | src/components/TaskItem.jsx:97 | descriptions of 26 to 29 words are flagged yet returned whole |
| TaskItem.TaskItemState.constructor | src/components/TaskItem.jsx:23-25 | the checkbox starts as the task's completion and the subtasks as the task's list, or empty |
| TaskItem.TaskItemState.ReceiveTask | src/components/TaskItem.jsx:28-30 | the checkbox is reset from the new task exactly when its status changed; the subtask state is kept |
| TaskItem.TaskItemState.Complete | src/components/TaskItem.jsx:32-47 | the sent status is the opposite of the old checkbox, which flips at once. Success refreshes and keeps the flip. Failure restores the old value. Logout happens exactly on 401. The request goes to UPDATE_STATUS(task.id) |
| TaskItem.TaskItemState.Delete | src/components/TaskItem.jsx:55-63 | DELETE(task.id) is requested; refresh exactly on success, logout exactly on 401, never both |
| TaskItem.TaskItemState.ToggleSubtask | src/components/TaskItem.jsx:204-206 | the subtask list becomes the toggled list; the task and checkbox are unchanged |
| AddTask.BeforeT | src/components/AddTask.jsx:32 | the result is the longest prefix without a 'T': it is a prefix, holds no 'T', and is followed by 'T' or the end |
| AddTask.BeforeTOfTimestamp | src/components/AddTask.jsx:32 | the date part of "date T time" is the date |
| AddTask.Prefill | src/components/AddTask.jsx:28-36 | title and description default to ""; the due date is exactly its part before the first 'T', "" when absent; priority defaults to LOW and status to IN_PROGRESS; the id is `_id` if non-empty, else `id` |
| AddTask.With | src/components/AddTask.jsx:44-47 | the named field takes the value and every other field, the id included, is unchanged |
| AddTask.WithOwnValue | src/components/AddTask.jsx:44-47 | writing a field's own value leaves the form unchanged |
| AddTask.WithCommutes | src/components/AddTask.jsx:44-47 | edits of two different fields commute |
| AddTask.LexLessIrreflexive | src/components/AddTask.jsx:62 | no date string is before itself, so today is not past |
| AddTask.LexLessTotal | src/components/AddTask.jsx:62 | of two different strings exactly one is before the other |
| AddTask.LexLessTransitive | src/components/AddTask.jsx:62 | the string order is transitive |
| AddTask.EmptyDueDateIsPast | src/components/AddTask.jsx:62 | an empty due date is before any non-empty today |
| AddTask.ProperPrefixIsLess | src/components/AddTask.jsx:62 | a proper prefix is before the longer string |
| AddTask.Dispatch | src/components/AddTask.jsx:71-79 | PUT iff the id is present and non-empty; PUT goes to UPDATE(id) with the whole record; POST goes to ADD with the id removed and every other field kept |
| AddTask.PrefilledFormEdits | src/components/AddTask.jsx:35 | a form prefilled from a task with an `_id` PUTs to that task's path |
| AddTask.NewFormCreates | src/components/AddTask.jsx:71-79 | the initial form POSTs the initial record to ADD |
| AddTask.EditsKeepDispatchKind | src/components/AddTask.jsx:44-47 | field edits never switch between create and edit |
| AddTask.SaveErrorMessage | src/components/AddTask.jsx:88 | the server message, else the error message, else "Failed to save task"; "canceled" for an aborted save; never empty |
| AddTask.TaskForm.constructor | src/components/AddTask.jsx:21-23 | the form starts at the initial record, not loading, without an error |
| AddTask.TaskForm.Open | src/components/AddTask.jsx:25-42 | closed: nothing changes; open: the record is prefilled from the task or reset, and the error is cleared |
| AddTask.TaskForm.Change | src/components/AddTask.jsx:44-47 | the record becomes the one-field edit; loading and error are unchanged |
| AddTask.TaskForm.Submit | src/components/AddTask.jsx:60-92 | refused with "Due date cannot be in the past." iff the due date is before today, with no request and loading untouched. Otherwise the dispatched request is sent. Success hands the saved task on. 401 logs out with no error. Other failures show the save error. Loading ends false |

## Left out

- Rendering, CSS classes, icons, menus, the edit modal's visibility and the click-outside listener: presentation only.
- The axios instance, its interceptors and the `Authorization: Bearer` header (section 2.1 of RFC 6750). Each request is reduced to its settled outcome.
- `localStorage`, navigation and `handleLogoutAndRedirect`. A logout is an output flag of the handler that triggers it; the stored token is an input of the load.
- Async interleaving: racing clicks and loads, React's state batching and the `useEffect`/`useMemo` timing. Each handler runs as one sequential step, and the AbortController wiring is reduced to the `Cancelled` outcome.
- Date parsing, time zones and `Date` methods. They are inputs: the `Clock` record and today's date string. The dashboard's `monthEnd` is computed and never used, so it has no counterpart.
- TaskItem `handleSave` and Dashboard `handleTaskSave`: they only forward a record to the store and refresh.
- `Math.round(progress)` for the progress label: display only.
- Tasks.Lower: lower-cases ASCII letters only, not the full Unicode mapping of `toLowerCase`.
- AddTask.LexLess: compares Unicode scalar values. JavaScript compares UTF-16 code units, and the two orders differ only for characters outside the Basic Multilingual Plane.
- CompletedTasks.CreatedKey: a missing `createdAt` gives key 0, and an unparsable one whatever the total `parse` gives. In the source both give NaN (`new Date(undefined)` is an invalid date), and the comparator's answer is then unspecified.
- Dashboard.SortKey: `parse` is total. In the source an unparsable date gives NaN, so the sort order is unspecified; the same holds for Dashboard.InDateWindow, Dashboard.CompletedSince, Dashboard.Overdue and Dashboard.DueToday, where every comparison with NaN is false: the source drops such a task from the date windows and from the insight counters, while the model places or counts it by whatever `parse` gives.
- CompletedTasks.PriorityWeight: an unknown priority weighs 0. In the source it gives NaN, and the comparator's answer is then unspecified.
- Layout.Percentage: uses exact integer rounding, (200·c + t) div (2·t). The source rounds the floating-point value of c/t·100, which can land on the other side of a .5 boundary.
- TaskItem.Progress: uses exact rational arithmetic instead of floating point.
- AddTask.FieldName: `handleChange` is modelled for the five named inputs of the form only. An arbitrary `name` would add a new property to the record.
- AddTask.TaskForm.Submit: a cancelled save reports "canceled", as axios would. The source passes no abort signal for saves, so the case does not arise there.
- The dashboard and completed views sort a fresh copy. In this value model the cached list can never be reordered, so there is nothing further to state.

## Findings

| source | as written | input that shows it | evidently intended | confidence | as-written member | corrected member |
|---|---|---|---|---|---|---|
| src/components/Layout.jsx:59-64 | the abort guard calls `axiosInstance.isCancel?.(err)`, but the instance made by `axios.create` (src/utils/axiosInstance.js:4) has no `isCancel`, so the guard is always false and an aborted load falls through to the generic branch, setting the error to `err.message` | a load aborted by the effect's cleanup while the layout stays mounted (the effect re-running): the error becomes "canceled" | an aborted load is silent: no error, the list kept, no logout (the comment above the guard says so) | not executed; high for the missing method, medium for how often an abort happens while mounted | Layout.CancelledLoadShowsError | Layout.TaskCache.LoadIntended |
