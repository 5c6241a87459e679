# VaultIQ meeting workspace — a Dafny model of its core

VaultIQ turns meeting transcripts into structured records. An analysis endpoint reads a
transcript. It stores a Meeting built from the analysis and one AI-suggested Task per
extracted action item, then links those tasks back to the meeting. Around that sit:

- the meeting, task, upload and download endpoints;
- a Kanban board over the user's accepted tasks;
- a dashboard home page and a month calendar;
- two path-to-label tables, one for the header title and one for the chat context.

This project models those pieces in Dafny and proves what they promise. It covers:

- the order of the guards (401, then 404, then 400, then 500);
- which request field wins over the analysed one;
- the defaults stamped on derived tasks;
- the meeting-to-task link and what a failure part-way leaves behind;
- that a listing holds exactly the caller's documents in the promised order;
- the board's list updates and its column partition;
- the calendar grid;
- the agreement between the two label tables.

Modules, one per source file plus shared ones:

- `Js` — the JavaScript semantics the code relies on:
  - truthiness of an optional string, and `a || b`;
  - `indexOf`, `startsWith`, `includes`;
  - ASCII `toLowerCase`, `padStart`, and `toString` of a non-negative integer.
- `Records` — the stored documents, the JSON responses, and the points where an awaited
  call can throw (`Fault`). It also holds the identity guard that every authenticated route
  starts with.
- `Db` — a `Store` class: the users map, the meeting and task collections, and the id
  counter.
- `Sorting` and `Query` — the store's `find(filter).sort({key: -1})`.
- `AnalyzeRoute`, `MeetingsRoute`, `TasksRoute`, `UploadRoute`, `DownloadRoute` — the
  endpoints.
- `KanbanColumn`, `KanbanView`, `HomeView`, `CalendarView`, `DashboardHeader`,
  `ChatWidgetWrapper` — the views.

Inputs the model takes as parameters:

- what the identity provider, the document store, the transcript analyser and object
  storage return, and which awaited step throws (a `Fault` value, or an outcome datatype);
- the clock (`now`);
- what `new Date(string)` makes of a date string (`parseDate`).

## Model

| member | source | states |
|---|---|---|
| Records.ResolveCaller | app/api/meetings/analyze/route.ts:11-22 | the caller is resolved iff the session lookup, the connection and the user lookup do not throw, the session id is truthy and a local user has it. A falsy id gives 401 (unless the session lookup threw), an unknown one gives 404, and a throw gives 500: a throwing session lookup gives 500 whatever the id, and a throwing connection or user lookup gives 500 once the id is truthy |
| AnalyzeRoute.Precheck | app/api/meetings/analyze/route.ts:11-28 | the analysis goes ahead iff the caller is resolved, the body is readable and the transcript is truthy. A failing guard is passed through unchanged (401, 404 or 500), an unreadable body after a resolved caller gives 500, and a falsy transcript after a resolved caller gives exactly 400 "Transcript text is required" |
| AnalyzeRoute.Analyze | app/api/meetings/analyze/route.ts:9-85 | on any early return the response is that of the guard, nothing is sent for analysis and neither collection changes. Otherwise the transcript is sent exactly once, and the store and response are as `Ingested` describes for the meeting built from the request and the analysis |
| AnalyzeRoute.Ingest | app/api/meetings/analyze/route.ts:31-76 | a throwing analysis or a throwing first meeting save gives 500 with nothing written. Otherwise the meeting is saved with a fresh id and the task saves and the link follow, as `Ingested` describes |
| AnalyzeRoute.SaveTasksAndLink | app/api/meetings/analyze/route.ts:50-76 | after the meeting save: a throwing task save leaves the unlinked meeting and the tasks before it, with 500. A throwing link save leaves the unlinked meeting and all tasks, with 500. Otherwise the meeting's task list is replaced by the saved ids, the response is 201 {meeting, tasks}, and the tasks naming the meeting as source are exactly the saved ones |
| AnalyzeRoute.IngestedWhenLinked | app/api/meetings/analyze/route.ts:67-76 | when every save succeeds, the stored tasks sourced from the new meeting are exactly the tasks just saved, and the 201 response carries them |
| AnalyzeRoute.SaveTasks | app/api/meetings/analyze/route.ts:53-67 | the tasks are saved one per candidate, in candidate order, with consecutive fresh ids. A throwing save at index k stops with exactly the first k saved and reports the failure, and a failure is reported only then |
| AnalyzeRoute.NewMeetingFields | app/api/meetings/analyze/route.ts:35-48 | the title and category are the request's when truthy, else the analysed ones. The date is the parsed request date when truthy, else now. The duration is "0m", the status "Completed", the owner the caller, and the task list empty |
| AnalyzeRoute.LinkedIds | app/api/meetings/analyze/route.ts:67-70 | the ids written back onto the meeting are one per candidate, in order, the i-th being the i-th saved task's id first + i |
| AnalyzeRoute.NewTasksAt | app/api/meetings/analyze/route.ts:53-65 | the i-th derived task is built from the i-th candidate and gets id first + i |
| AnalyzeRoute.NewTasksDefaults | app/api/meetings/analyze/route.ts:53-63 | every derived task copies the candidate's title, description and tags. Its priority is the candidate's when truthy, else "Medium". Its status is "Backlog", it is marked suggested, its source is the saved meeting and its owner the caller |
| AnalyzeRoute.LinkRoundTrip | app/api/meetings/analyze/route.ts:67-71 | after the saves, reading the tasks by source meeting gives exactly the saved tasks, in order, so their ids are the meeting's task list |
| Db.ReplaceLastMeeting | app/api/meetings/analyze/route.ts:50-71 | a second save of the last-inserted meeting, whose id nobody else has, changes only that record |
| Sorting.SortDescCorrect | app/api/meetings/route.ts:24-25 | the sorted list is non-increasing in the key and a permutation of the input |
| Sorting.SortDescMembers | app/api/meetings/route.ts:24-25 | sorting keeps the length and exactly the same members |
| Query.WhereMembers | app/api/meetings/route.ts:24 | a filter keeps exactly the elements satisfying it, with no copies added |
| Query.WhereAppend | app/components/KanbanView.tsx:85 | filtering a concatenation filters each part, so kept elements stay in their relative order |
| Query.FindSorted | app/api/meetings/route.ts:24-25 | a filtered, sorted query is ordered by the key and is a permutation of the matching documents |
| Query.FindSortedMembers | app/api/tasks/route.ts:23-25 | the query result holds exactly the matching documents |
| MeetingsRoute.ListMeetings | app/api/meetings/route.ts:9-33 | the response is 200 iff the guard passes and the query does not throw. The guard's 401/404/500 is passed through, otherwise a throw gives 500. The 200 list is date-descending and a permutation of the caller's meetings |
| MeetingsRoute.ListMeetingsOwned | app/api/meetings/route.ts:24 | a successful listing contains a meeting iff it is stored and owned by the caller |
| MeetingsRoute.CreateCheck | app/api/meetings/route.ts:35-70 | creation goes ahead iff the guard passes, the body is readable and both title and date are truthy. A failing guard is passed through unchanged, an unreadable body after a resolved caller gives 500, and a falsy title or date gives exactly 400 "Title and Date are required" |
| MeetingsRoute.CreateMeeting | app/api/meetings/route.ts:35-92 | an early return or a throwing create leaves the meetings unchanged. Otherwise exactly one meeting is appended: the request's title and parsed date, the copied fields, the caller as owner. The response is 201 with that meeting |
| MeetingsRoute.CreatedThenListed | app/api/meetings/route.ts:72-87 | a created meeting carries the request's title and date and appears in the caller's next listing |
| TasksRoute.ListTasks | app/api/tasks/route.ts:8-32 | the response is 200 iff the guard passes and the query does not throw. Guard errors are passed through, otherwise a throw gives 500. The 200 list is createdAt-descending and a permutation of the caller's tasks |
| TasksRoute.ListTasksOwned | app/api/tasks/route.ts:23 | a successful listing contains a task iff it is stored and owned by the caller |
| TasksRoute.AnalyzedTasksListed | app/api/tasks/route.ts:23-25 | every task the analysis saves for a caller appears in that caller's task listing |
| UploadRoute.Upload | app/api/documents/upload/route.ts:4-45 | storage is called (once, with the file) iff the form is readable, holds a file and the size is at most the ceiling. A falsy entry gives 400 "No file provided", an oversize file gives 400. The response is 200 iff storage returned a result, and then it is {url, gcsObjectId = fileName}. An unreadable form, or a non-empty text entry in place of a file, gives 500. For a file within the ceiling, a falsy storage result gives 500 "Failed to upload file to storage" and a storage throw gives 500 |
| UploadRoute.CeilingInclusive | app/api/documents/upload/route.ts:15-22 | a file of exactly 524,288,000 bytes is stored; one byte more gives 400 without a storage call |
| DownloadRoute.Download | app/api/documents/download/route.ts:4-34 | a falsy fileId gives 400 and no resolver call; otherwise the resolver is called once with it. The response is 404 iff the url is null or empty, 500 iff the resolver throws, and 200 iff a url comes back, in which case it is that url |
| KanbanColumn.StatusIndices | app/microcomponents/KanbanColumn.tsx:15 | the order is Backlog, In Progress, Review, Completed, each at its own index |
| KanbanColumn.NextStatus | app/microcomponents/KanbanColumn.tsx:16-17 | there is no successor iff the title is "Completed". A title outside the order gets "Backlog" (index -1 plus one). Any of the first three gets the next status in the order |
| KanbanColumn.MovesForward | app/microcomponents/KanbanColumn.tsx:16-17 | a move from a listed status other than the last goes exactly one place forward |
| KanbanColumn.AdvanceIndex | app/microcomponents/KanbanColumn.tsx:16-17 | after k moves a listed status is k places on, capped at Completed. So at most three moves reach Completed |
| KanbanColumn.UnknownReachesCompleted | app/microcomponents/KanbanColumn.tsx:16-17 | a title outside the order reaches Completed in four moves |
| KanbanColumn.ShowMoveActionIff | app/microcomponents/KanbanColumn.tsx:38 | the move action is shown iff there is a successor, that is, iff the column is not Completed |
| KanbanColumn.OnMove | app/microcomponents/KanbanColumn.tsx:39 | a move handler exists iff the column is not Completed, and it requests the card's own id with the successor status |
| KanbanColumn.CountLabelValue | app/microcomponents/KanbanColumn.tsx:29 | the count label is all digits and reads back as the count. It is two characters with a leading zero below ten, and the plain decimal from ten on |
| KanbanColumn.RenderColumn | app/microcomponents/KanbanColumn.tsx:14-51 | one card per task, in order, each showing the move action iff the column is not Completed. The label is the padded count, and the empty placeholder appears iff there are no tasks |
| KanbanColumn.CardMove | app/microcomponents/KanbanColumn.tsx:38-39 | a card's move action sends that card's task id with the column's successor |
| KanbanView.ActiveTasksExact | app/components/KanbanView.tsx:34 | after a fetch the board holds exactly the fetched tasks with suggested === false, none of which is in the suggested === true set a meeting page shows |
| Query.Replace | app/components/KanbanView.tsx:69 | replacing by a test keeps the length, puts the new element exactly where the test holds and keeps every other element in place. The board's update uses it by task id, and the second meeting save by meeting id |
| KanbanView.ReplaceByIdIdempotent | app/components/KanbanView.tsx:69 | replacing twice with the same task equals replacing once |
| KanbanView.ReplaceByIdAbsent | app/components/KanbanView.tsx:69 | a list with no task of the updated id is unchanged |
| KanbanView.RemoveByIdProperties | app/components/KanbanView.tsx:85 | deleting keeps exactly the tasks with other ids, and splits over concatenation, so order is kept |
| KanbanView.RemoveByIdAbsent | app/components/KanbanView.tsx:85 | deleting an id no task has leaves the list unchanged |
| KanbanView.SetStatusProperties | app/components/KanbanView.tsx:97 | a move changes only the status of the tasks with that id, and moving twice to the same status equals moving once |
| Js.IncludesAt | app/components/KanbanView.tsx:144-146 | `includes`, on which the search rests, holds iff the query occurs at some index of the text |
| KanbanView.SearchProperties | app/components/KanbanView.tsx:143-146 | an empty query matches every task, and the query's letter case does not change the outcome |
| KanbanView.FilteredUnfiltered | app/components/KanbanView.tsx:143-149 | with an empty query and the "All" priority every task is shown, in order |
| KanbanView.ColumnsPartition | app/components/KanbanView.tsx:120-204 | a task with one of the four statuses is in that status's column and in no other |
| KanbanView.ColumnsCount | app/components/KanbanView.tsx:120-204 | the four columns together hold exactly as many tasks as have one of the four statuses |
| KanbanView.Board.constructor | app/components/KanbanView.tsx:16-26 | the board starts empty and loading, with no error, an empty query, the "All" filter and no dialog open |
| KanbanView.Board.FetchTasks | app/components/KanbanView.tsx:30-42 | a successful fetch sets the list to the active fetched tasks; a failed one keeps the list and sets "Failed to load tasks". Loading ends either way |
| KanbanView.Board.CreateTask | app/components/KanbanView.tsx:49-62 | a created task is put in front of the old list and the dialog closes; on failure nothing changes |
| KanbanView.Board.UpdateTask | app/components/KanbanView.tsx:64-80 | with no task being edited nothing is sent and nothing changes. Otherwise the update is sent for that task's id, and on success the list is replaced by id and the dialog state is cleared |
| KanbanView.Board.DeleteTask | app/components/KanbanView.tsx:82-91 | a successful delete removes every task with the id; a failed one changes nothing |
| KanbanView.Board.MoveStatus | app/components/KanbanView.tsx:94-106 | the status is set locally before the update for (id, status) is sent |
| KanbanView.Board.OpenCreateModal | app/components/KanbanView.tsx:108-112 | the dialog opens for a new task, with no current task |
| KanbanView.Board.OpenEditModal | app/components/KanbanView.tsx:114-118 | the dialog opens for editing the given task |
| KanbanView.Board.SetSearchQuery | app/components/KanbanView.tsx:166 | typing in the search box sets the query to the typed text and changes nothing else |
| KanbanView.Board.SetPriorityFilter | app/components/KanbanView.tsx:177 | choosing a priority sets the filter to the chosen value and changes nothing else |
| KanbanView.Board.View | app/components/KanbanView.tsx:127-210 | the columns are shown iff the board is not loading and has no error. Then there are four, one per status in order, each rendering the filtered tasks with that status |
| HomeView.PendingSplit | app/views/HomeView.tsx:17 | every task counts as pending or completed, so the pending count is at most the task count |
| HomeView.Stats | app/views/HomeView.tsx:14-19 | Analysed is the meeting count and Tasks the task count. Pending is the task count minus the completed tasks, so at most the task count. Resolution is the fixed "84%" |
| HomeView.HighPriorityPanel | app/views/HomeView.tsx:60 | the panel shows min(4, k) of the k high-priority tasks: they are a prefix of them in list order, all of them when k ≤ 4, and each has priority "high" |
| HomeView.Recent | app/views/HomeView.tsx:79 | the recent panel holds the first min(3, n) meetings, in order |
| CalendarView.MonthLength | app/views/CalendarView.tsx:8 | months have 28 to 31 days. February has 29 iff the year is a Gregorian leap year; April, June, September and November have 30; the rest 31 |
| CalendarView.YearLength | app/views/CalendarView.tsx:8 | the twelve months add up to 365 days, 366 in a leap year |
| CalendarView.NextYear | app/views/CalendarView.tsx:8-9 | the day count is consistent: consecutive years start one year's length apart |
| CalendarView.FirstDayOfMonth | app/views/CalendarView.tsx:9 | the first weekday lies in 0..6 |
| CalendarView.NextMonthFirstDay | app/views/CalendarView.tsx:8-9 | the next month starts on the weekday after this month's last day |
| CalendarView.NextYearFirstDay | app/views/CalendarView.tsx:8-9 | January starts on the weekday after the previous December's last day |
| CalendarView.InitialMonth | app/views/CalendarView.tsx:6-9 | the first month shown, May 2024, has 31 days and starts on a Wednesday |
| CalendarView.BuildDays | app/views/CalendarView.tsx:11-13 | the grid has firstDayOfMonth + daysInMonth cells: blanks first, then day d in cell firstDayOfMonth + d - 1 |
| CalendarView.DaysInMonth | app/views/CalendarView.tsx:8 | the day count is 28 to 31, and February has 29 days iff the year is a leap year. As `new Date` does, years 0 to 99 are read as 1900 to 1999 and other years as given |
| CalendarView.FixedEventDays | app/views/CalendarView.tsx:17-20 | of the two fixed events, the 15th lists only "Product Sync", the 18th only "Design Review", and every other day none |
| CalendarView.CellEventsExact | app/views/CalendarView.tsx:45-53 | a numbered cell lists exactly the events of its day; a blank cell lists none |
| CalendarView.MonthNamesDistinct | app/views/CalendarView.tsx:15-26 | the month table has twelve entries, pairwise distinct, indexed by the 0-based month |
| DashboardHeader.ExactPathsOutsidePrefix | app/components/DashboardHeader.tsx:10-17 | no exactly compared path falls under the meeting-detail prefix |
| DashboardHeader.GetTitle | app/components/DashboardHeader.tsx:9-19 | each label is given iff its rule is the first to match: "/dashboard" gives Overview; the "/dashboard/meetings/" prefix gives Deep Dive; the six exact paths give their labels. Every other path, and an absent one, gives "Dashboard" |
| ChatWidgetWrapper.GetContext | app/components/ChatWidgetWrapper.tsx:10-23 | the meeting-detail prefix gives "Meeting Detail", tested before the six exact paths, which give their contexts. Everything else, "/dashboard" and an absent path included, gives "General Workspace" |
| ChatWidgetWrapper.ContextAgreesWithTitle | app/components/ChatWidgetWrapper.tsx:10-23 | a path gets a specific chat context iff the header gives it a title other than "Overview" and "Dashboard" |

## Left out

- Identity, storage and analysis services are not modelled: the identity provider's
  session lookup, the database connection, the document models, the transcript
  analyser and object storage. Their results and throws are parameters.
- `populate` of the meeting's tasks and of the task's source-meeting title is not
  modelled. The listings return the stored documents.
- AnalyzeRoute.SaveTasks: the task saves run concurrently under `Promise.all`. The `map`
  issues every save before any of them can reject, so in the source the later tasks would
  still reach the store after a failure. The model saves in candidate order and, by choice,
  keeps only the tasks before the failing one.
- AnalyzeRoute.Analyze: the 500 response's `details` field, which carries the error
  message, is not modelled; the body is `{error: "Internal Server Error"}` only.
- Task `createdAt` is the store's timestamp, modelled as the `now` of the request.
- `new Date(date)` is the parameter `parseDate`. An invalid date string, and what the store
  does with the resulting invalid date, is not modelled.
- Meeting and task documents are modelled with the fields the handlers set or read. Schema
  defaults of the document models are not part of this model.
- Js.LowerChar: `toLowerCase` maps only the ASCII letters here; the full Unicode mapping is
  not modelled.
- KanbanView: the toasts and the `isSubmitting` flag are not modelled. The request functions
  (`getAllTasks`, `createTask`, `updateTask`, `deleteTask`) are modelled as outcomes.
- KanbanView.Board.MoveStatus: the refetch after a failed update is not modelled.
- KanbanView: the `onUpdateStatus` prop is never called by the view, so it is not modelled.
- app/services/api/tasks.ts is not part of this model. The board assumes each task's `id` is already set.
- CalendarView: the "today" highlight and the week-day header row are presentational.
  The `currentDate` state is never changed by the view. `BuildDays` is stated for any
  month and year, and the initial month is proved as a separate fact.
- The chat widget itself, the `/api/me` route and the presentational components and mock
  data files are not part of this model.
